/**
 The Vector controller. A pass is cut at its API calls; between them users, other
 passes and crashes act. The cluster role and binding named after a Vector's UID are
 guarded by a finalizer on that Vector.
 */
module Vector {
  import opened Wrappers
  import opened Objects
  import opened Mutate
  import opened Store
  import opened Ensure

  const FINALIZER := "core.supabase.io/vector-rbac"

  datatype CR = CR(uid: string, version: nat, deleting: bool, finalizers: set<string>)

  /** Where a pass stands before its next API call, with the object it holds. */
  datatype Pass =
    | AddFinalizer(obj: CR)
    | StartGet
    | Gates(obj: CR)
    | RoleGet(obj: CR)
    | RoleWrite(obj: CR, attempt: Attempt)
    | BindingGet(obj: CR)
    | BindingWrite(obj: CR, attempt: Attempt)
    | Workload(obj: CR)
    | CleanGet(obj: CR, index: nat)
    | CleanDelete(obj: CR, index: nat, incarnation: nat)
    | RemoveFinalizer(obj: CR)

  /** Vectors and passes by name; a pass exists while it runs, so passes of one Vector do not overlap. */
  datatype State = State(crs: map<string, CR>, rbac: Store, used: set<string>, clock: nat, passes: map<string, Pass>)

  function RbacName(uid: string): string { "supabase-vector-" + uid }

  function RbacKey(kind: Kind, uid: string): Key { Key(kind, "", RbacName(uid)) }

  /** The two kinds, in the order cleanup deletes them. */
  function CleanupKey(index: nat, uid: string): Key {
    RbacKey(if index == 0 then KindClusterRoleBinding else KindClusterRole, uid)
  }

  function RbacMeta(uid: string): Meta {
    Meta("", RbacName(uid), 0, 0, false, {}, [], map[], map[OWNER_UID := uid])
  }

  const LOG_READER_RULES: Raw := 1
  const COLLECTOR: Raw := 1

  function RoleCall(uid: string): Call {
    Call(Object(RbacMeta(uid), ClusterRole(LOG_READER_RULES)), None, MutateClusterRole)
  }

  function BindingCall(uid: string): Call {
    Call(Object(RbacMeta(uid), ClusterRoleBinding(RbacName(uid), COLLECTOR)), None, MutateClusterRoleBinding)
  }

  // ---- one API call of a pass ----

  function Goto(s: State, n: string, p: Pass): State { s.(passes := s.passes[n := p]) }

  function Leave(s: State, n: string): State { s.(passes := s.passes - {n}) }

  /** Storing a CR; one that is being deleted goes with its last finalizer. */
  function PutCR(s: State, n: string, cr: CR): State {
    if cr.deleting && cr.finalizers == {} then s.(crs := s.crs - {n}, clock := s.clock + 1)
    else s.(crs := s.crs[n := cr.(version := s.clock)], clock := s.clock + 1)
  }

  function UpdateFinalizers(s: State, n: string, obj: CR, finalizers: set<string>): Option<State> {
    if n in s.crs && s.crs[n].version == obj.version then Some(PutCR(s, n, s.crs[n].(finalizers := finalizers)))
    else None
  }

  function BeginPass(s: State, n: string): State {
    if n in s.passes || n !in s.crs then s
    else
      var obj := s.crs[n];
      if obj.deleting then
        if FINALIZER in obj.finalizers then Goto(s, n, CleanGet(obj, 0)) else s
      else if FINALIZER !in obj.finalizers then Goto(s, n, AddFinalizer(obj))
      else Goto(s, n, StartGet)
  }

  /** `proceed` is how the checks of unrelated objects turn out. */
  function Continue(s: State, server: Server, n: string, proceed: bool): State {
    if n !in s.passes then s
    else
      match s.passes[n]
      case AddFinalizer(obj) =>
        var updated := UpdateFinalizers(s, n, obj, obj.finalizers + {FINALIZER});
        if updated.None? then Leave(s, n) else Goto(updated.value, n, StartGet)
      case StartGet =>
        if n !in s.crs || s.crs[n].deleting then Leave(s, n) else Goto(s, n, Gates(s.crs[n]))
      case Gates(obj) => if proceed then Goto(s, n, RoleGet(obj)) else Leave(s, n)
      case RoleGet(obj) => Goto(s, n, RoleWrite(obj, Begin(s.rbac, RoleCall(obj.uid))))
      case RoleWrite(obj, attempt) =>
        var (rbac, r) := Finish(s.rbac, server, attempt);
        if r.Failed? then Leave(s.(rbac := rbac), n) else Goto(s.(rbac := rbac), n, BindingGet(obj))
      case BindingGet(obj) => Goto(s, n, BindingWrite(obj, Begin(s.rbac, BindingCall(obj.uid))))
      case BindingWrite(obj, attempt) =>
        var (rbac, r) := Finish(s.rbac, server, attempt);
        if r.Failed? then Leave(s.(rbac := rbac), n) else Goto(s.(rbac := rbac), n, Workload(obj))
      case Workload(obj) => Leave(s, n)
      case CleanGet(obj, index) =>
        var k := CleanupKey(index, obj.uid);
        if k !in s.rbac.objects then Goto(s, n, AfterClean(obj, index))
        else if OwnerUid(s.rbac.objects[k]) != obj.uid then Leave(s, n)
        else Goto(s, n, CleanDelete(obj, index, s.rbac.objects[k].meta.incarnation))
      case CleanDelete(obj, index, incarnation) =>
        var (rbac, error) := DeleteFrom(s.rbac, CleanupKey(index, obj.uid), Some(incarnation));
        if error == Some(Conflict) then Leave(s, n) else Goto(s.(rbac := rbac), n, AfterClean(obj, index))
      case RemoveFinalizer(obj) =>
        var updated := UpdateFinalizers(s, n, obj, obj.finalizers - {FINALIZER});
        Leave(updated.GetOr(s), n)
  }

  function AfterClean(obj: CR, index: nat): Pass {
    if index == 0 then CleanGet(obj, 1) else RemoveFinalizer(obj)
  }

  // ---- runs ----

  datatype Action =
    | Start(name: string)
    | Next(name: string, proceed: bool)
    | Crash(name: string)
    | UserCreate(name: string, uid: string, finalizers: set<string>)
    | UserDelete(name: string)
    | OtherEdit(name: string, finalizers: set<string>)
    | RbacDelete(key: Key)
    | RbacEdit(obj: Object)

  /**
   Users create and delete Vectors; anyone may edit one, but leaves this finalizer in
   place; anyone may delete or rewrite an existing cluster role or binding. A UID is
   used once.
   */
  function Step(s: State, server: Server, a: Action): State {
    match a
    case Start(n) => BeginPass(s, n)
    case Next(n, proceed) => Continue(s, server, n, proceed)
    case Crash(n) => Leave(s, n)
    case UserCreate(n, uid, finalizers) =>
      if n in s.crs || uid in s.used then s
      else PutCR(s.(used := s.used + {uid}), n, CR(uid, 0, false, finalizers))
    case UserDelete(n) =>
      if n !in s.crs then s else PutCR(s, n, s.crs[n].(deleting := true))
    case OtherEdit(n, finalizers) =>
      if n !in s.crs || (FINALIZER in s.crs[n].finalizers && FINALIZER !in finalizers) then s
      else PutCR(s, n, s.crs[n].(finalizers := finalizers))
    case RbacDelete(k) => s.(rbac := DeleteFrom(s.rbac, k, None).0)
    case RbacEdit(o) => if KeyOf(o) in s.rbac.objects then s.(rbac := PutIn(s.rbac, o)) else s
  }

  function Exec(s: State, server: Server, run: seq<Action>): State {
    if run == [] then s else Step(Exec(s, server, run[..|run| - 1]), server, run[|run| - 1])
  }

  // ---- the invariant ----

  ghost predicate Guarded(s: State, uid: string) {
    exists n :: n in s.crs && s.crs[n].uid == uid && FINALIZER in s.crs[n].finalizers
  }

  /** The object is there and nobody has asked for its deletion. */
  predicate Live(rbac: Store, k: Key) {
    k in rbac.objects && !rbac.objects[k].meta.deleting
  }

  /** No live cluster role or binding without a Vector of that UID that carries the finalizer. */
  ghost predicate NoOrphans(s: State) {
    forall uid :: Live(s.rbac, RbacKey(KindClusterRole, uid)) || Live(s.rbac, RbacKey(KindClusterRoleBinding, uid)) ==>
      Guarded(s, uid)
  }

  predicate Holds(s: State, n: string, uid: string) {
    n in s.crs && s.crs[n].uid == uid && FINALIZER in s.crs[n].finalizers
  }

  ghost predicate PassInv(s: State, n: string, p: Pass) {
    match p
    case AddFinalizer(obj) => FINALIZER !in obj.finalizers && obj.version < s.clock
        && (n in s.crs && s.crs[n].version == obj.version ==> s.crs[n] == obj)
    case StartGet => n in s.crs && FINALIZER in s.crs[n].finalizers
    case Gates(obj) => Holds(s, n, obj.uid)
    case RoleGet(obj) => Holds(s, n, obj.uid)
    case RoleWrite(obj, attempt) =>
      Holds(s, n, obj.uid) && (!attempt.Finished? ==> KeyOf(attempt.obj) == RbacKey(KindClusterRole, obj.uid))
    case BindingGet(obj) => Holds(s, n, obj.uid)
    case BindingWrite(obj, attempt) =>
      Holds(s, n, obj.uid) && (!attempt.Finished? ==> KeyOf(attempt.obj) == RbacKey(KindClusterRoleBinding, obj.uid))
    case Workload(obj) => true
    case CleanGet(obj, index) =>
      Holds(s, n, obj.uid) && (index != 0 ==> !Live(s.rbac, CleanupKey(0, obj.uid)))
    case CleanDelete(obj, index, _) =>
      Holds(s, n, obj.uid) && (index != 0 ==> !Live(s.rbac, CleanupKey(0, obj.uid)))
    case RemoveFinalizer(obj) =>
      && Holds(s, n, obj.uid)
      && !Live(s.rbac, CleanupKey(0, obj.uid)) && !Live(s.rbac, CleanupKey(1, obj.uid))
  }

  ghost predicate Inv(s: State) {
    && Valid(s.rbac)
    && (forall n :: n in s.crs ==> s.crs[n].uid in s.used && s.crs[n].version < s.clock)
    && (forall m, n :: m in s.crs && n in s.crs && m != n ==> s.crs[m].uid != s.crs[n].uid)
    && NoOrphans(s)
    && (forall n :: n in s.passes ==> PassInv(s, n, s.passes[n]))
  }

  lemma RbacNameInjective(u: string, v: string)
    requires RbacName(u) == RbacName(v)
    ensures u == v
  {
    assert RbacName(u)[|RbacName("")|..] == u && RbacName(v)[|RbacName("")|..] == v;
  }

  // ---- every step keeps the invariant ----

  /** The finalizer of no Vector is taken away, and its identity stays. */
  ghost predicate KeepsHolders(s: State, t: State) {
    forall m, uid :: Holds(s, m, uid) ==> Holds(t, m, uid)
  }

  ghost predicate CRsOk(s: State) {
    && (forall n :: n in s.crs ==> s.crs[n].uid in s.used && s.crs[n].version < s.clock)
    && (forall m, n :: m in s.crs && n in s.crs && m != n ==> s.crs[m].uid != s.crs[n].uid)
  }

  /** A change of one Vector that leaves the finalizer, seen by everything else. */
  lemma EditKeepsInv(s: State, t: State, n: string)
    requires Inv(s) && CRsOk(t) && t.rbac == s.rbac && t.passes == s.passes && s.clock <= t.clock
    requires KeepsHolders(s, t)
    requires forall m :: m in t.crs && m in s.crs && t.crs[m] != s.crs[m] ==> t.crs[m].version >= s.clock
    requires forall m :: m in t.crs && m !in s.crs ==> t.crs[m].version >= s.clock
    ensures Inv(t)
  {
    forall uid | Live(t.rbac, RbacKey(KindClusterRole, uid)) || Live(t.rbac, RbacKey(KindClusterRoleBinding, uid))
      ensures Guarded(t, uid)
    {
      var m :| m in s.crs && s.crs[m].uid == uid && FINALIZER in s.crs[m].finalizers;
      assert Holds(s, m, uid);
    }
    forall m | m in t.passes ensures PassInv(t, m, t.passes[m]) {
      assert PassInv(s, m, s.passes[m]);
      if s.passes[m].StartGet? {
        assert Holds(s, m, s.crs[m].uid);
      }
    }
  }

  /** Storing a Vector that keeps its identity, or has a new one, and keeps the finalizer. */
  lemma PutInv(s: State, used: set<string>, n: string, cr: CR)
    requires Inv(s) && s.used <= used && cr.uid in used
    requires if n in s.crs then cr.uid == s.crs[n].uid else cr.uid !in s.used
    requires n in s.crs && FINALIZER in s.crs[n].finalizers ==> FINALIZER in cr.finalizers
    ensures Inv(PutCR(s.(used := used), n, cr))
  {
    hide PassInv, Valid, NoOrphans;
    EditKeepsInv(s, PutCR(s.(used := used), n, cr), n);
  }

  lemma UserActionInv(s: State, server: Server, a: Action)
    requires Inv(s)
    requires a.UserCreate? || a.UserDelete? || a.OtherEdit?
    ensures Inv(Step(s, server, a))
  {
    hide Inv, PutCR;
    match a
    case UserCreate(n, uid, finalizers) =>
      if n !in s.crs && uid !in s.used {
        PutInv(s, s.used + {uid}, n, CR(uid, 0, false, finalizers));
      }
    case UserDelete(n) =>
      if n in s.crs {
        KnownUid(s, n);
        PutInv(s, s.used, n, s.crs[n].(deleting := true));
        assert s.(used := s.used) == s;
      }
    case OtherEdit(n, finalizers) =>
      if n in s.crs && (FINALIZER in s.crs[n].finalizers ==> FINALIZER in finalizers) {
        KnownUid(s, n);
        PutInv(s, s.used, n, s.crs[n].(finalizers := finalizers));
        assert s.(used := s.used) == s;
      }
  }

  lemma KnownUid(s: State, n: string)
    requires Inv(s) && n in s.crs
    ensures s.crs[n].uid in s.used
  {
  }

  /** Objects go, or change in place; none appears but those a pass with the finalizer on its Vector writes. */
  lemma RbacChangeInv(s: State, t: State, mine: string, kind: Kind)
    requires Inv(s) && t == s.(rbac := t.rbac) && Valid(t.rbac)
    requires kind == KindClusterRole || kind == KindClusterRoleBinding
    requires forall k :: Live(t.rbac, k) && !Live(s.rbac, k) ==> k == RbacKey(kind, mine) && Guarded(s, mine)
    requires forall n :: n in s.passes && (s.passes[n].CleanGet? || s.passes[n].CleanDelete? || s.passes[n].RemoveFinalizer?) ==>
               s.passes[n].obj.uid != mine || forall k :: Live(t.rbac, k) ==> Live(s.rbac, k)
    ensures Inv(t)
  {
    forall uid | Live(t.rbac, RbacKey(KindClusterRole, uid)) || Live(t.rbac, RbacKey(KindClusterRoleBinding, uid))
      ensures Guarded(t, uid)
    {
      if !Live(s.rbac, RbacKey(KindClusterRole, uid)) && !Live(s.rbac, RbacKey(KindClusterRoleBinding, uid)) {
        RbacNameInjective(uid, mine);
      }
      var m :| m in s.crs && s.crs[m].uid == uid && FINALIZER in s.crs[m].finalizers;
      assert Holds(t, m, uid);
    }
    forall n | n in t.passes ensures PassInv(t, n, t.passes[n]) {
      var p := s.passes[n];
      assert PassInv(s, n, p);
      if p.CleanGet? || p.CleanDelete? || p.RemoveFinalizer? {
        forall i: nat | !Live(s.rbac, CleanupKey(i, p.obj.uid)) ensures !Live(t.rbac, CleanupKey(i, p.obj.uid)) {
          if Live(t.rbac, CleanupKey(i, p.obj.uid)) {
            RbacNameInjective(p.obj.uid, mine);
          }
        }
      }
    }
  }

  lemma RbacActionInv(s: State, server: Server, a: Action)
    requires Inv(s)
    requires a.RbacDelete? || a.RbacEdit?
    ensures Inv(Step(s, server, a))
  {
    RbacChangeInv(s, Step(s, server, a), "", KindClusterRole);
  }

  /** Only the pass of `n` moves, to a place whose demands are met. */
  lemma MoveInv(s: State, n: string, p: Pass)
    requires Inv(s) && PassInv(s, n, p)
    ensures Inv(Goto(s, n, p))
  {
    forall m | m in Goto(s, n, p).passes ensures PassInv(Goto(s, n, p), m, Goto(s, n, p).passes[m]) {
      if m != n {
        assert PassInv(s, m, s.passes[m]);
      }
    }
    forall uid | Guarded(s, uid) ensures Guarded(Goto(s, n, p), uid) {
    }
  }

  lemma LeaveInv(s: State, n: string)
    requires Inv(s)
    ensures Inv(Leave(s, n))
  {
    forall uid | Guarded(s, uid) ensures Guarded(Leave(s, n), uid) {
    }
    forall m | m in Leave(s, n).passes ensures PassInv(Leave(s, n), m, Leave(s, n).passes[m]) {
      assert PassInv(s, m, s.passes[m]);
    }
  }

  lemma BeginPassInv(s: State, n: string)
    requires Inv(s)
    ensures Inv(BeginPass(s, n))
  {
    if n !in s.passes && n in s.crs {
      var obj := s.crs[n];
      if obj.deleting && FINALIZER in obj.finalizers {
        MoveInv(s, n, CleanGet(obj, 0));
      } else if !obj.deleting && FINALIZER !in obj.finalizers {
        MoveInv(s, n, AddFinalizer(obj));
      } else if !obj.deleting {
        MoveInv(s, n, StartGet);
      }
    }
  }

  /** The write of a pass whose Vector carries the finalizer: the object it may create is guarded. */
  lemma WriteInv(s: State, server: Server, n: string, attempt: Attempt, kind: Kind)
    requires Inv(s) && KeepsKind(server) && n in s.passes
    requires kind == KindClusterRole || kind == KindClusterRoleBinding
    requires s.passes[n].RoleWrite? || s.passes[n].BindingWrite?
    requires !attempt.Finished? ==> KeyOf(attempt.obj) == RbacKey(kind, s.passes[n].obj.uid)
    ensures Inv(s.(rbac := Finish(s.rbac, server, attempt).0))
  {
    var uid := s.passes[n].obj.uid;
    FinishValid(s.rbac, server, attempt);
    FinishFrame(s.rbac, server, attempt);
    assert PassInv(s, n, s.passes[n]) && Holds(s, n, uid);
    forall m | m in s.passes && (s.passes[m].CleanGet? || s.passes[m].CleanDelete? || s.passes[m].RemoveFinalizer?)
      ensures s.passes[m].obj.uid != uid
    {
      assert PassInv(s, m, s.passes[m]);
    }
    assert Guarded(s, uid);
    RbacChangeInv(s, s.(rbac := Finish(s.rbac, server, attempt).0), uid, kind);
  }

  lemma EnsureGetInv(s: State, server: Server, n: string, proceed: bool)
    requires Inv(s) && n in s.passes
    requires s.passes[n].RoleGet? || s.passes[n].BindingGet?
    ensures Inv(Continue(s, server, n, proceed))
  {
    var obj := s.passes[n].obj;
    assert PassInv(s, n, s.passes[n]);
    if s.passes[n].RoleGet? {
      BeginJustified(s.rbac, RoleCall(obj.uid));
      MoveInv(s, n, RoleWrite(obj, Begin(s.rbac, RoleCall(obj.uid))));
    } else {
      BeginJustified(s.rbac, BindingCall(obj.uid));
      MoveInv(s, n, BindingWrite(obj, Begin(s.rbac, BindingCall(obj.uid))));
    }
  }

  lemma EnsureWriteInv(s: State, server: Server, n: string, proceed: bool)
    requires Inv(s) && KeepsKind(server) && n in s.passes
    requires s.passes[n].RoleWrite? || s.passes[n].BindingWrite?
    ensures Inv(Continue(s, server, n, proceed))
  {
    var obj, attempt := s.passes[n].obj, s.passes[n].attempt;
    assert PassInv(s, n, s.passes[n]);
    WriteInv(s, server, n, attempt, if s.passes[n].RoleWrite? then KindClusterRole else KindClusterRoleBinding);
    var t := s.(rbac := Finish(s.rbac, server, attempt).0);
    LeaveInv(t, n);
    MoveInv(t, n, if s.passes[n].RoleWrite? then BindingGet(obj) else Workload(obj));
  }

  /** A deletion that goes through leaves the object gone or going, and revives nothing. */
  lemma DeletionFrame(rbac: Store, k: Key, uid: Option<nat>)
    requires Valid(rbac)
    ensures var (t, error) := DeleteFrom(rbac, k, uid);
      && Valid(t) && (error != Some(Conflict) ==> !Live(t, k)) && forall x :: Live(t, x) ==> Live(rbac, x)
  {
  }

  lemma CleanGetInv(s: State, server: Server, n: string, proceed: bool)
    requires Inv(s) && n in s.passes && s.passes[n].CleanGet?
    ensures Inv(Continue(s, server, n, proceed))
  {
    var obj, index := s.passes[n].obj, s.passes[n].index;
    assert PassInv(s, n, s.passes[n]);
    LeaveInv(s, n);
    var k := CleanupKey(index, obj.uid);
    if k !in s.rbac.objects {
      MoveInv(s, n, AfterClean(obj, index));
    } else if OwnerUid(s.rbac.objects[k]) == obj.uid {
      MoveInv(s, n, CleanDelete(obj, index, s.rbac.objects[k].meta.incarnation));
    }
  }

  lemma CleanDeleteInv(s: State, server: Server, n: string, proceed: bool)
    requires Inv(s) && n in s.passes && s.passes[n].CleanDelete?
    ensures Inv(Continue(s, server, n, proceed))
  {
    var obj, index, incarnation := s.passes[n].obj, s.passes[n].index, s.passes[n].incarnation;
    assert PassInv(s, n, s.passes[n]);
    LeaveInv(s, n);
    var k := CleanupKey(index, obj.uid);
    DeletionFrame(s.rbac, k, Some(incarnation));
    var (rbac, error) := DeleteFrom(s.rbac, k, Some(incarnation));
    hide DeleteFrom;
    if error != Some(Conflict) {
      RbacChangeInv(s, s.(rbac := rbac), "", KindClusterRole);
      CleanedPass(s, rbac, n, obj, index);
      MoveInv(s.(rbac := rbac), n, AfterClean(obj, index));
    }
  }

  lemma CleanedPass(s: State, rbac: Store, n: string, obj: CR, index: nat)
    requires Holds(s, n, obj.uid) && !Live(rbac, CleanupKey(index, obj.uid)) && forall x :: Live(rbac, x) ==> Live(s.rbac, x)
    requires index != 0 ==> !Live(s.rbac, CleanupKey(0, obj.uid))
    ensures PassInv(s.(rbac := rbac), n, AfterClean(obj, index))
  {
    assert index != 0 ==> CleanupKey(index, obj.uid) == CleanupKey(1, obj.uid);
  }

  lemma FinalizerPassInv(s: State, server: Server, n: string, proceed: bool)
    requires Inv(s) && n in s.passes
    requires s.passes[n].AddFinalizer? || s.passes[n].RemoveFinalizer?
    ensures Inv(Continue(s, server, n, proceed))
  {
    var p := s.passes[n];
    assert PassInv(s, n, p);
    LeaveInv(s, n);
    if p.AddFinalizer? {
      var updated := UpdateFinalizers(s, n, p.obj, p.obj.finalizers + {FINALIZER});
      if updated.Some? {
        EditKeepsInv(s, updated.value, n);
        MoveInv(updated.value, n, StartGet);
      }
    } else {
      var updated := UpdateFinalizers(s, n, p.obj, p.obj.finalizers - {FINALIZER});
      if updated.Some? {
        ReleaseInv(s, n);
      }
    }
  }

  /** Taking the finalizer off a Vector whose objects are gone. */
  lemma ReleaseInv(s: State, n: string)
    requires Inv(s) && n in s.passes && s.passes[n].RemoveFinalizer?
    requires n in s.crs && s.crs[n].version == s.passes[n].obj.version
    ensures var obj := s.passes[n].obj;
      Inv(Leave(UpdateFinalizers(s, n, obj, obj.finalizers - {FINALIZER}).value, n))
  {
    var obj := s.passes[n].obj;
    var t := Leave(UpdateFinalizers(s, n, obj, obj.finalizers - {FINALIZER}).value, n);
    assert PassInv(s, n, s.passes[n]);
    assert s.crs[n].uid == obj.uid;
    forall uid | Live(t.rbac, RbacKey(KindClusterRole, uid)) || Live(t.rbac, RbacKey(KindClusterRoleBinding, uid))
      ensures Guarded(t, uid)
    {
      var m :| m in s.crs && s.crs[m].uid == uid && FINALIZER in s.crs[m].finalizers;
      assert CleanupKey(0, uid) == RbacKey(KindClusterRoleBinding, uid) && CleanupKey(1, uid) == RbacKey(KindClusterRole, uid);
      assert m != n;
      assert Holds(t, m, uid);
    }
    forall m | m in t.passes ensures PassInv(t, m, t.passes[m]) {
      assert PassInv(s, m, s.passes[m]);
    }
  }

  lemma StepInv(s: State, server: Server, a: Action)
    requires Inv(s) && KeepsKind(server)
    ensures Inv(Step(s, server, a))
  {
    match a
    case Start(n) => BeginPassInv(s, n);
    case Crash(n) => LeaveInv(s, n);
    case UserCreate(_, _, _) => UserActionInv(s, server, a);
    case UserDelete(_) => UserActionInv(s, server, a);
    case OtherEdit(_, _) => UserActionInv(s, server, a);
    case RbacDelete(_) => RbacActionInv(s, server, a);
    case RbacEdit(_) => RbacActionInv(s, server, a);
    case Next(n, proceed) =>
      if n in s.passes {
        var p := s.passes[n];
        assert PassInv(s, n, p);
        if p.AddFinalizer? || p.RemoveFinalizer? {
          FinalizerPassInv(s, server, n, proceed);
        } else if p.CleanGet? {
          CleanGetInv(s, server, n, proceed);
        } else if p.CleanDelete? {
          CleanDeleteInv(s, server, n, proceed);
        } else if p.StartGet? || p.Gates? || p.Workload? {
          LeaveInv(s, n);
          if p.StartGet? && !s.crs[n].deleting {
            MoveInv(s, n, Gates(s.crs[n]));
          }
          if p.Gates? {
            MoveInv(s, n, RoleGet(p.obj));
          }
        } else if p.RoleGet? || p.BindingGet? {
          EnsureGetInv(s, server, n, proceed);
        } else {
          EnsureWriteInv(s, server, n, proceed);
        }
      }
  }

  lemma {:induction false} ExecInv(s: State, server: Server, run: seq<Action>)
    requires Inv(s) && KeepsKind(server)
    ensures Inv(Exec(s, server, run))
  {
    if run != [] {
      ExecInv(s, server, run[..|run| - 1]);
      StepInv(Exec(s, server, run[..|run| - 1]), server, run[|run| - 1]);
    }
  }

  // ---- what follows for every run ----

  ghost predicate Fresh(s: State) {
    && Valid(s.rbac) && CRsOk(s) && s.passes == map[]
    && forall uid :: RbacKey(KindClusterRole, uid) !in s.rbac.objects && RbacKey(KindClusterRoleBinding, uid) !in s.rbac.objects
  }

  /** The object waits for a finalizer that somebody else put on it. */
  predicate Held(rbac: Store, k: Key) {
    k in rbac.objects && rbac.objects[k].meta.deleting && rbac.objects[k].meta.finalizers != {}
  }

  /**
   In every run of passes, crashes, users and other clients, a cluster role or binding
   named by a Vector's UID exists only while that Vector exists with the finalizer, or
   while somebody else's finalizer delays the deletion that was asked for.
   */
  lemma RbacAlwaysGuarded(start: State, server: Server, run: seq<Action>, uid: string)
    requires Fresh(start) && KeepsKind(server)
    ensures var s := Exec(start, server, run);
      forall kind :: kind in {KindClusterRole, KindClusterRoleBinding} && RbacKey(kind, uid) in s.rbac.objects ==>
        Guarded(s, uid) || Held(s.rbac, RbacKey(kind, uid))
  {
    ExecInv(start, server, run);
  }

  /** A UID stays with its Vector; a new one has not been seen before. */
  lemma StepKeepsIdentity(s: State, server: Server, a: Action, m: string)
    requires m in Step(s, server, a).crs
    ensures KeepsIdentity(s, Step(s, server, a), m)
  {
  }

  predicate KeepsIdentity(s: State, t: State, m: string) {
    m in t.crs ==> (m in s.crs && s.crs[m].uid == t.crs[m].uid) || t.crs[m].uid !in s.used
  }

  lemma NobodyElseGuards(s: State, t: State, n: string, uid: string)
    requires Inv(s) && Inv(t) && forall m :: m in t.crs ==> KeepsIdentity(s, t, m)
    requires Holds(s, n, uid) && !Holds(t, n, uid)
    ensures !Live(t.rbac, RbacKey(KindClusterRole, uid)) && !Live(t.rbac, RbacKey(KindClusterRoleBinding, uid))
  {
  }

  /**
   Whenever a step takes the finalizer off a Vector, or the Vector away, nothing named by
   its UID is left but what somebody else's finalizer holds.
   */
  lemma ReleasedVectorLeavesNothing(start: State, server: Server, run: seq<Action>, a: Action, n: string)
    requires Fresh(start) && KeepsKind(server)
    ensures var s := Exec(start, server, run);
      var t := Step(s, server, a);
      n in s.crs && Holds(s, n, s.crs[n].uid) && !Holds(t, n, s.crs[n].uid) ==>
        forall kind :: kind in {KindClusterRole, KindClusterRoleBinding} && RbacKey(kind, s.crs[n].uid) in t.rbac.objects ==>
          Held(t.rbac, RbacKey(kind, s.crs[n].uid))
  {
    var s := Exec(start, server, run);
    ExecInv(start, server, run);
    StepInv(s, server, a);
    var t := Step(s, server, a);
    forall m | m in t.crs ensures KeepsIdentity(s, t, m) {
      StepKeepsIdentity(s, server, a, m);
    }
    assert Valid(t.rbac);
    hide Step, Exec;
    if n in s.crs && Holds(s, n, s.crs[n].uid) && !Holds(t, n, s.crs[n].uid) {
      NobodyElseGuards(s, t, n, s.crs[n].uid);
    }
  }

  // ---- objects of another owner under the same name ----

  /** A write or deletion that was decided on and may still hit `o`. */
  predicate Aims(p: Pass, k: Key, o: Object) {
    match p
    case RoleWrite(_, attempt) =>
      attempt.WillUpdate? && KeyOf(attempt.obj) == k && attempt.obj.meta.version == o.meta.version
    case BindingWrite(_, attempt) =>
      attempt.WillUpdate? && KeyOf(attempt.obj) == k && attempt.obj.meta.version == o.meta.version
    case CleanDelete(obj, index, incarnation) => CleanupKey(index, obj.uid) == k && incarnation == o.meta.incarnation
    case _ => false
  }

  /** `o` has the name for this UID but carries another owner's, and no pass is about to touch it. */
  ghost predicate Foreigner(s: State, kind: Kind, uid: string, o: Object) {
    var k := RbacKey(kind, uid);
    && uid != "" && (kind == KindClusterRole || kind == KindClusterRoleBinding)
    && k in s.rbac.objects && s.rbac.objects[k] == o && OwnerUid(o) != uid
    && forall n :: n in s.passes ==> !Aims(s.passes[n], k, o)
  }

  lemma MovedForeigner(s: State, t: State, n: string, kind: Kind, uid: string, o: Object)
    requires Foreigner(s, kind, uid, o)
    requires RbacKey(kind, uid) in t.rbac.objects && t.rbac.objects[RbacKey(kind, uid)] == o
    requires forall m :: m in t.passes && m != n ==> m in s.passes && t.passes[m] == s.passes[m]
    requires n in t.passes ==> !Aims(t.passes[n], RbacKey(kind, uid), o)
    ensures Foreigner(t, kind, uid, o)
  {
  }

  /** The ownership check of the write protocol: the call ends before it writes. */
  lemma EnsureSpares(s: Store, uid: string, mine: string, role: bool, kind: Kind, o: Object)
    requires Valid(s) && mine != "" && RbacKey(kind, mine) in s.objects && s.objects[RbacKey(kind, mine)] == o
    requires OwnerUid(o) != mine
    ensures var a := Begin(s, if role then RoleCall(uid) else BindingCall(uid));
      !a.Finished? ==> KeyOf(a.obj) != RbacKey(kind, mine)
  {
    var call := if role then RoleCall(uid) else BindingCall(uid);
    BeginJustified(s, call);
    if KeyOf(call.desired) == RbacKey(kind, mine) {
      RbacNameInjective(uid, mine);
    }
  }

  lemma WriteSpares(s: Store, server: Server, a: Attempt, k: Key, o: Object)
    requires k in s.objects && s.objects[k] == o
    requires a.WillUpdate? && KeyOf(a.obj) == k ==> a.obj.meta.version != o.meta.version
    ensures k in Finish(s, server, a).0.objects && Finish(s, server, a).0.objects[k] == o
  {
  }

  lemma EnsureGetSpares(s: State, server: Server, n: string, proceed: bool, kind: Kind, uid: string, o: Object)
    requires Valid(s.rbac) && Foreigner(s, kind, uid, o) && n in s.passes
    requires s.passes[n].RoleGet? || s.passes[n].BindingGet?
    ensures Foreigner(Continue(s, server, n, proceed), kind, uid, o)
  {
    var t := Continue(s, server, n, proceed);
    EnsureSpares(s.rbac, s.passes[n].obj.uid, uid, s.passes[n].RoleGet?, kind, o);
    hide Begin, RoleCall, BindingCall, Valid;
    MovedForeigner(s, t, n, kind, uid, o);
  }

  lemma EnsureWriteSpares(s: State, server: Server, n: string, proceed: bool, kind: Kind, uid: string, o: Object)
    requires Foreigner(s, kind, uid, o) && n in s.passes && (s.passes[n].RoleWrite? || s.passes[n].BindingWrite?)
    ensures Foreigner(Continue(s, server, n, proceed), kind, uid, o)
  {
    var t := Continue(s, server, n, proceed);
    assert !Aims(s.passes[n], RbacKey(kind, uid), o);
    WriteSpares(s.rbac, server, s.passes[n].attempt, RbacKey(kind, uid), o);
    hide Finish;
    MovedForeigner(s, t, n, kind, uid, o);
  }

  lemma CleanSpares(s: State, server: Server, n: string, proceed: bool, kind: Kind, uid: string, o: Object)
    requires Foreigner(s, kind, uid, o) && n in s.passes && (s.passes[n].CleanGet? || s.passes[n].CleanDelete?)
    ensures Foreigner(Continue(s, server, n, proceed), kind, uid, o)
  {
    var p, t := s.passes[n], Continue(s, server, n, proceed);
    assert !Aims(p, RbacKey(kind, uid), o);
    if CleanupKey(p.index, p.obj.uid) == RbacKey(kind, uid) {
      RbacNameInjective(p.obj.uid, uid);
    }
    MovedForeigner(s, t, n, kind, uid, o);
  }

  lemma NextSpares(s: State, server: Server, n: string, proceed: bool, kind: Kind, uid: string, o: Object)
    requires Valid(s.rbac) && Foreigner(s, kind, uid, o) && n in s.passes
    ensures Foreigner(Continue(s, server, n, proceed), kind, uid, o)
  {
    var p := s.passes[n];
    if p.RoleGet? || p.BindingGet? {
      EnsureGetSpares(s, server, n, proceed, kind, uid, o);
    } else if p.RoleWrite? || p.BindingWrite? {
      EnsureWriteSpares(s, server, n, proceed, kind, uid, o);
    } else if p.CleanGet? || p.CleanDelete? {
      CleanSpares(s, server, n, proceed, kind, uid, o);
    } else {
      hide Valid;
      MovedForeigner(s, Continue(s, server, n, proceed), n, kind, uid, o);
    }
  }

  /** Nobody but the passes touches the object. */
  predicate Leaves(a: Action, k: Key) {
    (a.RbacDelete? ==> a.key != k) && (a.RbacEdit? ==> KeyOf(a.obj) != k)
  }

  lemma StepSpares(s: State, server: Server, a: Action, kind: Kind, uid: string, o: Object)
    requires Valid(s.rbac) && Foreigner(s, kind, uid, o) && Leaves(a, RbacKey(kind, uid))
    ensures Foreigner(Step(s, server, a), kind, uid, o)
  {
    hide Continue;
    match a
    case Next(n, proceed) =>
      if n in s.passes {
        NextSpares(s, server, n, proceed, kind, uid, o);
      } else {
        NoPassNoStep(s, server, n, proceed);
      }
    case Start(n) => MovedForeigner(s, Step(s, server, a), n, kind, uid, o);
    case _ => MovedForeigner(s, Step(s, server, a), "", kind, uid, o);
  }

  lemma NoPassNoStep(s: State, server: Server, n: string, proceed: bool)
    requires n !in s.passes
    ensures Continue(s, server, n, proceed) == s
  {
  }

  /**
   A cluster role or binding that has the name for a Vector's UID but carries another
   owner's UID is neither changed nor deleted by any pass, in any run.
   */
  lemma {:induction false} ForeignObjectUntouched(s: State, server: Server, run: seq<Action>, kind: Kind, uid: string, o: Object)
    requires Inv(s) && KeepsKind(server) && Foreigner(s, kind, uid, o)
    requires forall a :: a in run ==> Leaves(a, RbacKey(kind, uid))
    ensures Foreigner(Exec(s, server, run), kind, uid, o)
  {
    hide Step, Foreigner, Leaves, KeepsKind;
    if run != [] {
      var before := run[..|run| - 1];
      assert run[|run| - 1] in run;
      ForeignObjectUntouched(s, server, before, kind, uid, o);
      ExecInv(s, server, before);
      StepSpares(Exec(s, server, before), server, run[|run| - 1], kind, uid, o);
    }
  }

  // ---- a pass that nobody disturbs, and one that everybody may ----

  function Drive(s: State, server: Server, n: string, calls: nat): State
    decreases calls
  {
    if calls == 0 then s else Drive(Continue(s, server, n, true), server, n, calls - 1)
  }

  /** The objects of this UID carry it, so cleanup may delete them. */
  predicate Owned(s: State, uid: string) {
    forall i | 0 <= i < 2 :: CleanupKey(i, uid) in s.rbac.objects ==> OwnerUid(s.rbac.objects[CleanupKey(i, uid)]) == uid
  }

  /** What the deletion of one object leaves. */
  function Cleaned(rbac: Store, k: Key): Store { DeleteFrom(rbac, k, None).0 }

  lemma CleanOne(s: State, server: Server, n: string, obj: CR, index: nat, calls: nat) returns (left: nat)
    requires index < 2 && n in s.passes && s.passes[n] == CleanGet(obj, index) && Owned(s, obj.uid) && 2 <= calls
    ensures calls - 2 <= left <= calls - 1
    ensures Drive(s, server, n, calls)
         == Drive(Goto(s.(rbac := Cleaned(s.rbac, CleanupKey(index, obj.uid))), n, AfterClean(obj, index)), server, n, left)
  {
    var k := CleanupKey(index, obj.uid);
    var once := Continue(s, server, n, true);
    if k in s.rbac.objects {
      var twice := Continue(once, server, n, true);
      assert Drive(s, server, n, calls) == Drive(once, server, n, calls - 1) == Drive(twice, server, n, calls - 2);
      assert once.passes[n] == CleanDelete(obj, index, s.rbac.objects[k].meta.incarnation);
      assert twice == Goto(s.(rbac := Cleaned(s.rbac, k)), n, AfterClean(obj, index)) by {
        assert once.passes[n := AfterClean(obj, index)] == s.passes[n := AfterClean(obj, index)];
      }
      left := calls - 2;
    } else {
      left := calls - 1;
    }
  }

  lemma DriveIdle(s: State, server: Server, n: string, calls: nat)
    requires n !in s.passes
    ensures Drive(s, server, n, calls) == s
  {
  }

  /**
   Deletion gets through: five calls after the first read the Vector is gone, and of its
   two objects exactly those are left that somebody else's finalizer holds.
   */
  lemma DeletionCompletes(s: State, server: Server, n: string, kind: Kind)
    requires n in s.crs && n !in s.passes && kind in {KindClusterRole, KindClusterRoleBinding}
    requires s.crs[n].deleting && s.crs[n].finalizers == {FINALIZER} && Owned(s, s.crs[n].uid)
    ensures var t := Drive(BeginPass(s, n), server, n, 5);
      var k := RbacKey(kind, s.crs[n].uid);
      && n !in t.crs && n !in t.passes
      && (k in t.rbac.objects <==> k in s.rbac.objects && s.rbac.objects[k].meta.finalizers != {})
  {
    hide OwnerUid;
    var obj := s.crs[n];
    var s0 := BeginPass(s, n);
    var left0 := CleanOne(s0, server, n, obj, 0, 5);
    var s1 := Goto(s0.(rbac := Cleaned(s0.rbac, CleanupKey(0, obj.uid))), n, CleanGet(obj, 1));
    OwnedStays(s, s1, obj.uid);
    var left1 := CleanOne(s1, server, n, obj, 1, left0);
    var s2 := Goto(s1.(rbac := Cleaned(s1.rbac, CleanupKey(1, obj.uid))), n, RemoveFinalizer(obj));
    hide Continue, Drive, CleanupKey;
    ReleaseRuns(s2, server, n, obj, left1);
    CleanupBoth(obj.uid);
  }

  lemma OwnedStays(s: State, t: State, uid: string)
    requires Owned(s, uid) && t.rbac == Cleaned(s.rbac, CleanupKey(0, uid))
    ensures Owned(t, uid)
  {
  }

  lemma CleanupBoth(uid: string)
    ensures CleanupKey(0, uid) == RbacKey(KindClusterRoleBinding, uid) && CleanupKey(1, uid) == RbacKey(KindClusterRole, uid)
  {
  }

  lemma ReleaseRuns(s: State, server: Server, n: string, obj: CR, calls: nat)
    requires n in s.passes && s.passes[n] == RemoveFinalizer(obj) && n in s.crs && s.crs[n] == obj
    requires obj.deleting && obj.finalizers == {FINALIZER} && calls > 0
    ensures Drive(s, server, n, calls) == Leave(s.(crs := s.crs - {n}, clock := s.clock + 1), n)
  {
    assert obj.finalizers - {FINALIZER} == {};
    DriveIdle(Continue(s, server, n, true), server, n, calls - 1);
  }

  /** Everything but the pass of `n`. */
  predicate Foreign(a: Action, n: string) {
    match a
    case Start(m) => m != n
    case Next(m, _) => m != n
    case Crash(m) => m != n
    case _ => true
  }

  function CallsLeft(p: Pass): (calls: nat)
    ensures 1 <= calls <= 8
  {
    match p
    case AddFinalizer(_) => 8
    case StartGet => 7
    case Gates(_) => 6
    case RoleGet(_) => 5
    case RoleWrite(_, _) => 4
    case BindingGet(_) => 3
    case BindingWrite(_, _) => 2
    case Workload(_) => 1
    case CleanGet(_, index) => if index == 0 then 5 else 3
    case CleanDelete(_, index, _) => if index == 0 then 4 else 2
    case RemoveFinalizer(_) => 1
  }

  lemma ForeignStep(s: State, server: Server, a: Action, n: string)
    requires Foreign(a, n)
    ensures (n in Step(s, server, a).passes <==> n in s.passes)
    ensures n in s.passes ==> Step(s, server, a).passes[n] == s.passes[n]
  {
  }

  lemma {:induction false} ForeignKeepsPass(s: State, server: Server, run: seq<Action>, n: string)
    requires forall a :: a in run ==> Foreign(a, n)
    ensures (n in Exec(s, server, run).passes <==> n in s.passes)
    ensures n in s.passes ==> Exec(s, server, run).passes[n] == s.passes[n]
  {
    hide Step, Foreign;
    if run != [] {
      assert run[|run| - 1] in run;
      ForeignKeepsPass(s, server, run[..|run| - 1], n);
      ForeignStep(Exec(s, server, run[..|run| - 1]), server, run[|run| - 1], n);
    }
  }

  lemma {:induction false} ExecAppend(s: State, server: Server, first: seq<Action>, second: seq<Action>)
    ensures Exec(s, server, first + second) == Exec(Exec(s, server, first), server, second)
  {
    if second == [] {
      assert first + second == first;
    } else {
      ExecAppend(s, server, first, second[..|second| - 1]);
      assert (first + second)[..|first + second| - 1] == first + second[..|second| - 1];
    }
  }

  lemma ExecOne(s: State, server: Server, a: Action)
    ensures Exec(s, server, [a]) == Step(s, server, a)
  {
    assert [a][..0] == [];
  }

  lemma CallsRunOut(s: State, server: Server, n: string, proceed: bool)
    requires n in s.passes
    ensures n in Continue(s, server, n, proceed).passes ==>
      CallsLeft(Continue(s, server, n, proceed).passes[n]) < CallsLeft(s.passes[n])
  {
  }

  /**
   From its start on, the actions of a pass of `n` and of everybody else; the pass makes
   its next API call as long as it has not ended, and nothing else.
   */
  ghost predicate PassRun(s: State, server: Server, run: seq<Action>, n: string, proceed: bool) {
    && run != []
    && if |run| == 1 then run[0] == Start(n)
       else
         var before, last := run[..|run| - 1], run[|run| - 1];
         PassRun(s, server, before, n, proceed) && (Foreign(last, n) || (last == Next(n, proceed) && n in Exec(s, server, before).passes))
  }

  /** How many of the actions are the pass's own. */
  function OwnActions(run: seq<Action>, n: string): nat {
    if run == [] then 0
    else OwnActions(run[..|run| - 1], n) + if Foreign(run[|run| - 1], n) then 0 else 1
  }

  lemma {:induction false} PassRunWaits(s: State, server: Server, run: seq<Action>, theirs: seq<Action>, n: string, proceed: bool)
    requires PassRun(s, server, run, n, proceed) && forall a :: a in theirs ==> Foreign(a, n)
    ensures PassRun(s, server, run + theirs, n, proceed) && OwnActions(run + theirs, n) == OwnActions(run, n)
  {
    hide Foreign, Exec;
    if theirs == [] {
      assert run + theirs == run;
    } else {
      assert theirs[|theirs| - 1] in theirs;
      PassRunWaits(s, server, run, theirs[..|theirs| - 1], n, proceed);
      assert (run + theirs)[..|run + theirs| - 1] == run + theirs[..|theirs| - 1];
    }
  }

  /** Everybody else acts, then the pass makes one call. */
  lemma PassRunGoesOn(s: State, server: Server, run: seq<Action>, theirs: seq<Action>, n: string, proceed: bool)
    requires PassRun(s, server, run, n, proceed) && forall a :: a in theirs ==> Foreign(a, n)
    requires n in Exec(s, server, run + theirs).passes
    ensures var own := Next(n, proceed);
      PassRun(s, server, run + (theirs + [own]), n, proceed) && OwnActions(run + (theirs + [own]), n) == OwnActions(run, n) + 1
  {
    PassRunWaits(s, server, run, theirs, n, proceed);
    var own := Next(n, proceed);
    hide Exec;
    assert run + (theirs + [own]) == run + theirs + [own];
    assert (run + theirs + [own])[..|run + theirs|] == run + theirs;
  }

  lemma PassRunStarts(s: State, server: Server, n: string, proceed: bool)
    ensures PassRun(s, server, [Start(n)], n, proceed) && OwnActions([Start(n)], n) == 1
  {
    assert [Start(n)][..0] == [];
  }

  class Controller {
    var state: State

    /** Everybody else, then the next API call of this pass. */
    method Round(n: string, server: Server, theirs: seq<Action>, proceed: bool)
      requires Inv(state) && KeepsKind(server) && n in state.passes
      requires forall a :: a in theirs ==> Foreign(a, n)
      modifies this
      ensures Inv(state) && state == Exec(old(state), server, theirs + [Next(n, proceed)])
      ensures n in state.passes ==> CallsLeft(state.passes[n]) < CallsLeft(old(state.passes[n]))
      ensures n in Exec(old(state), server, theirs).passes
    {
      ForeignKeepsPass(state, server, theirs, n);
      ExecInv(state, server, theirs);
      state := Exec(state, server, theirs);
      StepInv(state, server, Next(n, proceed));
      CallsRunOut(state, server, n, proceed);
      state := Step(state, server, Next(n, proceed));
      assert (theirs + [Next(n, proceed)])[..|theirs|] == theirs;
    }

    /**
     One whole pass, with arbitrary actions of everybody else before each API call but
     the first. The run starts the pass and makes its calls, and no others, until it has
     ended; that takes at most nine. It keeps the invariant.
     */
    method Reconcile(n: string, server: Server, others: nat -> seq<Action>, proceed: bool)
      returns (ghost run: seq<Action>, calls: nat)
      requires Inv(state) && KeepsKind(server) && n !in state.passes
      requires forall i: nat, a :: a in others(i) ==> Foreign(a, n)
      modifies this
      ensures Inv(state) && n !in state.passes && state == Exec(old(state), server, run)
      ensures PassRun(old(state), server, run, n, proceed) && calls == OwnActions(run, n) <= 9
    {
      hide *;
      StepInv(state, server, Start(n));
      ExecOne(state, server, Start(n));
      PassRunStarts(state, server, n, proceed);
      state := Step(state, server, Start(n));
      run, calls := [Start(n)], 1;
      while n in state.passes
        invariant Inv(state) && state == Exec(old(state), server, run)
        invariant PassRun(old(state), server, run, n, proceed) && calls == OwnActions(run, n)
        invariant n in state.passes ==> calls + CallsLeft(state.passes[n]) <= 9
        invariant calls <= 9
        decreases if n in state.passes then CallsLeft(state.passes[n]) + 1 else 0
      {
        var theirs := others(calls);
        ExecAppend(old(state), server, run, theirs + [Next(n, proceed)]);
        ExecAppend(old(state), server, run, theirs);
        Round(n, server, theirs, proceed);
        PassRunGoesOn(old(state), server, run, theirs, n, proceed);
        run, calls := run + (theirs + [Next(n, proceed)]), calls + 1;
      }
    }
  }
}
