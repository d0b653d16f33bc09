/**
 What a pass over a live Vector brings about: the finalizer on the Vector, and both
 cluster objects of its UID with the rules, the role reference and the subject they are
 for.
 */
module VectorCreates {
  import opened Objects
  import opened Store
  import opened Ensure
  import opened Vector

  /** The role lets log metadata be read, the binding gives it to the collector; both carry the UID. */
  predicate IsRight(o: Object, kind: Kind, uid: string) {
    && OWNER_UID in o.meta.annotations && o.meta.annotations[OWNER_UID] == uid
    && match kind
       case KindClusterRole => o.body == ClusterRole(LOG_READER_RULES)
       case KindClusterRoleBinding => o.body == ClusterRoleBinding("supabase-vector-" + uid, COLLECTOR)
       case _ => false
  }

  predicate RightObject(rbac: Store, kind: Kind, uid: string) {
    var k := Key(kind, "", "supabase-vector-" + uid);
    k in rbac.objects && IsRight(rbac.objects[k], kind, uid)
  }

  predicate BothRight(rbac: Store, uid: string) {
    RightObject(rbac, KindClusterRole, uid) && RightObject(rbac, KindClusterRoleBinding, uid)
  }

  /** The name is free, or the object there is this Vector's own; a binding must refer to the role already. */
  predicate Available(rbac: Store, kind: Kind, uid: string) {
    var k := Key(kind, "", "supabase-vector-" + uid);
    k in rbac.objects ==>
      && OwnerUid(rbac.objects[k]) == uid
      && (kind.KindClusterRoleBinding? ==>
            rbac.objects[k].body.ClusterRoleBinding? && rbac.objects[k].body.roleRef == "supabase-vector-" + uid)
  }

  /** Defaulting leaves cluster roles and bindings alone. */
  ghost predicate PlainRbac(server: Server) {
    KeepsKind(server) && forall b: Body :: b.ClusterRole? || b.ClusterRoleBinding? ==> server(b) == b
  }

  function CallOf(kind: Kind, uid: string): Call {
    if kind.KindClusterRole? then RoleCall(uid) else BindingCall(uid)
  }

  // ---- one ensure ----

  /** What the call decides to write is right, and so is what it leaves alone. */
  predicate Planned(rbac: Store, kind: Kind, uid: string, a: Attempt) {
    if a.Finished? then a.result.Failed? || RightObject(rbac, kind, uid)
    else KeyOf(a.obj) == Key(kind, "", "supabase-vector-" + uid) && IsRight(a.obj, kind, uid)
  }

  lemma EnsurePlanned(rbac: Store, kind: Kind, uid: string)
    requires Valid(rbac) && uid != "" && kind in {KindClusterRole, KindClusterRoleBinding}
    ensures var a := Begin(rbac, CallOf(kind, uid));
      && Planned(rbac, kind, uid, a)
      && (a.Finished? && a.result.Failed? <==> !Available(rbac, kind, uid))
      && (a.WillUpdate? ==> Key(kind, "", "supabase-vector-" + uid) in rbac.objects
                            && a.obj.meta.version == rbac.objects[Key(kind, "", "supabase-vector-" + uid)].meta.version)
      && (a.WillCreate? ==> Key(kind, "", "supabase-vector-" + uid) !in rbac.objects)
  {
    var k := Key(kind, "", "supabase-vector-" + uid);
    assert KeyOf(CallOf(kind, uid).desired) == k;
    if k in rbac.objects {
      assert KindOf(rbac.objects[k].body) == kind;
    }
  }

  lemma PlannedWritten(rbac: Store, server: Server, kind: Kind, uid: string, a: Attempt)
    requires PlainRbac(server) && kind in {KindClusterRole, KindClusterRoleBinding}
    requires !a.Finished? && Planned(rbac, kind, uid, a) && !Finish(rbac, server, a).1.Failed?
    ensures RightObject(Finish(rbac, server, a).0, kind, uid)
  {
  }

  /** Undisturbed: the ensure succeeds exactly if the name is available, and then the object is right. */
  lemma EnsuredRight(rbac: Store, server: Server, kind: Kind, uid: string)
    requires Valid(rbac) && PlainRbac(server) && uid != "" && kind in {KindClusterRole, KindClusterRoleBinding}
    ensures var (t, r) := EnsureNow(rbac, server, CallOf(kind, uid));
      && Valid(t) && (r.Failed? <==> !Available(rbac, kind, uid))
      && (!r.Failed? ==> RightObject(t, kind, uid)) && (r.Failed? ==> t == rbac && !RightObject(rbac, kind, uid))
      && forall k :: k != Key(kind, "", "supabase-vector-" + uid) ==>
           (k in t.objects <==> k in rbac.objects) && (k in rbac.objects ==> t.objects[k] == rbac.objects[k])
  {
    EnsurePlanned(rbac, kind, uid);
    var a := Begin(rbac, CallOf(kind, uid));
    FinishValid(rbac, server, a);
    FinishFrame(rbac, server, a);
    hide Begin, CallOf, Valid, IsRight;
    if !a.Finished? {
      assert !Finish(rbac, server, a).1.Failed?;
      PlannedWritten(rbac, server, kind, uid, a);
    } else if a.result.Failed? {
      RightIsAvailable(rbac, kind, uid);
    }
  }

  lemma RightIsAvailable(rbac: Store, kind: Kind, uid: string)
    requires kind in {KindClusterRole, KindClusterRoleBinding}
    ensures RightObject(rbac, kind, uid) ==> Available(rbac, kind, uid)
  {
  }

  // ---- a pass nobody disturbs ----

  lemma DriveOn(s: State, t: State, server: Server, n: string, calls: nat)
    requires calls > 0 && Continue(s, server, n, true) == t
    ensures Vector.Drive(s, server, n, calls) == Vector.Drive(t, server, n, calls - 1)
  {
    hide Continue;
  }

  lemma {:induction false} DriveIdle(s: State, server: Server, n: string, calls: nat)
    requires n !in s.passes
    ensures Vector.Drive(s, server, n, calls) == s
    decreases calls
  {
    if calls > 0 {
      DriveIdle(s, server, n, calls - 1);
    }
  }

  /** The two names are not each other's. */
  lemma KindsApart(rbac: Store, t: Store, uid: string)
    requires forall k :: k != Key(KindClusterRole, "", "supabase-vector-" + uid) ==>
               (k in t.objects <==> k in rbac.objects) && (k in rbac.objects ==> t.objects[k] == rbac.objects[k])
    ensures Available(t, KindClusterRoleBinding, uid) <==> Available(rbac, KindClusterRoleBinding, uid)
    ensures RightObject(t, KindClusterRoleBinding, uid) <==> RightObject(rbac, KindClusterRoleBinding, uid)
  {
  }

  lemma RoleStays(rbac: Store, t: Store, uid: string)
    requires forall k :: k != Key(KindClusterRoleBinding, "", "supabase-vector-" + uid) ==>
               (k in t.objects <==> k in rbac.objects) && (k in rbac.objects ==> t.objects[k] == rbac.objects[k])
    ensures RightObject(t, KindClusterRole, uid) <==> RightObject(rbac, KindClusterRole, uid)
  {
  }

  lemma BindingSteps(s: State, server: Server, n: string, obj: CR)
    requires n in s.passes && s.passes[n] == BindingGet(obj)
    ensures var call := BindingCall(obj.uid);
      var s1 := Continue(s, server, n, true);
      var s2 := Continue(s1, server, n, true);
      var (rbac, r) := EnsureNow(s.rbac, server, call);
      && n in s1.passes && s2.rbac == rbac && s2.crs == s.crs && (n in s2.passes <==> !r.Failed?)
      && (n in s2.passes ==> s2.passes[n] == Workload(obj))
  {
    hide Begin, Finish, BindingCall;
    var s1 := Goto(s, n, BindingWrite(obj, Begin(s.rbac, BindingCall(obj.uid))));
    assert Continue(s, server, n, true) == s1;
  }

  lemma LastStep(s: State, server: Server, n: string, obj: CR)
    requires n in s.passes && s.passes[n] == Workload(obj)
    ensures var t := Continue(s, server, n, true); n !in t.passes && t.crs == s.crs && t.rbac == s.rbac
  {
  }

  /** From the binding on. */
  lemma BindingRuns(s: State, server: Server, n: string, obj: CR)
    requires Valid(s.rbac) && PlainRbac(server) && obj.uid != "" && n in s.passes && s.passes[n] == BindingGet(obj)
    requires RightObject(s.rbac, KindClusterRole, obj.uid)
    ensures var t := Vector.Drive(s, server, n, 3);
      && n !in t.passes && t.crs == s.crs
      && (BothRight(t.rbac, obj.uid) <==> Available(s.rbac, KindClusterRoleBinding, obj.uid))
  {
    EnsuredRight(s.rbac, server, KindClusterRoleBinding, obj.uid);
    RoleStays(s.rbac, EnsureNow(s.rbac, server, BindingCall(obj.uid)).0, obj.uid);
    BindingSteps(s, server, n, obj);
    hide Continue, EnsureNow, BindingCall, RightObject, Available, Valid, PlainRbac;
    var s1 := Continue(s, server, n, true);
    var s2 := Continue(s1, server, n, true);
    DriveOn(s, s1, server, n, 3);
    DriveOn(s1, s2, server, n, 2);
    if n !in s2.passes {
      DriveIdle(s2, server, n, 1);
    } else {
      LastStep(s2, server, n, obj);
      DriveOn(s2, Continue(s2, server, n, true), server, n, 1);
      DriveIdle(Continue(s2, server, n, true), server, n, 0);
    }
  }

  lemma RoleRuns(s: State, server: Server, n: string, obj: CR)
    requires Valid(s.rbac) && PlainRbac(server) && obj.uid != "" && n in s.passes && s.passes[n] == RoleGet(obj)
    ensures var t := Vector.Drive(s, server, n, 5);
      && n !in t.passes && t.crs == s.crs
      && (BothRight(t.rbac, obj.uid) <==>
            Available(s.rbac, KindClusterRole, obj.uid) && Available(s.rbac, KindClusterRoleBinding, obj.uid))
  {
    EnsuredRight(s.rbac, server, KindClusterRole, obj.uid);
    var call := RoleCall(obj.uid);
    var (rbac, r) := EnsureNow(s.rbac, server, call);
    KindsApart(s.rbac, rbac, obj.uid);
    hide Begin, Finish, RoleCall, RightObject, Available, Valid, PlainRbac;
    var s1 := Goto(s, n, RoleWrite(obj, Begin(s.rbac, call)));
    DriveOn(s, s1, server, n, 5);
    var s2 := Continue(s1, server, n, true);
    assert s2.rbac == rbac && s2.crs == s.crs && (n in s2.passes <==> !r.Failed?) && (n in s2.passes ==> s2.passes[n] == BindingGet(obj));
    DriveOn(s1, s2, server, n, 4);
    hide Continue;
    if r.Failed? {
      DriveIdle(s2, server, n, 3);
    } else {
      BindingRuns(s2, server, n, obj);
    }
  }

  lemma FinalizerAdded(s: State, server: Server, n: string)
    requires n in s.crs && n !in s.passes && !s.crs[n].deleting && FINALIZER !in s.crs[n].finalizers
    ensures var t := Continue(BeginPass(s, n), server, n, true);
      && n in t.passes && t.passes[n] == StartGet && t.rbac == s.rbac
      && n in t.crs && t.crs[n].uid == s.crs[n].uid && !t.crs[n].deleting && FINALIZER in t.crs[n].finalizers
  {
  }

  lemma StartRuns(s: State, server: Server, n: string)
    requires Valid(s.rbac) && PlainRbac(server) && n in s.passes && s.passes[n] == StartGet
    requires n in s.crs && !s.crs[n].deleting && s.crs[n].uid != "" && FINALIZER in s.crs[n].finalizers
    ensures var t := Vector.Drive(s, server, n, 7);
      && n !in t.passes && t.crs == s.crs
      && (BothRight(t.rbac, s.crs[n].uid) <==>
            Available(s.rbac, KindClusterRole, s.crs[n].uid) && Available(s.rbac, KindClusterRoleBinding, s.crs[n].uid))
  {
    var obj := s.crs[n];
    DriveOn(s, Goto(s, n, Gates(obj)), server, n, 7);
    DriveOn(Goto(s, n, Gates(obj)), Goto(Goto(s, n, Gates(obj)), n, RoleGet(obj)), server, n, 6);
    hide Continue, Vector.Drive, BothRight, Available;
    RoleRuns(Goto(Goto(s, n, Gates(obj)), n, RoleGet(obj)), server, n, obj);
  }

  /**
   An undisturbed pass over a Vector that is not being deleted, with the gates open, ends
   within eight calls. It leaves the finalizer on the Vector; and it leaves both objects
   right if and only if each name was free or held by the Vector's own object.
   */
  lemma CreationCompletes(s: State, server: Server, n: string)
    requires Valid(s.rbac) && PlainRbac(server) && n in s.crs && n !in s.passes && !s.crs[n].deleting && s.crs[n].uid != ""
    ensures var t := Vector.Drive(BeginPass(s, n), server, n, 8);
      var uid := s.crs[n].uid;
      && n !in t.passes && n in t.crs && t.crs[n].uid == uid && FINALIZER in t.crs[n].finalizers
      && (BothRight(t.rbac, uid) <==>
            Available(s.rbac, KindClusterRole, uid) && Available(s.rbac, KindClusterRoleBinding, uid))
  {
    hide BothRight, Available, PlainRbac, Valid;
    if FINALIZER in s.crs[n].finalizers {
      var s0 := BeginPass(s, n);
      StartRuns(s0, server, n);
      var t := Vector.Drive(s0, server, n, 7);
      hide Vector.Drive;
      DriveSplit(s0, server, n, 7);
    } else {
      FinalizerAdded(s, server, n);
      var t := Continue(BeginPass(s, n), server, n, true);
      DriveOn(BeginPass(s, n), t, server, n, 8);
      hide Continue, Vector.Drive, BeginPass;
      StartRuns(t, server, n);
    }
  }

  /** One call more changes nothing once the pass has ended. */
  lemma {:induction false} DriveSplit(s: State, server: Server, n: string, calls: nat)
    requires n !in Vector.Drive(s, server, n, calls).passes
    ensures Vector.Drive(s, server, n, calls + 1) == Vector.Drive(s, server, n, calls)
    decreases calls
  {
    hide Continue;
    if calls == 0 {
      DriveIdle(s, server, n, 1);
    } else {
      DriveSplit(Continue(s, server, n, true), server, n, calls - 1);
    }
  }

  // ---- every run ----

  /** Some state since the pass of `n` began had the object, and it was right. */
  ghost predicate RightSince(start: State, server: Server, run: seq<Action>, n: string, kind: Kind, uid: string) {
    || RightObject(Exec(start, server, run).rbac, kind, uid)
    || (&& run != [] && !(run[|run| - 1] == Start(n) && n !in Exec(start, server, run[..|run| - 1]).passes)
        && RightSince(start, server, run[..|run| - 1], n, kind, uid))
  }

  /** What holds where the pass stands; `role` and `binding` tell that they have been right since it began. */
  predicate PlaceOk(p: Pass, role: bool, binding: bool) {
    match p
    case RoleWrite(obj, a) =>
      if a.Finished? then a.result.Failed? || role
      else KeyOf(a.obj) == Key(KindClusterRole, "", "supabase-vector-" + obj.uid) && IsRight(a.obj, KindClusterRole, obj.uid)
    case BindingGet(obj) => role
    case BindingWrite(obj, a) =>
      && role
      && if a.Finished? then a.result.Failed? || binding
         else && KeyOf(a.obj) == Key(KindClusterRoleBinding, "", "supabase-vector-" + obj.uid)
              && IsRight(a.obj, KindClusterRoleBinding, obj.uid)
    case Workload(obj) => role && binding
    case _ => true
  }

  /** The pass works for a Vector, and has come to the cluster objects. */
  predicate AtRbac(p: Pass) {
    p.RoleGet? || p.RoleWrite? || p.BindingGet? || p.BindingWrite? || p.Workload?
  }

  ghost predicate RunOk(start: State, server: Server, run: seq<Action>, n: string, p: Pass) {
    AtRbac(p) && p.obj.uid != "" ==>
      PlaceOk(p, RightSince(start, server, run, n, KindClusterRole, p.obj.uid),
              RightSince(start, server, run, n, KindClusterRoleBinding, p.obj.uid))
  }

  /** A call of the pass: it stays with its Vector, and whatever it comes to, the objects have been right. */
  lemma PlaceStep(s: State, server: Server, n: string, proceed: bool, role: bool, binding: bool)
    requires n in s.passes && AtRbac(s.passes[n]) && s.passes[n].obj.uid != "" && PlaceOk(s.passes[n], role, binding)
    requires Valid(s.rbac) && PlainRbac(server)
    requires RightObject(s.rbac, KindClusterRole, s.passes[n].obj.uid) ==> role
    requires RightObject(s.rbac, KindClusterRoleBinding, s.passes[n].obj.uid) ==> binding
    ensures var t := Continue(s, server, n, proceed);
      var uid := s.passes[n].obj.uid;
      n in t.passes ==>
        && AtRbac(t.passes[n]) && t.passes[n].obj.uid == uid
        && PlaceOk(t.passes[n], role || RightObject(t.rbac, KindClusterRole, uid),
                   binding || RightObject(t.rbac, KindClusterRoleBinding, uid))
  {
    var p := s.passes[n];
    match p
    case RoleGet(obj) =>
      EnsurePlanned(s.rbac, KindClusterRole, obj.uid);
      hide Begin, RoleCall, RightObject, IsRight;
    case BindingGet(obj) =>
      EnsurePlanned(s.rbac, KindClusterRoleBinding, obj.uid);
      hide Begin, BindingCall, RightObject, IsRight;
    case RoleWrite(obj, a) =>
      if !a.Finished? && !Finish(s.rbac, server, a).1.Failed? {
        PlannedWritten(s.rbac, server, KindClusterRole, obj.uid, a);
      }
      hide RightObject, IsRight, CreateIn, UpdateIn, PlainRbac, Valid;
    case BindingWrite(obj, a) =>
      if !a.Finished? && !Finish(s.rbac, server, a).1.Failed? {
        PlannedWritten(s.rbac, server, KindClusterRoleBinding, obj.uid, a);
      }
      hide RightObject, IsRight, CreateIn, UpdateIn, PlainRbac, Valid;
    case Workload(obj) =>
  }

  lemma SeenMore(p: Pass, role: bool, binding: bool, role1: bool, binding1: bool)
    requires PlaceOk(p, role, binding) && (role ==> role1) && (binding ==> binding1)
    ensures PlaceOk(p, role1, binding1)
  {
    hide IsRight;
  }

  lemma OneMore(s: State, server: Server, run: seq<Action>, a: Action)
    ensures Exec(s, server, run + [a]) == Step(Exec(s, server, run), server, a) && (run + [a])[..|run|] == run
  {
    assert (run + [a])[..|run|] == run;
  }

  lemma NextRunOk(start: State, server: Server, run: seq<Action>, n: string, proceed: bool)
    requires n in Exec(start, server, run).passes && RunOk(start, server, run, n, Exec(start, server, run).passes[n])
    requires Valid(Exec(start, server, run).rbac) && PlainRbac(server)
    ensures var s := Exec(start, server, run + [Next(n, proceed)]);
      n in s.passes ==> RunOk(start, server, run + [Next(n, proceed)], n, s.passes[n])
  {
    var s, more := Exec(start, server, run), run + [Next(n, proceed)];
    OneMore(start, server, run, Next(n, proceed));
    var p, t := s.passes[n], Continue(s, server, n, proceed);
    hide Exec, PlaceOk, RightObject, Valid, PlainRbac;
    if AtRbac(p) && p.obj.uid != "" {
      var role := RightSince(start, server, run, n, KindClusterRole, p.obj.uid);
      var binding := RightSince(start, server, run, n, KindClusterRoleBinding, p.obj.uid);
      PlaceStep(s, server, n, proceed, role, binding);
      if n in t.passes {
        var role1 := role || RightObject(t.rbac, KindClusterRole, p.obj.uid);
        var binding1 := binding || RightObject(t.rbac, KindClusterRoleBinding, p.obj.uid);
        SeenMore(t.passes[n], role1, binding1, RightSince(start, server, more, n, KindClusterRole, p.obj.uid),
                 RightSince(start, server, more, n, KindClusterRoleBinding, p.obj.uid));
      }
    } else if n in t.passes && AtRbac(t.passes[n]) && t.passes[n].obj.uid != "" {
      FirstPlace(s, server, n, proceed);
      RoleGetOk(t.passes[n].obj, RightSince(start, server, more, n, KindClusterRole, t.passes[n].obj.uid),
                RightSince(start, server, more, n, KindClusterRoleBinding, t.passes[n].obj.uid));
    }
  }

  /** A pass comes to the cluster objects at the read of the role. */
  lemma FirstPlace(s: State, server: Server, n: string, proceed: bool)
    requires n in s.passes && (AtRbac(s.passes[n]) ==> s.passes[n].obj.uid == "")
    requires n in Continue(s, server, n, proceed).passes && AtRbac(Continue(s, server, n, proceed).passes[n])
    requires Continue(s, server, n, proceed).passes[n].obj.uid != ""
    ensures Continue(s, server, n, proceed).passes[n].RoleGet?
  {
    hide Begin, Finish;
  }

  lemma RoleGetOk(obj: CR, role: bool, binding: bool)
    ensures PlaceOk(RoleGet(obj), role, binding)
  {
  }

  lemma OtherRunOk(start: State, server: Server, run: seq<Action>, n: string, a: Action)
    requires var s := Exec(start, server, run); n in s.passes ==> RunOk(start, server, run, n, s.passes[n])
    requires !(a.Next? && a.name == n)
    ensures var s := Exec(start, server, run + [a]);
      n in s.passes ==> RunOk(start, server, run + [a], n, s.passes[n])
  {
    var s, more := Exec(start, server, run), run + [a];
    OneMore(start, server, run, a);
    var t := Step(s, server, a);
    if Vector.Foreign(a, n) {
      ForeignStep(s, server, a, n);
    }
    assert n in t.passes ==> (n in s.passes && t.passes[n] == s.passes[n]) || !AtRbac(t.passes[n]) by {
      hide Continue;
    }
    assert n in t.passes && n in s.passes && a == Start(n) ==> t.passes[n] == s.passes[n];
    hide Exec, Step, PlaceOk, RightObject;
    if n in t.passes && n in s.passes && t.passes[n] == s.passes[n] && AtRbac(s.passes[n]) && s.passes[n].obj.uid != "" {
      var uid := s.passes[n].obj.uid;
      SeenMore(s.passes[n], RightSince(start, server, run, n, KindClusterRole, uid),
               RightSince(start, server, run, n, KindClusterRoleBinding, uid),
               RightSince(start, server, more, n, KindClusterRole, uid),
               RightSince(start, server, more, n, KindClusterRoleBinding, uid));
    }
  }

  lemma {:induction false} ExecRunOk(start: State, server: Server, run: seq<Action>, n: string)
    requires Vector.Fresh(start) && PlainRbac(server)
    ensures var s := Exec(start, server, run);
      Valid(s.rbac) && (n in s.passes ==> RunOk(start, server, run, n, s.passes[n]))
  {
    if run != [] {
      var before, a := run[..|run| - 1], run[|run| - 1];
      ExecRunOk(start, server, before, n);
      assert run == before + [a];
      OneMore(start, server, before, a);
      RbacStaysValid(Exec(start, server, before), server, a);
      hide Exec, Step, RunOk, PlainRbac, Valid;
      if a.Next? && a.name == n && n in Exec(start, server, before).passes {
        NextRunOk(start, server, before, n, a.proceed);
      } else if a.Next? && a.name == n {
        IdleNext(Exec(start, server, before), server, n, a.proceed);
      } else {
        OtherRunOk(start, server, before, n, a);
      }
    }
  }

  lemma IdleNext(s: State, server: Server, n: string, proceed: bool)
    requires n !in s.passes
    ensures Step(s, server, Next(n, proceed)) == s
  {
  }

  lemma RbacStaysValid(s: State, server: Server, a: Action)
    requires Valid(s.rbac) && PlainRbac(server)
    ensures Valid(Step(s, server, a).rbac)
  {
    if a.Next? && a.name in s.passes && (s.passes[a.name].RoleWrite? || s.passes[a.name].BindingWrite?) {
      FinishValid(s.rbac, server, s.passes[a.name].attempt);
      hide Finish, Valid;
    } else if a.Next? {
      hide Begin, Finish;
    } else {
      hide Continue;
    }
  }

  /**
   In every run, whatever crashes, fails or is rewritten meanwhile: a pass that has come to
   the workload has had both cluster objects there, right, since it began.
   */
  lemma WorkloadAfterBoth(start: State, server: Server, run: seq<Action>, n: string)
    requires Vector.Fresh(start) && PlainRbac(server)
    requires var s := Exec(start, server, run); n in s.passes && s.passes[n].Workload? && s.passes[n].obj.uid != ""
    ensures var uid := Exec(start, server, run).passes[n].obj.uid;
      RightSince(start, server, run, n, KindClusterRole, uid) && RightSince(start, server, run, n, KindClusterRoleBinding, uid)
  {
    ExecRunOk(start, server, run, n);
    hide Exec, RightSince, Vector.Fresh, Valid, PlainRbac;
  }
}
