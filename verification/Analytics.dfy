/**
 The Analytics controller: one running Analytics per database, across the Projects
 that share it. Before it writes, a pass lists all Analytics of the namespace and looks
 up the Project of each; every lookup is a separate step. Projects may appear at any
 time, but are neither deleted nor pointed at another database.
 */
module Analytics {
  import opened Objects

  datatype CR = CR(uid: nat, project: string, deleting: bool)

  datatype Item = Item(name: string, cr: CR)

  datatype Pass =
    | GetProject(obj: CR)
    | ListSame(obj: CR, db: DatabaseRef)
    | ListAll(obj: CR, db: DatabaseRef)
    | Check(obj: CR, db: DatabaseRef, rest: seq<Item>)
    | Conflicting(obj: CR)
    | Past(obj: CR, db: DatabaseRef)

  datatype State = State(crs: map<string, CR>, projects: map<string, DatabaseRef>, workloads: map<string, nat>,
                         next: nat, passes: map<string, Pass>)

  function Goto(s: State, n: string, p: Pass): State { s.(passes := s.passes[n := p]) }

  function Leave(s: State, n: string): State { s.(passes := s.passes - {n}) }

  /** A list answer: every Analytics once, in whatever order. */
  ghost predicate Lists(s: State, items: seq<Item>) {
    && (forall n :: n in s.crs ==> Item(n, s.crs[n]) in items)
    && (forall i :: i in items ==> i.name in s.crs && i.cr == s.crs[i.name])
  }

  function BeginPass(s: State, n: string): State {
    if n in s.passes || n !in s.crs || s.crs[n].deleting then s else Goto(s, n, GetProject(s.crs[n]))
  }

  /** One look at another Analytics: itself, a deleting one or one without a Project is skipped. */
  predicate Conflicts(s: State, n: string, db: DatabaseRef, other: Item) {
    other.name != n && !other.cr.deleting && other.cr.project in s.projects && s.projects[other.cr.project] == db
  }

  /** `proceed` is how the remaining gates turn out, `items` the answer if this step lists. */
  function Continue(s: State, n: string, proceed: bool, items: seq<Item>): State {
    if n !in s.passes then s
    else
      match s.passes[n]
      case GetProject(obj) =>
        if obj.project !in s.projects then Leave(s, n) else Goto(s, n, ListSame(obj, s.projects[obj.project]))
      case ListSame(obj, db) =>
        if |set m | m in s.crs && s.crs[m].project == obj.project| > 1 then Leave(s, n) else Goto(s, n, ListAll(obj, db))
      case ListAll(obj, db) => Goto(s, n, Check(obj, db, items))
      case Check(obj, db, rest) =>
        if rest == [] then Goto(s, n, Past(obj, db))
        else if Conflicts(s, n, db, rest[0]) then Goto(s, n, Conflicting(obj))
        else Goto(s, n, Check(obj, db, rest[1..]))
      case Conflicting(obj) =>
        if n in s.workloads && s.workloads[n] == obj.uid then Leave(s.(workloads := s.workloads - {n}), n)
        else Leave(s, n)
      case Past(obj, db) =>
        if !proceed || (n in s.workloads && s.workloads[n] != obj.uid) then Leave(s, n)
        else Leave(s.(workloads := s.workloads[n := obj.uid]), n)
  }

  datatype Action =
    | Start(name: string)
    | Next(name: string, proceed: bool, items: seq<Item>)
    | Crash(name: string)
    | Create(name: string, project: string)
    | MarkDeleted(name: string)
    | Remove(name: string)
    | CreateProject(project: string, db: DatabaseRef)
    | WorkloadGone(name: string)

  function Step(s: State, a: Action): State {
    match a
    case Start(n) => BeginPass(s, n)
    case Next(n, proceed, items) => Continue(s, n, proceed, items)
    case Crash(n) => Leave(s, n)
    case Create(n, project) =>
      if n in s.crs then s else s.(crs := s.crs[n := CR(s.next, project, false)], next := s.next + 1)
    case MarkDeleted(n) => if n in s.crs then s.(crs := s.crs[n := s.crs[n].(deleting := true)]) else s
    case Remove(n) => s.(crs := s.crs - {n})
    case CreateProject(p, db) => if p in s.projects then s else s.(projects := s.projects[p := db])
    case WorkloadGone(n) => s.(workloads := s.workloads - {n})
  }

  function Exec(s: State, run: seq<Action>): State {
    if run == [] then s else Step(Exec(s, run[..|run| - 1]), run[|run| - 1])
  }

  /** The server's answers are complete and current at the step that asks. */
  ghost predicate Answered(s: State, a: Action) {
    a.Next? && a.name in s.passes && s.passes[a.name].ListAll? ==> Lists(s, a.items)
  }

  ghost predicate AnsweredRun(s: State, run: seq<Action>) {
    run != [] ==>
      AnsweredRun(s, run[..|run| - 1]) && Answered(Exec(s, run[..|run| - 1]), run[|run| - 1])
  }

  // ---- the invariant ----

  /** The Analytics has a workload, or a pass that passed the check and may write one. */
  ghost predicate Marked(s: State, uid: nat) {
    || (exists n :: n in s.workloads && s.workloads[n] == uid)
    || (exists n :: n in s.passes && s.passes[n].Past? && s.passes[n].obj.uid == uid)
  }

  /** Two Analytics, neither being deleted, whose Projects point at one database. */
  predicate Rivals(s: State, m: string, n: string) {
    && m != n && m in s.crs && n in s.crs && !s.crs[m].deleting && !s.crs[n].deleting
    && s.crs[m].project in s.projects && s.crs[n].project in s.projects
    && s.projects[s.crs[m].project] == s.projects[s.crs[n].project]
  }

  /** `n` is in its check, with the object that is there now. */
  predicate Checking(s: State, n: string) {
    n in s.crs && n in s.passes && s.passes[n].Check? && s.passes[n].obj.uid == s.crs[n].uid
  }

  /** The check of `n` still has to look at `m`. */
  predicate StillToCheck(s: State, n: string, m: string) {
    && Checking(s, n) && m in s.crs
    && exists i | 0 <= i < |s.passes[n].rest| ::
         var item := s.passes[n].rest[i];
         item.name == m && item.cr.uid == s.crs[m].uid && item.cr.project == s.crs[m].project && !item.cr.deleting
  }

  ghost predicate Identities(s: State) {
    && (forall n :: n in s.crs ==> s.crs[n].uid < s.next)
    && (forall n :: n in s.workloads ==> s.workloads[n] < s.next)
    && (forall m, n :: m in s.crs && n in s.crs && m != n ==> s.crs[m].uid != s.crs[n].uid)
    && (forall n :: n in s.passes ==> s.passes[n].obj.uid < s.next)
    && (forall n, m :: n in s.passes && m in s.crs && s.crs[m].uid == s.passes[n].obj.uid ==>
          m == n && s.crs[m].project == s.passes[n].obj.project)
  }

  /** Whoever is in its check or marked has a Project, and a check holds that Project's database. */
  ghost predicate HasProject(s: State) {
    && (forall n :: n in s.crs && Marked(s, s.crs[n].uid) ==> s.crs[n].project in s.projects)
    && (forall n :: n in s.passes && !s.passes[n].GetProject? && !s.passes[n].Conflicting? ==>
          s.passes[n].obj.project in s.projects && s.projects[s.passes[n].obj.project] == s.passes[n].db)
  }

  ghost predicate Exclusive(s: State) {
    forall m, n :: Rivals(s, m, n) ==> !(Marked(s, s.crs[m].uid) && Marked(s, s.crs[n].uid))
  }

  /** A check will still meet every marked rival, and of two rival checks one will meet the other. */
  ghost predicate WillMeet(s: State, m: string, n: string) {
    Rivals(s, m, n) ==>
      && !(Marked(s, s.crs[m].uid) && Marked(s, s.crs[n].uid))
      && (Checking(s, m) && Marked(s, s.crs[n].uid) ==> StillToCheck(s, m, n))
      && (Checking(s, m) && Checking(s, n) ==> StillToCheck(s, m, n) || StillToCheck(s, n, m))
  }

  ghost predicate AllMeet(s: State) {
    forall m, n :: WillMeet(s, m, n)
  }

  ghost predicate Inv(s: State) {
    Identities(s) && HasProject(s) && AllMeet(s)
  }

  // ---- steps that neither list nor pass the check ----

  predicate EarlierPass(s: State, t: State, n: string)
    requires n in t.passes
  {
    var p := t.passes[n];
    || (n in s.passes && p == s.passes[n])
    || (p.GetProject? && n in s.crs && p.obj == s.crs[n])
    || (p.Conflicting? && n in s.passes && p.obj == s.passes[n].obj)
    || (p.ListSame? && n in s.passes && p.obj == s.passes[n].obj && p.obj.project in s.projects
        && s.projects[p.obj.project] == p.db)
    || (p.ListAll? && n in s.passes && s.passes[n].ListSame? && p.obj == s.passes[n].obj && p.db == s.passes[n].db)
  }

  /** `t` has no Analytics, mark or check that `s` has not. */
  ghost predicate Shrinks(s: State, t: State) {
    && t.next == s.next
    && (forall n :: n in t.crs ==> n in s.crs && t.crs[n].uid == s.crs[n].uid && t.crs[n].project == s.crs[n].project)
    && (forall n :: n in t.crs && s.crs[n].deleting ==> t.crs[n].deleting)
    && (forall p :: p in s.projects ==> p in t.projects && t.projects[p] == s.projects[p])
    && (forall n :: n in t.workloads ==> t.workloads[n] < t.next && Marked(s, t.workloads[n]))
    && (forall n :: n in t.passes ==> EarlierPass(s, t, n))
  }

  lemma ShrinkMarks(s: State, t: State)
    requires Shrinks(s, t)
    ensures forall uid :: Marked(t, uid) ==> Marked(s, uid)
  {
  }

  lemma ShrinkIdentities(s: State, t: State)
    requires Shrinks(s, t) && Identities(s) && HasProject(s)
    ensures Identities(t) && HasProject(t)
  {
    ShrinkMarks(s, t);
    forall n | n in t.passes ensures t.passes[n].obj.uid < t.next {
      assert EarlierPass(s, t, n);
    }
    forall n, m | n in t.passes && m in t.crs && t.crs[m].uid == t.passes[n].obj.uid
      ensures m == n && t.crs[m].project == t.passes[n].obj.project
    {
      assert EarlierPass(s, t, n);
    }
    forall n | n in t.passes && !t.passes[n].GetProject? && !t.passes[n].Conflicting?
      ensures t.passes[n].obj.project in t.projects && t.projects[t.passes[n].obj.project] == t.passes[n].db
    {
      assert EarlierPass(s, t, n);
    }
  }

  /** Rivals that are marked or checking were rivals before: their Projects are not the new one. */
  lemma ShrinkRivals(s: State, t: State, m: string, n: string)
    requires Shrinks(s, t) && HasProject(s) && Identities(s)
    requires Rivals(t, m, n)
    requires Marked(t, t.crs[m].uid) || Checking(t, m)
    requires Marked(t, t.crs[n].uid) || Checking(t, n)
    ensures Rivals(s, m, n)
  {
    ShrinkMarks(s, t);
    assert m in t.passes ==> EarlierPass(s, t, m);
    assert n in t.passes ==> EarlierPass(s, t, n);
  }

  lemma ShrinkMeets(s: State, t: State, n: string, m: string)
    requires Shrinks(s, t) && StillToCheck(s, n, m) && Checking(t, n) && m in t.crs
    ensures StillToCheck(t, n, m)
  {
    assert EarlierPass(s, t, n);
    assert t.passes[n] == s.passes[n];
  }

  lemma ShrinkPair(s: State, t: State, m: string, n: string)
    requires Shrinks(s, t) && HasProject(s) && Identities(s) && WillMeet(s, m, n) && WillMeet(s, n, m)
    ensures WillMeet(t, m, n)
  {
    ShrinkMarks(s, t);
    if Rivals(t, m, n)
      && (Marked(t, t.crs[m].uid) || Checking(t, m)) && (Marked(t, t.crs[n].uid) || Checking(t, n)) {
      assert m in t.passes ==> EarlierPass(s, t, m);
      assert n in t.passes ==> EarlierPass(s, t, n);
      ShrinkRivals(s, t, m, n);
      if StillToCheck(s, m, n) && Checking(t, m) {
        ShrinkMeets(s, t, m, n);
      }
      if StillToCheck(s, n, m) && Checking(t, n) {
        ShrinkMeets(s, t, n, m);
      }
    }
  }

  lemma ShrinkInv(s: State, t: State)
    requires Inv(s) && Shrinks(s, t)
    ensures Inv(t)
  {
    ShrinkIdentities(s, t);
    forall m, n ensures WillMeet(t, m, n) {
      assert WillMeet(s, m, n) && WillMeet(s, n, m);
      ShrinkPair(s, t, m, n);
    }
  }

  // ---- the steps of the check ----

  /** `t` is `s` with the pass of `n` one step further in its check. */
  predicate Further(s: State, t: State, n: string) {
    && n in s.passes && (s.passes[n].ListAll? || s.passes[n].Check?)
    && n in t.passes && (t.passes[n].Check? || t.passes[n].Past?)
    && t.passes[n].obj == s.passes[n].obj && t.passes[n].db == s.passes[n].db
    && t == Goto(s, n, t.passes[n])
  }

  lemma FurtherMarks(s: State, t: State, n: string, uid: nat)
    requires Further(s, t, n)
    ensures Marked(s, uid) ==> Marked(t, uid)
    ensures Marked(t, uid) ==> Marked(s, uid) || (t.passes[n].Past? && uid == t.passes[n].obj.uid)
  {
    if k :| k in s.passes && s.passes[k].Past? && s.passes[k].obj.uid == uid {
      assert t.passes[k] == s.passes[k];
    }
  }

  lemma FurtherIdentities(s: State, t: State, n: string)
    requires Further(s, t, n) && Identities(s) && HasProject(s)
    ensures Identities(t) && HasProject(t)
  {
    forall m | m in t.crs && Marked(t, t.crs[m].uid) ensures t.crs[m].project in t.projects {
      FurtherMarks(s, t, n, t.crs[m].uid);
    }
  }

  /** A check that moves on meets what it is asked to meet. */
  ghost predicate Meets(s: State, t: State, n: string, m: string)
    requires Further(s, t, n)
  {
    && (t.passes[n].Check? && s.passes[n].ListAll? ==> StillToCheck(t, n, m))
    && (t.passes[n].Check? && StillToCheck(s, n, m) ==> StillToCheck(t, n, m))
    && (t.passes[n].Past? ==> Checking(s, n) && !StillToCheck(s, n, m))
  }

  /** One of the two rivals is the check that moved. */
  lemma FurtherPair(s: State, t: State, n: string, m: string)
    requires Further(s, t, n) && Identities(s) && WillMeet(s, m, n) && WillMeet(s, n, m)
    requires Rivals(s, n, m) && s.passes[n].obj.uid == s.crs[n].uid ==> Meets(s, t, n, m)
    ensures WillMeet(t, m, n) && WillMeet(t, n, m)
  {
    if Rivals(t, n, m) {
      FurtherMarks(s, t, n, s.crs[n].uid);
      FurtherMarks(s, t, n, s.crs[m].uid);
    }
  }

  lemma OtherPair(s: State, t: State, n: string, k: string, m: string)
    requires Further(s, t, n) && Identities(s) && WillMeet(s, k, m) && k != n && m != n
    ensures WillMeet(t, k, m)
  {
    if Rivals(t, k, m) {
      FurtherMarks(s, t, n, s.crs[k].uid);
      FurtherMarks(s, t, n, s.crs[m].uid);
    }
  }

  lemma FurtherInv(s: State, t: State, n: string)
    requires Inv(s) && Further(s, t, n)
    requires forall m :: Rivals(s, n, m) && s.passes[n].obj.uid == s.crs[n].uid ==> Meets(s, t, n, m)
    ensures Inv(t)
  {
    FurtherIdentities(s, t, n);
    forall k, m ensures WillMeet(t, k, m) {
      assert WillMeet(s, k, m) && WillMeet(s, m, k);
      if k == n {
        FurtherPair(s, t, n, m);
      } else if m == n {
        FurtherPair(s, t, n, k);
      } else {
        OtherPair(s, t, n, k, m);
      }
    }
  }

  /** A list answer holds every rival. */
  lemma ListMeets(s: State, t: State, n: string, items: seq<Item>, m: string)
    requires n in s.passes && s.passes[n].ListAll? && Lists(s, items) && Rivals(s, n, m)
    requires t == Goto(s, n, Check(s.passes[n].obj, s.passes[n].db, items))
    requires s.passes[n].obj.uid == s.crs[n].uid
    ensures Meets(s, t, n, m)
  {
    assert Item(m, s.crs[m]) in items;
  }

  /** The check drops only what cannot be a rival. */
  lemma DropMeets(s: State, t: State, n: string, m: string)
    requires Identities(s) && HasProject(s) && n in s.passes && s.passes[n].Check?
    requires s.passes[n].rest != [] && !Conflicts(s, n, s.passes[n].db, s.passes[n].rest[0])
    requires t == Goto(s, n, s.passes[n].(rest := s.passes[n].rest[1..]))
    requires Rivals(s, n, m) && s.passes[n].obj.uid == s.crs[n].uid
    ensures Meets(s, t, n, m)
  {
    if StillToCheck(s, n, m) {
      var p := s.passes[n];
      var i :| 0 <= i < |p.rest| && p.rest[i].name == m && p.rest[i].cr.uid == s.crs[m].uid
        && p.rest[i].cr.project == s.crs[m].project && !p.rest[i].cr.deleting;
      assert p.rest[1..][i - 1] == p.rest[i];
    }
  }

  lemma CheckStepInv(s: State, n: string, proceed: bool, items: seq<Item>)
    requires Inv(s) && Answered(s, Next(n, proceed, items))
    requires n in s.passes
    requires var p := s.passes[n]; p.ListAll? || (p.Check? && (p.rest == [] || !Conflicts(s, n, p.db, p.rest[0])))
    ensures Inv(Continue(s, n, proceed, items))
  {
    var p, t := s.passes[n], Continue(s, n, proceed, items);
    forall m | Rivals(s, n, m) && p.obj.uid == s.crs[n].uid ensures Meets(s, t, n, m) {
      if p.ListAll? {
        ListMeets(s, t, n, items, m);
      } else if p.rest != [] {
        DropMeets(s, t, n, m);
      }
    }
    FurtherInv(s, t, n);
  }

  lemma CreatePair(s: State, n: string, project: string, k: string, m: string)
    requires Identities(s) && n !in s.crs && WillMeet(s, k, m)
    ensures WillMeet(Step(s, Create(n, project)), k, m)
  {
    var t := Step(s, Create(n, project));
    assert forall uid :: Marked(t, uid) <==> Marked(s, uid);
    assert !Marked(s, s.next) && !Checking(t, n);
  }

  lemma CreateInv(s: State, n: string, project: string)
    requires Inv(s) && n !in s.crs
    ensures Inv(Step(s, Create(n, project)))
  {
    var t := Step(s, Create(n, project));
    assert forall uid :: Marked(t, uid) <==> Marked(s, uid);
    assert !Marked(s, s.next);
    assert Identities(t) && HasProject(t);
    forall k, m ensures WillMeet(t, k, m) {
      assert WillMeet(s, k, m);
      CreatePair(s, n, project, k, m);
    }
  }

  lemma StepInv(s: State, a: Action)
    requires Inv(s) && Answered(s, a)
    ensures Inv(Step(s, a))
  {
    match a
    case Next(n, proceed, items) =>
      if n in s.passes {
        var p := s.passes[n];
        if p.ListAll? || (p.Check? && (p.rest == [] || !Conflicts(s, n, p.db, p.rest[0]))) {
          CheckStepInv(s, n, proceed, items);
        } else {
          NextShrinks(s, n, proceed, items);
          ShrinkInv(s, Continue(s, n, proceed, items));
        }
      }
    case Create(n, project) =>
      if n !in s.crs {
        CreateInv(s, n, project);
      }
    case _ =>
      OtherShrinks(s, a);
      ShrinkInv(s, Step(s, a));
  }

  /** Only the pass of `n` changes, to one that no check waits for, or ends. */
  lemma PassShrinks(s: State, t: State, n: string)
    requires Identities(s) && t.crs == s.crs && t.projects == s.projects && t.next == s.next
    requires forall m :: m in t.workloads ==> t.workloads[m] < t.next && Marked(s, t.workloads[m])
    requires forall m :: m in t.passes && m != n ==> m in s.passes && t.passes[m] == s.passes[m]
    requires n in t.passes ==> EarlierPass(s, t, n)
    ensures Shrinks(s, t)
  {
  }

  lemma NextShrinks(s: State, n: string, proceed: bool, items: seq<Item>)
    requires Identities(s) && n in s.passes && !s.passes[n].ListAll?
    requires s.passes[n].Check? ==> s.passes[n].rest != [] && Conflicts(s, n, s.passes[n].db, s.passes[n].rest[0])
    ensures Shrinks(s, Continue(s, n, proceed, items))
  {
    assert forall m :: m in s.workloads ==> Marked(s, s.workloads[m]);
    assert s.passes[n].Past? ==> Marked(s, s.passes[n].obj.uid);
    hide Marked, Shrinks;
    PassShrinks(s, Continue(s, n, proceed, items), n);
  }

  /** No pass changes: an Analytics is marked deleted or goes, a Project appears, or a workload goes. */
  lemma OthersShrink(s: State, t: State)
    requires Identities(s) && t.passes == s.passes && t.next == s.next
    requires forall n :: n in t.crs ==> n in s.crs && t.crs[n] in {s.crs[n], s.crs[n].(deleting := true)}
    requires forall p :: p in s.projects ==> p in t.projects && t.projects[p] == s.projects[p]
    requires forall m :: m in t.workloads ==> m in s.workloads && t.workloads[m] == s.workloads[m]
    ensures Shrinks(s, t)
  {
    assert forall m :: m in s.workloads ==> Marked(s, s.workloads[m]);
    assert forall n :: n in t.passes ==> EarlierPass(s, t, n);
  }

  lemma OtherShrinks(s: State, a: Action)
    requires Identities(s) && !a.Next? && !a.Create?
    ensures Shrinks(s, Step(s, a))
  {
    match a
    case Start(n) =>
      assert forall m :: m in s.workloads ==> Marked(s, s.workloads[m]);
      PassShrinks(s, Step(s, a), n);
    case Crash(n) =>
      assert forall m :: m in s.workloads ==> Marked(s, s.workloads[m]);
      PassShrinks(s, Step(s, a), n);
    case _ => OthersShrink(s, Step(s, a));
  }

  /**
   In every run, of two Analytics that are not being deleted and whose Projects point at
   one database, at most one has a workload or is past the check, even though each check
   is a series of separate reads.
   */
  lemma {:induction false} OnePerDatabase(start: State, run: seq<Action>)
    requires Inv(start) && AnsweredRun(start, run)
    ensures Inv(Exec(start, run)) && Exclusive(Exec(start, run))
  {
    if run != [] {
      var before := run[..|run| - 1];
      OnePerDatabase(start, before);
      StepInv(Exec(start, before), run[|run| - 1]);
    }
    var s := Exec(start, run);
    forall m, n | Rivals(s, m, n) ensures !(Marked(s, s.crs[m].uid) && Marked(s, s.crs[n].uid)) {
      assert WillMeet(s, m, n);
    }
  }

  /** Projects must stay with their database: pointing one at the database of another breaks the exclusion. */
  lemma RepointBreaksExclusion(s: State, m: string, n: string)
    requires m in s.crs && n in s.crs && m != n && !s.crs[m].deleting && !s.crs[n].deleting
    requires s.crs[m].project in s.projects && s.crs[n].project in s.projects
    requires m in s.workloads && s.workloads[m] == s.crs[m].uid && n in s.workloads && s.workloads[n] == s.crs[n].uid
    ensures !Exclusive(s.(projects := s.projects[s.crs[m].project := s.projects[s.crs[n].project]]))
  {
    assert Rivals(s.(projects := s.projects[s.crs[m].project := s.projects[s.crs[n].project]]), m, n);
  }

  // ---- who is stopped, and who is not ----

  /**
   A check stops an Analytics only for a rival: if the one it looks at is still as listed,
   and so is the one it works for, the two are rivals.
   */
  lemma StoppedByRival(s: State, n: string, proceed: bool, items: seq<Item>)
    requires Inv(s) && n in s.passes && s.passes[n].Check? && s.passes[n].rest != []
    requires n in s.crs && s.passes[n].obj == s.crs[n] && !s.crs[n].deleting
    requires var other := s.passes[n].rest[0]; other.name in s.crs && s.crs[other.name] == other.cr
    ensures Continue(s, n, proceed, items).passes[n].Conflicting? <==> Rivals(s, n, s.passes[n].rest[0].name)
  {
    assert HasProject(s);
  }

  /** Some rival is there. */
  predicate HasRival(s: State, n: string) {
    exists m | m in s.crs :: Rivals(s, n, m)
  }

  /** No other Analytics of its Project. */
  predicate AloneInProject(s: State, n: string) {
    n in s.crs && forall m | m in s.crs :: s.crs[m].project == s.crs[n].project ==> m == n
  }

  /** The pass with nobody else acting. */
  function Drive(s: State, n: string, proceed: bool, items: seq<Item>, calls: nat): State
    decreases calls
  {
    if calls == 0 || n !in s.passes then s else Drive(Continue(s, n, proceed, items), n, proceed, items, calls - 1)
  }

  /** What a pass that nobody disturbs leaves of the workloads. */
  function Workloads(s: State, n: string, proceed: bool): map<string, nat>
    requires n in s.crs
  {
    var foreign := n in s.workloads && s.workloads[n] != s.crs[n].uid;
    if !AloneInProject(s, n) then s.workloads
    else if HasRival(s, n) then if foreign then s.workloads else s.workloads - {n}
    else if proceed && !foreign then s.workloads[n := s.crs[n].uid]
    else s.workloads
  }

  /** The rest of the check, undisturbed: it stops exactly if a rival is among what is left. */
  lemma {:induction false} CheckRuns(s: State, n: string, proceed: bool, items: seq<Item>, calls: nat)
    requires n in s.crs && n in s.passes && s.passes[n].Check? && s.passes[n].obj == s.crs[n]
    requires s.crs[n].project in s.projects && s.projects[s.crs[n].project] == s.passes[n].db && !s.crs[n].deleting
    requires forall i :: i in s.passes[n].rest ==> i.name in s.crs && i.cr == s.crs[i.name]
    requires calls >= |s.passes[n].rest| + 2
    ensures var t := Drive(s, n, proceed, items, calls);
      var foreign := n in s.workloads && s.workloads[n] != s.crs[n].uid;
      && n !in t.passes && t.crs == s.crs
      && t.workloads ==
         if exists i :: i in s.passes[n].rest && Rivals(s, n, i.name) then if foreign then s.workloads else s.workloads - {n}
         else if proceed && !foreign then s.workloads[n := s.crs[n].uid] else s.workloads
    decreases calls
  {
    var rest := s.passes[n].rest;
    var s1 := Continue(s, n, proceed, items);
    assert Drive(s, n, proceed, items, calls) == Drive(s1, n, proceed, items, calls - 1);
    if rest == [] || Conflicts(s, n, s.passes[n].db, rest[0]) {
      assert rest != [] ==> rest[0] in rest && Rivals(s, n, rest[0].name);
      var s2 := Continue(s1, n, proceed, items);
      assert Drive(s1, n, proceed, items, calls - 1) == Drive(s2, n, proceed, items, calls - 2);
      assert n !in s.workloads ==> s.workloads - {n} == s.workloads;
    } else {
      assert rest[0] in rest && !Rivals(s, n, rest[0].name);
      assert forall i :: i in rest <==> i == rest[0] || i in rest[1..];
      assert forall m :: Rivals(s1, n, m) == Rivals(s, n, m);
      CheckRuns(s1, n, proceed, items, calls - 1);
    }
  }

  /**
   An undisturbed pass over an Analytics that has its Project ends. If it is alone in its
   Project and has no rival, it ends with its own workload written, unless a later gate
   or a workload of someone else stops it. With a rival it ends without a workload of its
   own. And if it is not alone it changes nothing.
   */
  lemma UndisturbedPass(s: State, n: string, proceed: bool, items: seq<Item>)
    requires n in s.crs && n !in s.passes && !s.crs[n].deleting && s.crs[n].project in s.projects && Lists(s, items)
    ensures var t := Drive(BeginPass(s, n), n, proceed, items, |items| + 5);
      n !in t.passes && t.crs == s.crs && t.workloads == Workloads(s, n, proceed)
  {
    var s1 := Goto(BeginPass(s, n), n, ListSame(s.crs[n], s.projects[s.crs[n].project]));
    DriveOn(BeginPass(s, n), s1, n, proceed, items, |items| + 5);
    ProjectCounted(s, n);
    hide Drive, Continue;
    if AloneInProject(s, n) {
      AlonePass(s, s1, n, proceed, items);
    } else {
      CrowdedPass(s, s1, n, proceed, items);
    }
  }

  lemma DriveOn(s: State, t: State, n: string, proceed: bool, items: seq<Item>, calls: nat)
    requires n in s.passes && calls > 0 && Continue(s, n, proceed, items) == t
    ensures Drive(s, n, proceed, items, calls) == Drive(t, n, proceed, items, calls - 1)
  {
    hide Continue;
  }

  lemma ProjectCounted(s: State, n: string)
    requires n in s.crs
    ensures AloneInProject(s, n) <==> |set m | m in s.crs && s.crs[m].project == s.crs[n].project| <= 1
  {
    var same := set m | m in s.crs && s.crs[m].project == s.crs[n].project;
    assert n in same;
    OneOrMore(same, n);
    if !AloneInProject(s, n) {
      var m :| m in s.crs && s.crs[m].project == s.crs[n].project && m != n;
      assert m in same;
    }
  }

  lemma CrowdedPass(s: State, t: State, n: string, proceed: bool, items: seq<Item>)
    requires n in s.crs && !AloneInProject(s, n) && s.crs[n].project in s.projects
    requires |set m | m in s.crs && s.crs[m].project == s.crs[n].project| > 1
    requires t == Goto(s, n, ListSame(s.crs[n], s.projects[s.crs[n].project]))
    ensures var u := Drive(t, n, proceed, items, |items| + 4);
      n !in u.passes && u.crs == s.crs && u.workloads == s.workloads
  {
    DriveOn(t, Leave(t, n), n, proceed, items, |items| + 4);
    hide Continue;
    assert Drive(Leave(t, n), n, proceed, items, |items| + 3) == Leave(t, n);
  }

  lemma AlonePass(s: State, t: State, n: string, proceed: bool, items: seq<Item>)
    requires n in s.crs && AloneInProject(s, n) && s.crs[n].project in s.projects && !s.crs[n].deleting && Lists(s, items)
    requires |set m | m in s.crs && s.crs[m].project == s.crs[n].project| <= 1
    requires t == Goto(s, n, ListSame(s.crs[n], s.projects[s.crs[n].project]))
    ensures var u := Drive(t, n, proceed, items, |items| + 4);
      n !in u.passes && u.crs == s.crs && u.workloads == Workloads(s, n, proceed)
  {
    var obj, db := s.crs[n], s.projects[s.crs[n].project];
    var s2 := Goto(t, n, ListAll(obj, db));
    var s3 := Goto(s2, n, Check(obj, db, items));
    DriveOn(t, s2, n, proceed, items, |items| + 4);
    DriveOn(s2, s3, n, proceed, items, |items| + 3);
    hide Drive, Continue;
    CheckRuns(s3, n, proceed, items, |items| + 2);
    ListedRivals(s, s3, n, items);
  }

  lemma OneOrMore(same: set<string>, n: string)
    requires n in same
    ensures |same| > 1 <==> exists m :: m in same && m != n
  {
    assert same == {n} + (same - {n});
    if m :| m in same && m != n {
      assert m in same - {n};
    }
    if |same| > 1 {
      assert |same - {n}| > 0;
      var m :| m in same - {n};
    }
  }

  lemma ListedRivals(s: State, t: State, n: string, items: seq<Item>)
    requires Lists(s, items) && t.crs == s.crs && t.projects == s.projects
    ensures HasRival(s, n) <==> exists i :: i in items && Rivals(t, n, i.name)
  {
    if m :| m in s.crs && Rivals(s, n, m) {
      assert Item(m, s.crs[m]) in items && Rivals(t, n, m);
    }
    if i :| i in items && Rivals(t, n, i.name) {
      assert Rivals(s, n, i.name);
    }
  }

  // ---- a whole pass ----

  predicate Foreign(a: Action, n: string) {
    match a
    case Start(m) => m != n
    case Next(m, _, _) => m != n
    case Crash(m) => m != n
    case _ => true
  }

  lemma ForeignStep(s: State, a: Action, n: string)
    requires Foreign(a, n)
    ensures (n in Step(s, a).passes <==> n in s.passes)
    ensures n in s.passes ==> Step(s, a).passes[n] == s.passes[n]
  {
  }

  lemma {:induction false} ForeignKeepsPass(s: State, run: seq<Action>, n: string)
    requires forall a :: a in run ==> Foreign(a, n)
    ensures (n in Exec(s, run).passes <==> n in s.passes)
    ensures n in s.passes ==> Exec(s, run).passes[n] == s.passes[n]
  {
    hide Step, Foreign;
    if run != [] {
      assert run[|run| - 1] in run;
      ForeignKeepsPass(s, run[..|run| - 1], n);
      ForeignStep(Exec(s, run[..|run| - 1]), run[|run| - 1], n);
    }
  }

  lemma {:induction false} ExecAppend(s: State, first: seq<Action>, second: seq<Action>)
    ensures Exec(s, first + second) == Exec(Exec(s, first), second)
  {
    if second == [] {
      assert first + second == first;
    } else {
      ExecAppend(s, first, second[..|second| - 1]);
      assert (first + second)[..|first + second| - 1] == first + second[..|second| - 1];
    }
  }

  lemma {:induction false} AnsweredAppend(s: State, first: seq<Action>, second: seq<Action>)
    requires AnsweredRun(s, first) && AnsweredRun(Exec(s, first), second)
    ensures AnsweredRun(s, first + second)
  {
    if second == [] {
      assert first + second == first;
    } else {
      var shorter := second[..|second| - 1];
      AnsweredAppend(s, first, shorter);
      ExecAppend(s, first, shorter);
      assert (first + second)[..|first + second| - 1] == first + shorter;
    }
  }

  function Stage(p: Pass): (stage: nat)
    ensures stage > 0
  {
    match p
    case GetProject(_) => 5
    case ListSame(_, _) => 4
    case ListAll(_, _) => 3
    case Check(_, _, _) => 2
    case Conflicting(_) => 1
    case Past(_, _) => 1
  }

  function Unchecked(p: Pass): nat { if p.Check? then |p.rest| + 1 else 0 }

  /** What other clients and the passes of other Analytics do, given the state. */
  type Others = (nat, State) -> seq<Action>

  ghost predicate Fair(others: Others, n: string) {
    forall i: nat, s: State :: AnsweredRun(s, others(i, s)) && forall a :: a in others(i, s) ==> Foreign(a, n)
  }

  lemma StartAnswered(s: State, n: string)
    ensures Answered(s, Start(n)) && AnsweredRun(s, [Start(n)])
    ensures Exec(s, [Start(n)]) == Step(s, Start(n))
  {
    assert [Start(n)][..0] == [];
  }

  lemma CallsRunOut(s: State, n: string, proceed: bool, items: seq<Item>)
    requires n in s.passes
    ensures n in Continue(s, n, proceed, items).passes ==>
      var p, q := Continue(s, n, proceed, items).passes[n], s.passes[n];
      Stage(p) < Stage(q) || (Stage(p) == Stage(q) && Unchecked(p) < Unchecked(q))
  {
  }

  /**
   From its start on, the actions of a pass of `n` and of everybody else; the pass makes
   its next API call as long as it has not ended, and nothing else.
   */
  ghost predicate PassRun(s: State, run: seq<Action>, n: string, proceed: bool, list: State -> seq<Item>) {
    && run != []
    && if |run| == 1 then run[0] == Start(n)
       else
         var before, last := run[..|run| - 1], run[|run| - 1];
         PassRun(s, before, n, proceed, list) && (Foreign(last, n) || (last == Next(n, proceed, list(Exec(s, before))) && n in Exec(s, before).passes))
  }

  /** How many of the actions are the pass's own. */
  function OwnActions(run: seq<Action>, n: string): nat {
    if run == [] then 0
    else OwnActions(run[..|run| - 1], n) + if Foreign(run[|run| - 1], n) then 0 else 1
  }

  lemma {:induction false} PassRunWaits(s: State, run: seq<Action>, theirs: seq<Action>, n: string, proceed: bool, list: State -> seq<Item>)
    requires PassRun(s, run, n, proceed, list) && forall a :: a in theirs ==> Foreign(a, n)
    ensures PassRun(s, run + theirs, n, proceed, list) && OwnActions(run + theirs, n) == OwnActions(run, n)
  {
    hide Foreign, Exec;
    if theirs == [] {
      assert run + theirs == run;
    } else {
      assert theirs[|theirs| - 1] in theirs;
      PassRunWaits(s, run, theirs[..|theirs| - 1], n, proceed, list);
      assert (run + theirs)[..|run + theirs| - 1] == run + theirs[..|theirs| - 1];
    }
  }

  /** Everybody else acts, then the pass makes one call. */
  lemma PassRunGoesOn(s: State, run: seq<Action>, theirs: seq<Action>, n: string, proceed: bool, list: State -> seq<Item>)
    requires PassRun(s, run, n, proceed, list) && forall a :: a in theirs ==> Foreign(a, n)
    requires n in Exec(s, run + theirs).passes
    ensures var own := Next(n, proceed, list(Exec(s, run + theirs)));
      PassRun(s, run + (theirs + [own]), n, proceed, list) && OwnActions(run + (theirs + [own]), n) == OwnActions(run, n) + 1
  {
    PassRunWaits(s, run, theirs, n, proceed, list);
    var own := Next(n, proceed, list(Exec(s, run + theirs)));
    hide Exec;
    assert run + (theirs + [own]) == run + theirs + [own];
    assert (run + theirs + [own])[..|run + theirs|] == run + theirs;
  }

  lemma PassRunStarts(s: State, n: string, proceed: bool, list: State -> seq<Item>)
    ensures PassRun(s, [Start(n)], n, proceed, list) && OwnActions([Start(n)], n) == 1
  {
    assert [Start(n)][..0] == [];
  }

  lemma Welcome(others: Others, n: string, i: nat, s: State)
    requires Fair(others, n)
    ensures AnsweredRun(s, others(i, s)) && forall a :: a in others(i, s) ==> Foreign(a, n)
  {
  }

  class Controller {
    var state: State

    /** Everybody else, then the next API call of this pass. */
    method Round(n: string, others: Others, i: nat, proceed: bool, list: State -> seq<Item>)
      returns (ghost theirs: seq<Action>, ghost run: seq<Action>)
      requires Inv(state) && n in state.passes && Fair(others, n) && forall s :: Lists(s, list(s))
      modifies this
      ensures Inv(state) && AnsweredRun(old(state), run) && state == Exec(old(state), run)
      ensures theirs == others(i, old(state)) && n in Exec(old(state), theirs).passes
      ensures run == theirs + [Next(n, proceed, list(Exec(old(state), theirs)))]
      ensures n in state.passes ==>
        var p, q := state.passes[n], old(state.passes[n]);
        Stage(p) < Stage(q) || (Stage(p) == Stage(q) && Unchecked(p) < Unchecked(q))
    {
      var actions := others(i, state);
      theirs := actions;
      ForeignKeepsPass(state, theirs, n);
      OnePerDatabase(state, theirs);
      ghost var between := Exec(state, theirs);
      state := Exec(state, actions);
      var items := list(state);
      StepInv(state, Next(n, proceed, items));
      state := Step(state, Next(n, proceed, items));
      run := theirs + [Next(n, proceed, items)];
      assert run[..|run| - 1] == theirs;
      CallsRunOut(between, n, proceed, items);
    }

    /**
     One whole pass. Before each of its API calls, those of the conflict check included,
     everybody else may act. The run starts the pass and makes its calls, and no others,
     until it has ended. It keeps the invariant.
     */
    method Reconcile(n: string, others: Others, proceed: bool, list: State -> seq<Item>) returns (ghost run: seq<Action>)
      requires Inv(state) && n !in state.passes && Fair(others, n) && forall s :: Lists(s, list(s))
      modifies this
      ensures Inv(state) && n !in state.passes
      ensures AnsweredRun(old(state), run) && state == Exec(old(state), run)
      ensures PassRun(old(state), run, n, proceed, list)
    {
      hide *;
      StartAnswered(state, n);
      PassRunStarts(state, n, proceed, list);
      StepInv(state, Start(n));
      state := Step(state, Start(n));
      run := [Start(n)];
      var i := 0;
      while n in state.passes
        invariant Inv(state) && AnsweredRun(old(state), run) && state == Exec(old(state), run)
        invariant PassRun(old(state), run, n, proceed, list)
        decreases if n in state.passes then Stage(state.passes[n]) else 0,
                  if n in state.passes then Unchecked(state.passes[n]) else 0
      {
        ghost var before := state;
        Welcome(others, n, i, before);
        ghost var theirs, more := Round(n, others, i, proceed, list);
        AnsweredAppend(old(state), run, more);
        ExecAppend(old(state), run, more);
        ExecAppend(old(state), run, theirs);
        PassRunGoesOn(old(state), run, theirs, n, proceed, list);
        run, i := run + more, i + 1;
      }
    }

    /**
     The conflict check when nobody acts in between: a conflict exactly if some listed
     Analytics has another name, is not being deleted, and has a Project that is there
     and points at this database.
     */
    method CheckDatabaseConflict(n: string)
      requires n in state.passes && state.passes[n].Check?
      modifies this
      ensures var p := old(state.passes[n]);
        var projects := old(state).projects;
        state == Goto(old(state), n,
                      if exists i :: 0 <= i < |p.rest| && p.rest[i].name != n && !p.rest[i].cr.deleting
                                     && p.rest[i].cr.project in projects && projects[p.rest[i].cr.project] == p.db
                      then Conflicting(p.obj) else Past(p.obj, p.db))
    {
      ghost var s := state;
      var p := state.passes[n];
      for i := 0 to |p.rest|
        invariant state == Goto(s, n, Check(p.obj, p.db, p.rest[i..]))
        invariant forall j :: 0 <= j < i ==> !Conflicts(s, n, p.db, p.rest[j])
      {
        assert p.rest[i..][1..] == p.rest[i + 1..];
        assert Conflicts(state, n, p.db, p.rest[i]) == Conflicts(s, n, p.db, p.rest[i]);
        state := Continue(state, n, true, []);
        if state.passes[n].Conflicting? {
          return;
        }
      }
      state := Continue(state, n, true, []);
    }
  }
}
