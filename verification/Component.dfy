/**
 The gate every component controller passes before it writes: one resource of a kind
 per Project. There is no lock; the existence of the resource is the flag. The gate's
 reads and the workload write are separate steps.
 */
module Component {
  /** A component resource; `project` cannot change after creation. */
  datatype CR = CR(uid: nat, project: string, deleting: bool)

  datatype Pass =
    | GetProject(obj: CR)
    | ListSame(obj: CR)
    | Past(obj: CR)

  /** Resources of one kind in one namespace; `projects` tells whether a Project is being deleted. */
  datatype State = State(crs: map<string, CR>, projects: map<string, bool>, workloads: map<string, nat>,
                         next: nat, passes: map<string, Pass>)

  function Same(s: State, project: string): set<string> {
    set n | n in s.crs && s.crs[n].project == project
  }

  function Goto(s: State, n: string, p: Pass): State { s.(passes := s.passes[n := p]) }

  function Leave(s: State, n: string): State { s.(passes := s.passes - {n}) }

  function BeginPass(s: State, n: string): State {
    if n in s.passes || n !in s.crs || s.crs[n].deleting then s else Goto(s, n, GetProject(s.crs[n]))
  }

  /** `proceed` is how the later gates turn out; a workload of another owner is not taken over. */
  function Continue(s: State, n: string, proceed: bool): State {
    if n !in s.passes then s
    else
      match s.passes[n]
      case GetProject(obj) =>
        if obj.project !in s.projects || s.projects[obj.project] then Leave(s, n) else Goto(s, n, ListSame(obj))
      case ListSame(obj) => if |Same(s, obj.project)| > 1 then Leave(s, n) else Goto(s, n, Past(obj))
      case Past(obj) =>
        if !proceed || (n in s.workloads && s.workloads[n] != obj.uid) then Leave(s, n)
        else Leave(s.(workloads := s.workloads[n := obj.uid]), n)
  }

  datatype Action =
    | Start(name: string)
    | Next(name: string, proceed: bool)
    | Crash(name: string)
    | Create(name: string, project: string)
    | MarkDeleted(name: string)
    | Remove(name: string)
    | SetProject(project: string, deleting: bool)
    | RemoveProject(project: string)
    | WorkloadGone(name: string)

  function Step(s: State, a: Action): State {
    match a
    case Start(n) => BeginPass(s, n)
    case Next(n, proceed) => Continue(s, n, proceed)
    case Crash(n) => Leave(s, n)
    case Create(n, project) =>
      if n in s.crs then s else s.(crs := s.crs[n := CR(s.next, project, false)], next := s.next + 1)
    case MarkDeleted(n) => if n in s.crs then s.(crs := s.crs[n := s.crs[n].(deleting := true)]) else s
    case Remove(n) => s.(crs := s.crs - {n})
    case SetProject(p, deleting) => s.(projects := s.projects[p := deleting])
    case RemoveProject(p) => s.(projects := s.projects - {p})
    case WorkloadGone(n) => s.(workloads := s.workloads - {n})
  }

  function Exec(s: State, run: seq<Action>): State {
    if run == [] then s else Step(Exec(s, run[..|run| - 1]), run[|run| - 1])
  }

  /** The resource has a workload, or a pass that is past the gate and may write one. */
  ghost predicate Marked(s: State, uid: nat) {
    || (exists n :: n in s.workloads && s.workloads[n] == uid)
    || (exists n :: n in s.passes && s.passes[n].Past? && s.passes[n].obj.uid == uid)
  }

  /** Two resources of one kind that name one Project. */
  predicate Rivals(s: State, m: string, n: string) {
    m != n && m in s.crs && n in s.crs && s.crs[m].project == s.crs[n].project
  }

  ghost predicate Exclusive(s: State) {
    forall m, n :: Rivals(s, m, n) ==> !(Marked(s, s.crs[m].uid) && Marked(s, s.crs[n].uid))
  }

  ghost predicate Identities(s: State) {
    && (forall n :: n in s.crs ==> s.crs[n].uid < s.next)
    && (forall n :: n in s.workloads ==> s.workloads[n] < s.next)
    && (forall m, n :: m in s.crs && n in s.crs && m != n ==> s.crs[m].uid != s.crs[n].uid)
    && (forall n :: n in s.passes ==> s.passes[n].obj.uid < s.next)
    && (forall n, m :: n in s.passes && m in s.crs && s.crs[m].uid == s.passes[n].obj.uid ==>
          m == n && s.crs[m].project == s.passes[n].obj.project)
  }

  ghost predicate Inv(s: State) { Identities(s) && Exclusive(s) }

  lemma TwoOfOneProject(s: State, project: string, m: string, n: string)
    requires m != n && m in Same(s, project) && n in Same(s, project)
    ensures |Same(s, project)| > 1
  {
    assert {m, n} <= Same(s, project);
    assert |Same(s, project) - {m, n}| == |Same(s, project)| - |{m, n}|;
  }

  /** A step that marks nothing new, and makes no new rivals, keeps the exclusion. */
  lemma NoNewMark(s: State, t: State)
    requires Exclusive(s)
    requires forall m, n :: Rivals(t, m, n) && Marked(t, t.crs[m].uid) && Marked(t, t.crs[n].uid) ==>
               Rivals(s, m, n) && Marked(s, s.crs[m].uid) && Marked(s, s.crs[n].uid)
    ensures Exclusive(t)
  {
  }

  lemma MarksShrink(s: State, t: State, uid: nat)
    requires forall n :: n in t.workloads ==> Marked(s, t.workloads[n])
    requires forall n :: n in t.passes && t.passes[n].Past? ==> Marked(s, t.passes[n].obj.uid)
    ensures Marked(t, uid) ==> Marked(s, uid)
  {
  }

  lemma PastMarks(s: State, n: string, uid: nat)
    requires n in s.passes && s.passes[n].ListSame?
    ensures Marked(Goto(s, n, Past(s.passes[n].obj)), uid) ==> Marked(s, uid) || uid == s.passes[n].obj.uid
  {
  }

  /** Whoever gets past the gate was alone in its Project at that moment, if it still existed. */
  lemma GateInv(s: State, n: string)
    requires Inv(s) && n in s.passes && s.passes[n].ListSame? && |Same(s, s.passes[n].obj.project)| <= 1
    ensures Inv(Goto(s, n, Past(s.passes[n].obj)))
  {
    var obj := s.passes[n].obj;
    var t := Goto(s, n, Past(obj));
    assert Identities(t);
    forall a, b | Rivals(t, a, b) && Marked(t, t.crs[a].uid) && Marked(t, t.crs[b].uid)
      ensures Rivals(s, a, b) && Marked(s, s.crs[a].uid) && Marked(s, s.crs[b].uid)
    {
      PastMarks(s, n, s.crs[a].uid);
      PastMarks(s, n, s.crs[b].uid);
      if s.crs[a].uid == obj.uid || s.crs[b].uid == obj.uid {
        TwoOfOneProject(s, obj.project, a, b);
      }
    }
    NoNewMark(s, t);
  }

  lemma CreateInv(s: State, n: string, project: string)
    requires Inv(s) && n !in s.crs
    ensures Inv(Step(s, Create(n, project)))
  {
    var t := Step(s, Create(n, project));
    assert forall uid :: Marked(t, uid) <==> Marked(s, uid);
    assert !Marked(s, s.next);
    assert Identities(t);
    hide Marked, Identities;
    NoNewMark(s, t);
  }

  /** Nothing is created, and every mark is one there was. */
  lemma ShrinkInv(s: State, t: State)
    requires Inv(s) && t.next == s.next
    requires forall n :: n in t.crs ==> n in s.crs && t.crs[n].uid == s.crs[n].uid && t.crs[n].project == s.crs[n].project
    requires forall n :: n in t.workloads ==> t.workloads[n] < t.next && Marked(s, t.workloads[n])
    requires forall n :: n in t.passes ==>
      || (n in s.passes && t.passes[n] == s.passes[n])
      || (!t.passes[n].Past? && n in s.crs && t.passes[n].obj == s.crs[n])
      || (!t.passes[n].Past? && n in s.passes && t.passes[n].obj == s.passes[n].obj)
    ensures Inv(t)
  {
    forall uid ensures Marked(t, uid) ==> Marked(s, uid) {
      MarksShrink(s, t, uid);
    }
    hide Marked;
    NoNewMark(s, t);
  }

  lemma WorkloadsMarked(s: State)
    ensures forall n :: n in s.workloads ==> Marked(s, s.workloads[n])
    ensures forall n :: n in s.passes && s.passes[n].Past? ==> Marked(s, s.passes[n].obj.uid)
  {
  }

  lemma ContinueInv(s: State, n: string, proceed: bool)
    requires Inv(s)
    ensures Inv(Continue(s, n, proceed))
  {
    if n in s.passes {
      if s.passes[n].ListSame? && |Same(s, s.passes[n].obj.project)| <= 1 {
        GateInv(s, n);
      } else {
        WorkloadsMarked(s);
        hide Marked, Exclusive;
        ShrinkInv(s, Continue(s, n, proceed));
      }
    }
  }

  lemma StepInv(s: State, a: Action)
    requires Inv(s)
    ensures Inv(Step(s, a))
  {
    WorkloadsMarked(s);
    hide Marked, Exclusive, Continue;
    match a
    case Next(n, proceed) => ContinueInv(s, n, proceed);
    case Create(n, project) =>
      if n !in s.crs {
        CreateInv(s, n, project);
      }
    case Start(n) => ShrinkInv(s, BeginPass(s, n));
    case Crash(n) => ShrinkInv(s, Leave(s, n));
    case _ => ShrinkInv(s, Step(s, a));
  }

  /**
   In every run, of the existing resources of one kind that name one Project at most one
   has a workload or is past the gate.
   */
  lemma {:induction false} OnePerProject(start: State, run: seq<Action>)
    requires Inv(start)
    ensures Inv(Exec(start, run)) && Exclusive(Exec(start, run))
  {
    if run != [] {
      OnePerProject(start, run[..|run| - 1]);
      StepInv(Exec(start, run[..|run| - 1]), run[|run| - 1]);
    }
  }

  // ---- who gets past the gate ----

  /** No other resource of the kind names this Project. */
  predicate AloneInProject(s: State, n: string) {
    n in s.crs && forall m | m in s.crs :: s.crs[m].project == s.crs[n].project ==> m == n
  }

  /** The pass with nobody else acting. */
  function Drive(s: State, n: string, proceed: bool, calls: nat): State
    decreases calls
  {
    if calls == 0 || n !in s.passes then s else Drive(Continue(s, n, proceed), n, proceed, calls - 1)
  }

  lemma AloneCounted(s: State, n: string)
    requires n in s.crs
    ensures AloneInProject(s, n) <==> |Same(s, s.crs[n].project)| <= 1
  {
    var same := Same(s, s.crs[n].project);
    assert n in same && same == {n} + (same - {n});
    if AloneInProject(s, n) {
      assert same - {n} == {};
    } else {
      var m :| m in s.crs && s.crs[m].project == s.crs[n].project && m != n;
      TwoOfOneProject(s, s.crs[n].project, m, n);
    }
  }

  /**
   The exclusion stops nobody else. An undisturbed pass over a resource writes its workload
   if and only if the Project is there and not being deleted, no other resource of the
   kind names it, the later gates let it through, and the workload is not someone else's;
   otherwise it changes nothing.
   */
  lemma UndisturbedPass(s: State, n: string, proceed: bool)
    requires n in s.crs && n !in s.passes && !s.crs[n].deleting
    ensures var t := Drive(BeginPass(s, n), n, proceed, 3);
      var project := s.crs[n].project;
      && n !in t.passes && t.crs == s.crs
      && t.workloads ==
         if project in s.projects && !s.projects[project] && AloneInProject(s, n) && proceed
            && (n in s.workloads ==> s.workloads[n] == s.crs[n].uid)
         then s.workloads[n := s.crs[n].uid] else s.workloads
  {
    AloneCounted(s, n);
    hide AloneInProject;
    var obj := s.crs[n];
    var s0 := BeginPass(s, n);
    var s1 := Continue(s0, n, proceed);
    assert Drive(s0, n, proceed, 3) == Drive(s1, n, proceed, 2);
    if n in s1.passes {
      assert Same(s1, obj.project) == Same(s, obj.project);
      var s2 := Continue(s1, n, proceed);
      assert Drive(s1, n, proceed, 2) == Drive(s2, n, proceed, 1);
      if n in s2.passes {
        assert Drive(s2, n, proceed, 1) == Continue(s2, n, proceed);
      }
    }
  }
}
