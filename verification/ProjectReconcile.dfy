/**
 The Project controller as it runs: it changes the object in memory and makes its API
 calls one after the other, and everybody else may act before each of them. Each pass is
 a run of `ProjectSteps`.
 */
module ProjectReconcile {
  import opened Wrappers
  import opened Objects
  import opened Store
  import opened Ensure
  import opened Status
  import opened Database
  import opened Project
  import opened ProjectChildren
  import opened Steps = ProjectSteps
  import Preimage
  import ProjectReady

  // ---- the run of one pass ----

  /**
   From its start on, the actions of a pass and of everybody else; the pass makes its next
   API call as long as it has not ended, and nothing else.
   */
  ghost predicate PassRun(s: State, cfg: Config, run: seq<Steps.Action>) {
    && run != []
    && if |run| == 1 then run[0].Start?
       else
         var before, last := run[..|run| - 1], run[|run| - 1];
         && PassRun(s, cfg, before)
         && (last.Elsewhere? || (last.Next? && Steps.Exec(s, cfg, before).running.Some?))
  }

  /** How many of the actions are the pass's own. */
  function OwnActions(run: seq<Steps.Action>): nat {
    if run == [] then 0
    else OwnActions(run[..|run| - 1]) + if run[|run| - 1].Elsewhere? then 0 else 1
  }

  ghost predicate Foreign(run: seq<Steps.Action>) { forall a | a in run :: a.Elsewhere? }

  lemma {:induction false} PassRunWaits(s: State, cfg: Config, run: seq<Steps.Action>, theirs: seq<Steps.Action>)
    requires PassRun(s, cfg, run) && Foreign(theirs)
    ensures PassRun(s, cfg, run + theirs) && OwnActions(run + theirs) == OwnActions(run)
  {
    hide Steps.Exec;
    if theirs == [] {
      assert run + theirs == run;
    } else {
      assert theirs[|theirs| - 1] in theirs;
      PassRunWaits(s, cfg, run, theirs[..|theirs| - 1]);
      assert (run + theirs)[..|run + theirs| - 1] == run + theirs[..|theirs| - 1];
    }
  }

  lemma PassRunGoesOn(s: State, cfg: Config, run: seq<Steps.Action>, a: Steps.Action)
    requires PassRun(s, cfg, run) && a.Next? && Steps.Exec(s, cfg, run).running.Some?
    ensures PassRun(s, cfg, run + [a]) && OwnActions(run + [a]) == OwnActions(run) + 1
  {
    hide Steps.Exec;
    assert (run + [a])[..|run|] == run;
  }

  lemma PassRunStarts(s: State, cfg: Config)
    ensures PassRun(s, cfg, [Start]) && OwnActions([Start]) == 1
  {
    assert [Start][..0] == [];
  }

  lemma {:induction false} RunAppend(s: State, cfg: Config, first: seq<Steps.Action>, second: seq<Steps.Action>)
    requires OrderlyRun(s, cfg, first) && OrderlyRun(Steps.Exec(s, cfg, first), cfg, second)
    ensures Steps.Exec(s, cfg, first + second) == Steps.Exec(Steps.Exec(s, cfg, first), cfg, second)
    ensures OrderlyRun(s, cfg, first + second)
  {
    hide Steps.Step, Orderly;
    if second == [] {
      assert first + second == first;
    } else {
      RunAppend(s, cfg, first, second[..|second| - 1]);
      assert (first + second)[..|first + second| - 1] == first + second[..|second| - 1];
    }
  }

  lemma {:induction false} OthersKeepPass(s: State, cfg: Config, theirs: seq<Steps.Action>)
    requires Foreign(theirs)
    ensures Steps.Exec(s, cfg, theirs).running == s.running && Steps.Exec(s, cfg, theirs).trace == s.trace
  {
    if theirs != [] {
      assert theirs[|theirs| - 1] in theirs;
      OthersKeepPass(s, cfg, theirs[..|theirs| - 1]);
      hide Project.Step;
    }
  }

  lemma {:induction false} AgainOrderly(s: State, cfg: Config, run: seq<Steps.Action>, a: Steps.Action)
    requires OrderlyRun(s, cfg, run) && Orderly(Steps.Exec(s, cfg, run), a)
    ensures OrderlyRun(s, cfg, run + [a]) && Steps.Exec(s, cfg, run + [a]) == Steps.Step(Steps.Exec(s, cfg, run), cfg, a)
  {
    assert (run + [a])[..|run|] == run;
  }

  /** What everybody else does before the next API call, how that call goes, and the values it may generate. */
  datatype Surroundings = Surroundings(others: (nat, State) -> seq<Steps.Action>, fate: nat -> Fate, generated: (nat, string) -> string)

  /** Others run no pass; a process that dies returns nothing, so no call is its last here. */
  ghost predicate Fair(w: Surroundings, cfg: Config) {
    && (forall i: nat, s: State :: OrderlyRun(s, cfg, w.others(i, s)) && Foreign(w.others(i, s)))
    && forall i: nat :: !w.fate(i).Dies?
  }

  lemma Welcome(w: Surroundings, cfg: Config, i: nat, s: State)
    requires Fair(w, cfg)
    ensures OrderlyRun(s, cfg, w.others(i, s)) && Foreign(w.others(i, s)) && !w.fate(i).Dies?
  {
  }

  // ---- what a pass finds out, and what it returns ----

  datatype Result = Finished | Requeue | Error(reason: string)

  /** How a stage went: its hash was current, or the Job was not ensured, not found, or seen so, and the hash stored. */
  datatype Stage = Skipped | NotEnsured | NotFound | Seen(job: JobStatus, stored: bool)

  /** What a pass found out, as far as it came. */
  datatype Reading = Reading(resolution: Option<Resolution>, migration: bool, pending: Option<seq<string>>,
                             jwtSecret: bool, keysSecret: bool, password: Option<string>,
                             jwt: Stage, passwordSync: Stage, marked: bool)

  const NOTHING := Reading(None, false, None, false, false, None, NotEnsured, NotEnsured, false)

  predicate IsCurrent(stage: Stage) {
    stage.Skipped? || (stage.Seen? && stage.job.failed == 0 && stage.job.succeeded > 0 && stage.stored)
  }

  /** A stage that did not make its hash current: failures first, then completion. */
  function StageVerdict(sync: Sync, stage: Stage): Result {
    if stage.NotEnsured? then Error(Reason(sync, "Failed"))
    else if !stage.Seen? then Error(Reason(sync, "GetFailed"))
    else if stage.job.failed > 0 then Error(Reason(sync, "Failed"))
    else if stage.job.succeeded == 0 then Requeue
    else Error("StatusUpdateFailed")
  }

  /** The result the source returns for what was read: each gate in its order, errors before waiting. */
  function Verdict(read: Reading): Result {
    if read.resolution.None? || read.resolution.value.Unsupported? then Error("DatabaseResolutionFailed")
    else if read.resolution.value.NotReady? then Requeue
    else if !read.migration then Error("MigrationFailed")
    else if read.pending.None? then Error("MigrationsListFailed")
    else if read.pending.value != [] then Requeue
    else if !read.jwtSecret then Error("JWTSecretFailed")
    else if !read.keysSecret then Error("KeysSecretFailed")
    else if read.password.None? then Error("DBPasswordValueFailed")
    else if !IsCurrent(read.jwt) then StageVerdict(Jwt, read.jwt)
    else if !IsCurrent(read.passwordSync) then StageVerdict(Password, read.passwordSync)
    else if !read.marked then Error("StatusUpdateFailed")
    else Result.Finished
  }

  // ---- the Migrations that still wait ----

  /** Exactly the names of the Migrations for this database that are not Ready, in ascending order. */
  ghost predicate NamesPending(s: Store, namespace: string, ref: DatabaseRef, pending: seq<string>) {
    && Preimage.Ascending(pending)
    && forall n :: n in pending <==> exists k :: k in s.objects && k.name == n && IsPending(s.objects[k], namespace, ref)
  }

  predicate HasStatus(s: Store, k: Key, job: JobStatus) {
    k in s.objects && s.objects[k].body.Job? && s.objects[k].body.jobStatus == job
  }

  /** Every object is stored under its own key. */
  ghost predicate KeyedRight(s: Store) {
    forall k :: k in s.objects ==> KeyOf(s.objects[k]) == k
  }

  lemma NonePending(s: Store, namespace: string, ref: DatabaseRef, pending: seq<string>)
    requires NamesPending(s, namespace, ref, pending)
    ensures pending == [] <==> MigrationsReady(s, namespace, ref)
  {
    if pending == [] {
      forall k | k in s.objects ensures !IsPending(s.objects[k], namespace, ref) {
        assert k.name !in pending;
      }
    } else {
      assert pending[0] in pending;
    }
  }

  predicate Listed(o: Object, namespace: string) { o.body.Migration? && o.meta.namespace == namespace }

  predicate ItemOf(s: Store, namespace: string, o: Object) {
    Listed(o, namespace) && KeyOf(o) in s.objects && s.objects[KeyOf(o)] == o
  }

  /** The Migrations of the namespace, in the order the server happens to list them. */
  method ListMigrations(s: Store, namespace: string) returns (items: seq<Object>)
    requires KeyedRight(s)
    ensures forall k :: k in s.objects && Listed(s.objects[k], namespace) ==> s.objects[k] in items
    ensures forall i :: 0 <= i < |items| ==> ItemOf(s, namespace, items[i])
    ensures forall i, j :: 0 <= i < j < |items| ==> items[i].meta.name != items[j].meta.name
  {
    items := [];
    var left := s.objects.Keys;
    while left != {}
      invariant left <= s.objects.Keys
      invariant forall k :: k in s.objects && k !in left && Listed(s.objects[k], namespace) ==> s.objects[k] in items
      invariant forall i :: 0 <= i < |items| ==> ItemOf(s, namespace, items[i]) && KeyOf(items[i]) !in left
      invariant forall i, j :: 0 <= i < j < |items| ==> items[i].meta.name != items[j].meta.name
      decreases left
    {
      var k :| k in left;
      if Listed(s.objects[k], namespace) {
        assert ItemOf(s, namespace, s.objects[k]);
        items := items + [s.objects[k]];
      }
      left := left - {k};
    }
  }

  lemma ItemsPending(s: Store, namespace: string, items: seq<Object>, ref: DatabaseRef, pending: seq<string>)
    requires KeyedRight(s) && forall k :: k in s.objects && Listed(s.objects[k], namespace) ==> s.objects[k] in items
    requires forall i :: 0 <= i < |items| ==> ItemOf(s, namespace, items[i])
    requires forall n :: n in pending <==>
               exists j :: 0 <= j < |items| && items[j].meta.name == n && IsPending(items[j], namespace, ref)
    ensures forall n :: n in pending <==>
              exists k :: k in s.objects && k.name == n && IsPending(s.objects[k], namespace, ref)
  {
    forall n
      ensures n in pending <==> exists k :: k in s.objects && k.name == n && IsPending(s.objects[k], namespace, ref)
    {
      if k :| k in s.objects && k.name == n && IsPending(s.objects[k], namespace, ref) {
        assert s.objects[k] in items && KeyOf(s.objects[k]) == k;
        var j :| 0 <= j < |items| && items[j] == s.objects[k];
      }
      if n in pending {
        var j :| 0 <= j < |items| && items[j].meta.name == n && IsPending(items[j], namespace, ref);
        assert ItemOf(s, namespace, items[j]);
      }
    }
  }

  /** The names of the Migrations for this database that are not Ready. */
  method PendingNames(s: Store, namespace: string, ref: DatabaseRef) returns (pending: seq<string>)
    requires KeyedRight(s)
    ensures NamesPending(s, namespace, ref, pending)
  {
    var items := ListMigrations(s, namespace);
    pending := [];
    for i := 0 to |items|
      invariant forall n :: n in pending <==> exists j :: 0 <= j < i && items[j].meta.name == n && IsPending(items[j], namespace, ref)
      invariant forall x, y :: 0 <= x < y < |pending| ==> pending[x] != pending[y]
    {
      var migration := items[i];
      if migration.body.migration.databaseRef != ref {
        continue;
      }
      if !migration.body.migrationReady {
        assert migration.meta.name !in pending;
        pending := pending + [migration.meta.name];
      }
    }
    Preimage.SortAscends(pending);
    ItemsPending(s, namespace, items, ref, pending);
    pending := Preimage.Sort(pending);
  }

  /** The trace has grown, and no other pass has begun. */
  ghost predicate Onward(before: seq<Entry>, after: seq<Entry>) {
    |before| <= |after| && after[..|before|] == before && forall j :: |before| <= j < |after| ==> !after[j].Began?
  }

  lemma OnwardTwice(a: seq<Entry>, b: seq<Entry>, c: seq<Entry>)
    requires Onward(a, b) && Onward(b, c)
    ensures Onward(a, c)
  {
    assert forall j :: 0 <= j < |b| ==> c[..|b|][j] == c[j];
    assert c[..|a|] == c[..|b|][..|a|];
  }

  lemma OnwardSame(trace: seq<Entry>)
    ensures Onward(trace, trace)
  {
  }

  lemma OnwardHolds(before: seq<Entry>, after: seq<Entry>, e: Entry)
    requires Onward(before, after) && e in before
    ensures e in after
  {
    assert e in after[..|before|];
  }

  /** The pass at work began with this object. */
  ghost predicate BeganWith(trace: seq<Entry>, began: CR) {
    Steps.Current(trace) != [] && Steps.Current(trace)[0] == Began(began)
  }

  /** The status is backed by what the pass at work has read since it began. */
  ghost predicate BackedNow(cfg: Config, trace: seq<Entry>, began: CR, status: ProjectStatus) {
    BeganWith(trace, began) && exists c :: Backed(cfg, Steps.Current(trace), status, c)
  }

  lemma JustBegan(trace: seq<Entry>, began: CR)
    requires trace != [] && trace[|trace| - 1] == Began(began)
    ensures BeganWith(trace, began)
  {
  }

  /** What the pass at work has read so far it has read later. */
  lemma {:induction false} CurrentOnward(before: seq<Entry>, after: seq<Entry>)
    requires Onward(before, after)
    ensures Steps.Current(after) == Steps.Current(before) + after[|before|..]
  {
    if |after| == |before| {
      assert after == before && after[|before|..] == [];
    } else {
      var init := after[..|after| - 1];
      assert init[..|before|] == before;
      CurrentOnward(before, init);
      assert after[|before|..] == init[|before|..] + [after[|after| - 1]];
    }
  }

  lemma StillBegan(before: seq<Entry>, after: seq<Entry>, began: CR)
    requires Onward(before, after) && BeganWith(before, began)
    ensures BeganWith(after, began)
  {
    CurrentOnward(before, after);
  }

  lemma StillBacked(cfg: Config, before: seq<Entry>, after: seq<Entry>, began: CR, status: ProjectStatus)
    requires Onward(before, after) && BackedNow(cfg, before, began, status)
    ensures BackedNow(cfg, after, began, status)
  {
    CurrentOnward(before, after);
    StillBegan(before, after, began);
    hide HashOf, IsTrue;
    var c :| Backed(cfg, Steps.Current(before), status, c);
    assert Backed(cfg, Steps.Current(after), status, c);
  }

  /** A pass that is about to store Ready=True is backed. */
  lemma ReadyPlace(s: State, cfg: Config, obj: CR, began: CR)
    requires Inv(s, cfg) && s.running.Some? && s.running.value.obj == obj && s.running.value.at.StatusGet?
    requires IsTrue(obj.status.conditions, READY) && BeganWith(s.trace, began)
    ensures BackedNow(cfg, s.trace, began, obj.status)
  {
    hide Backed, IsTrue, StageDone, TraceOk;
  }

  lemma ToStageFrame(s: State, cfg: Config, obj: CR, sync: Sync, c: Conn)
    ensures ToStage(s, cfg, obj, sync, c) == s.(running := ToStage(s, cfg, obj, sync, c).running)
    ensures forall t {:trigger ToStage(t, cfg, obj, sync, c)} ::
              ToStage(t, cfg, obj, sync, c).running == ToStage(s, cfg, obj, sync, c).running
  {
    hide HashOf, Past;
    PastFrame(s, s, cfg, obj, sync, c);
    forall t {:trigger ToStage(t, cfg, obj, sync, c)}
      ensures ToStage(t, cfg, obj, sync, c).running == ToStage(s, cfg, obj, sync, c).running
    {
      PastFrame(s, t, cfg, obj, sync, c);
    }
  }

  /** A call of a pass adds at most one entry, and begins no other pass. */
  lemma ContinueOnward(s: State, cfg: Config, a: Fate, generated: string -> string)
    ensures Onward(s.trace, Continue(s, cfg, a, generated).trace)
  {
    hide Begin, Finish, CallFor, ToStage, Arrive, ResolveRef, MigrationsReady, PasswordAt, SetReady, HashOf, DeleteFrom, FailReason;
    if s.running.Some? {
      var obj := s.running.value.obj;
      match s.running.value.at
      case GetPassword(db) =>
        var password := PasswordAt(s.world.store, cfg.namespace, db.password);
        if password.Some? {
          var c := Conn(db, password.value, obj.spec.jwtExpSec);
          var t := s.(world := s.world.(observed := s.world.observed + [c]));
          ToStageFrame(Note(t, SawPassword(db.password, password.value)), cfg, obj, Jwt, c);
        }
      case StatusGet(next, _) => ArriveFrame(s, cfg, obj, next);
      case StatusWrite(next, _, _) =>
        if s.world.proj.Some? {
          ArriveFrame(Rewritten(s, obj, next), cfg, obj, next);
        }
      case _ =>
    }
  }

  // ---- what was there in some state of the run ----

  ghost predicate ResolvedDuring(start: State, cfg: Config, run: seq<Steps.Action>, ref: DatabaseRef, resolution: Resolution) {
    exists i :: 0 <= i <= |run| && ResolveRef(Steps.Exec(start, cfg, run[..i]).world.databases, ref) == resolution
  }

  ghost predicate PendingDuring(start: State, cfg: Config, run: seq<Steps.Action>, ref: DatabaseRef, pending: seq<string>) {
    exists i :: 0 <= i <= |run| && NamesPending(Steps.Exec(start, cfg, run[..i]).world.store, cfg.namespace, ref, pending)
  }

  ghost predicate JobDuring(start: State, cfg: Config, run: seq<Steps.Action>, sync: Sync, job: JobStatus) {
    exists i :: 0 <= i <= |run| && HasStatus(Steps.Exec(start, cfg, run[..i]).world.store, JobKey(cfg, sync), job)
  }

  /** What was read is what was there. */
  ghost predicate WasThere(start: State, cfg: Config, run: seq<Steps.Action>, ref: DatabaseRef, read: Reading) {
    && (read.resolution.Some? ==> ResolvedDuring(start, cfg, run, ref, read.resolution.value))
    && (read.pending.Some? ==> PendingDuring(start, cfg, run, ref, read.pending.value))
    && (read.jwt.Seen? ==> JobDuring(start, cfg, run, Jwt, read.jwt.job))
    && (read.passwordSync.Seen? ==> JobDuring(start, cfg, run, Password, read.passwordSync.job))
  }

  lemma StillThere(start: State, cfg: Config, during: seq<Steps.Action>, run: seq<Steps.Action>, ref: DatabaseRef, read: Reading)
    requires during <= run && WasThere(start, cfg, during, ref, read)
    ensures WasThere(start, cfg, run, ref, read)
  {
    hide Steps.Exec, NamesPending, HasStatus, ResolveRef, JobKey;
    assert forall i :: 0 <= i <= |during| ==> run[..i] == during[..i];
    if read.jwt.Seen? { JobStill(start, cfg, during, run, Jwt, read.jwt.job); }
    if read.passwordSync.Seen? { JobStill(start, cfg, during, run, Password, read.passwordSync.job); }
    if read.resolution.Some? {
      var i :| 0 <= i <= |during| && ResolveRef(Steps.Exec(start, cfg, during[..i]).world.databases, ref) == read.resolution.value;
      assert run[..i] == during[..i];
    }
    if read.pending.Some? {
      var i :| 0 <= i <= |during| && NamesPending(Steps.Exec(start, cfg, during[..i]).world.store, cfg.namespace, ref, read.pending.value);
      assert run[..i] == during[..i];
    }
  }

  lemma JobStill(start: State, cfg: Config, during: seq<Steps.Action>, run: seq<Steps.Action>, sync: Sync, job: JobStatus)
    requires during <= run && JobDuring(start, cfg, during, sync, job)
    ensures JobDuring(start, cfg, run, sync, job)
  {
    var i :| 0 <= i <= |during| && HasStatus(Steps.Exec(start, cfg, during[..i]).world.store, JobKey(cfg, sync), job);
    assert run[..i] == during[..i];
  }

  class Controller {
    const cfg: Config
    const env: Surroundings
    var state: State
    var tick: nat
    ghost var start: State
    ghost var run: seq<Steps.Action>

    constructor (cfg: Config, env: Surroundings, state: State)
      ensures this.cfg == cfg && this.env == env && this.state == state && start == state && run == []
    {
      this.cfg, this.env, this.state, tick := cfg, env, state, 0;
      start, run := state, [];
    }

    /** The state is that of a run of the machine, with one pass if that has started. */
    ghost predicate Valid()
      reads this
    {
      && Inv(state, cfg) && Fair(env, cfg) && Faithful(cfg.server)
      && OrderlyRun(start, cfg, run) && state == Steps.Exec(start, cfg, run)
      && (run != [] ==> PassRun(start, cfg, run))
    }

    /** Where the pass stands. */
    ghost predicate At(obj: CR, at: Place)
      reads this
    {
      run != [] && state.running == Some(Running(obj, at))
    }

    /** How many actions the pass has taken. */
    ghost function Taken(): nat
      reads this
    {
      OwnActions(run)
    }

    /** Everybody else acts. */
    method Await(ghost obj: CR, ghost at: Place) returns (a: Fate)
      requires Valid() && At(obj, at)
      modifies this
      ensures Valid() && At(obj, at) && start == old(start) && state.trace == old(state.trace)
      ensures old(run) <= run && Taken() == old(Taken()) && !a.Dies?
    {
      hide Inv, Steps.Step, Steps.Exec, OrderlyRun, Fair, PassRun, OwnActions, Foreign, Faithful;
      var theirs := env.others(tick, state);
      Welcome(env, cfg, tick, state);
      OthersKeepPass(state, cfg, theirs);
      ExecInv(state, cfg, theirs);
      RunAppend(start, cfg, run, theirs);
      PassRunWaits(start, cfg, run, theirs);
      state, run := Steps.Exec(state, cfg, theirs), run + theirs;
      a := env.fate(tick);
      tick := tick + 1;
    }

    /** One API call of the pass. */
    method Advance(a: Fate, generated: string -> string)
      requires Valid() && run != [] && state.running.Some?
      modifies this
      ensures Valid() && start == old(start) && state == Continue(old(state), cfg, a, generated)
      ensures run != [] && old(run) <= run && Taken() == old(Taken()) + 1 && Onward(old(state.trace), state.trace)
    {
      hide Inv, Fair, Continue, PassRun, OwnActions, Faithful;
      StepInv(state, cfg, Next(a, generated));
      ContinueOnward(state, cfg, a, generated);
      AgainOrderly(start, cfg, run, Next(a, generated));
      PassRunGoesOn(start, cfg, run, Next(a, generated));
      state, run := Continue(state, cfg, a, generated), run + [Next(a, generated)];
    }

    method Enter()
      requires Valid() && run == [] && state.world.proj.Some? && state.running.None?
      modifies this
      ensures Valid() && start == old(start) && At(old(state.world.proj.value), Resolve) && Taken() == 1
      ensures state.trace == old(state.trace) + [Began(old(state.world.proj.value))]
    {
      hide Inv, Fair, PassRun, OwnActions, Faithful;
      StepInv(state, cfg, Start);
      AgainOrderly(start, cfg, run, Start);
      PassRunStarts(start, cfg);
      assert run + [Start] == [Start];
      state, run := BeginPass(state), run + [Start];
    }

    /** One attempt of a status write: `None` asks for another one. */
    method Attempt(obj: CR, ghost next: Then, left: nat) returns (ok: Option<bool>)
      requires Valid() && At(obj, StatusGet(next, left)) && left > 0
      modifies this
      ensures Valid() && start == old(start) && run != [] && old(run) <= run && Taken() <= old(Taken()) + 2
      ensures Onward(old(state.trace), state.trace)
      ensures ok == Some(true) ==> state.world.proj.Some? && state.world.proj.value.status == obj.status
                                   && state.running == Arrive(state, cfg, obj, next).running
      ensures ok == Some(false) ==> state.running.None?
      ensures ok.None? ==> if left > 1 then At(obj, StatusGet(next, left - 1)) else state.running.None?
    {
      hide Valid, OwnActions, Arrive, Onward;
      var a := Await(obj, StatusGet(next, left));
      var latest, version := state.world.proj, state.version;
      ghost var first := state.trace;
      ArriveFrame(state, cfg, obj, next);
      Advance(a, _ => "");
      if !a.Fine? || latest.None? || latest.value.status == obj.status {
        return Some(a.Fine? && latest.Some?);
      }
      a := Await(obj, StatusWrite(next, version, left));
      ghost var second := state.trace;
      var found := state.world.proj.Some?;
      var conflict := found && state.version != version;
      if found {
        ArriveFrame(Rewritten(state, obj, next), cfg, obj, next);
      }
      Advance(a, _ => "");
      OnwardTwice(first, second, state.trace);
      return if conflict && a.Fine? then None else Some(a.Fine? && found);
    }

    /**
     Re-reads the object, copies the status and writes it, at most five times while the
     write conflicts. On success the stored status is that of `obj`, and the pass goes on
     to what is next; otherwise it has ended.
     */
    method UpdateStatus(obj: CR, ghost next: Then) returns (ok: bool)
      requires Valid() && At(obj, StatusGet(next, ATTEMPTS))
      modifies this
      ensures Valid() && start == old(start) && run != [] && old(run) <= run && Taken() <= old(Taken()) + 2 * ATTEMPTS
      ensures Onward(old(state.trace), state.trace)
      ensures ok ==> state.world.proj.Some? && state.world.proj.value.status == obj.status
                     && state.running == Arrive(state, cfg, obj, next).running
      ensures !ok ==> state.running.None?
    {
      var left := ATTEMPTS;
      while left > 0
        invariant Valid() && start == old(start) && run != [] && old(run) <= run && 0 <= left <= ATTEMPTS
        invariant Onward(old(state.trace), state.trace) && Taken() <= old(Taken()) + 2 * (ATTEMPTS - left)
        invariant if left > 0 then At(obj, StatusGet(next, left)) else state.running.None?
      {
        hide Valid, OwnActions, Arrive, Onward;
        ghost var before := state.trace;
        var outcome := Attempt(obj, next, left);
        OnwardTwice(old(state.trace), before, state.trace);
        if outcome.Some? {
          return outcome.value;
        }
        left := left - 1;
      }
      return false;
    }

    // ---- the children ----

    /** The place a pass goes to once the child is ensured. */
    ghost function PlaceAfter(child: Child): Place {
      match child
      case TheMigration(db) => List(db)
      case JWTSecret(db) => Fetch(KeysSecret(db))
      case KeysSecret(db) => GetPassword(db)
      case SyncJob(sync, c) => FetchJob(sync, c)
    }

    /** What is recorded of it. */
    ghost predicate Recorded(child: Child)
      reads this
    {
      && (child.JWTSecret? ==> HeldSecret("-jwt", JWT_KEYS) in state.trace)
      && (child.KeysSecret? ==> HeldSecret("-keys", KEYS_KEYS) in state.trace)
    }

    /** Reads, decides, and creates or updates, unless nothing is to do. */
    method EnsureChild(project: CR, child: Child) returns (ok: bool)
      requires Valid() && At(project, Fetch(child)) && !Deletes(project, child)
      modifies this
      ensures Valid() && start == old(start) && run != [] && old(run) <= run && Taken() <= old(Taken()) + 2
      ensures Onward(old(state.trace), state.trace)
      ensures ok ==> At(project, PlaceAfter(child)) && Recorded(child)
      ensures !ok ==> At(SetReady(project, false, FailReason(child)), StatusGet(Stop, ATTEMPTS))
    {
      hide Valid, OwnActions, Begin, Finish, Onward, SetReady, FailReason;
      var e, t := env, tick;
      var generated := (k: string) => e.generated(t, k);
      var a := Await(project, Fetch(child));
      var attempt := Begin(state.world.store, CallFor(cfg, project, child, generated));
      ghost var first := state.trace;
      hide CallFor;
      Advance(a, generated);
      if !a.Fine? {
        return false;
      }
      if attempt.Finished? {
        return !attempt.result.Failed?;
      }
      a := Await(project, Put(child, attempt));
      ghost var second := state.trace;
      var r := Finish(state.world.store, cfg.server, attempt).1;
      Advance(a, generated);
      OnwardTwice(first, second, state.trace);
      return a.Fine? && !r.Failed?;
    }

    /** Deletes the Migration, if there is one, when the Project does not want it. */
    method EnsureMigration1(project: CR, db: Resolved) returns (ok: bool)
      requires Valid() && At(project, Fetch(TheMigration(db)))
      modifies this
      ensures Valid() && start == old(start) && run != [] && old(run) <= run && Taken() <= old(Taken()) + 2
      ensures Onward(old(state.trace), state.trace)
      ensures ok ==> At(project, List(db))
      ensures !ok ==> At(SetReady(project, false, "MigrationFailed"), StatusGet(Stop, ATTEMPTS))
    {
      hide Valid, OwnActions, Onward, SetReady, DeleteFrom;
      if !Deletes(project, TheMigration(db)) {
        ok := EnsureChild(project, TheMigration(db));
        return;
      }
      var a := Await(project, Fetch(TheMigration(db)));
      Advance(a, _ => "");
      return a.Fine?;
    }

    method EnsureSecrets(project: CR, db: Resolved) returns (jwt: bool, keys: bool)
      requires Valid() && At(project, Fetch(JWTSecret(db)))
      modifies this
      ensures Valid() && start == old(start) && run != [] && old(run) <= run && Taken() <= old(Taken()) + 4
      ensures Onward(old(state.trace), state.trace) && (keys ==> jwt)
      ensures keys ==> At(project, GetPassword(db))
                       && HeldSecret("-jwt", JWT_KEYS) in state.trace && HeldSecret("-keys", KEYS_KEYS) in state.trace
      ensures jwt && !keys ==> At(SetReady(project, false, "KeysSecretFailed"), StatusGet(Stop, ATTEMPTS))
      ensures !jwt ==> At(SetReady(project, false, "JWTSecretFailed"), StatusGet(Stop, ATTEMPTS))
    {
      hide Valid, OwnActions, Onward, SetReady;
      jwt := EnsureChild(project, JWTSecret(db));
      if !jwt {
        return false, false;
      }
      ghost var first := state.trace;
      keys := EnsureChild(project, KeysSecret(db));
      OnwardTwice(old(state.trace), first, state.trace);
      OnwardHolds(first, state.trace, HeldSecret("-jwt", JWT_KEYS));
    }

    // ---- the gates that only read ----

    lemma StoreOk()
      requires Valid()
      ensures KeyedRight(state.world.store)
    {
      hide TraceOk, PassOk;
    }

    lemma NowDuring()
      requires Valid()
      ensures state == Steps.Exec(start, cfg, run)
    {
    }

    method ResolveDatabase(project: CR) returns (r: Option<Resolution>)
      requires Valid() && At(project, Resolve)
      modifies this
      ensures Valid() && start == old(start) && run != [] && old(run) <= run && Taken() <= old(Taken()) + 1
      ensures Onward(old(state.trace), state.trace)
      ensures r.Some? ==> ResolvedDuring(start, cfg, run, project.spec.databaseRef, r.value)
      ensures r.Some? && r.value.Ready? ==>
        At(project, Fetch(TheMigration(r.value.db))) && ReadDatabase(project.spec.databaseRef, r.value.db) in state.trace
      ensures r.None? || !r.value.Ready? ==>
        At(SetReady(project, false, if r.Some? && r.value.NotReady? then "DatabaseNotReady" else "DatabaseResolutionFailed"),
           StatusGet(Stop, ATTEMPTS))
    {
      hide Valid, OwnActions, Onward, SetReady, ResolveRef, Steps.Exec;
      var a := Await(project, Resolve);
      r := if a.Fine? then Some(ResolveRef(state.world.databases, project.spec.databaseRef)) else None;
      NowDuring();
      ghost var during := run;
      Advance(a, _ => "");
      assert run[..|during|] == during;
    }

    /** Exactly the Migrations for this database that still wait, by name; none of them means ready. */
    method CheckMigrations(project: CR, db: Resolved) returns (pending: Option<seq<string>>)
      requires Valid() && At(project, List(db))
      modifies this
      ensures Valid() && start == old(start) && run != [] && old(run) <= run && Taken() <= old(Taken()) + 1
      ensures Onward(old(state.trace), state.trace)
      ensures pending.Some? ==> PendingDuring(start, cfg, run, project.spec.databaseRef, pending.value)
      ensures pending == Some([]) ==>
        At(project, Fetch(JWTSecret(db))) && SawMigrations(project.spec.databaseRef) in state.trace
      ensures pending != Some([]) ==>
        At(SetReady(project, false, if pending.Some? then "MigrationsNotReady" else "MigrationsListFailed"), StatusGet(Stop, ATTEMPTS))
    {
      hide Valid, OwnActions, Onward, SetReady, MigrationsReady, Steps.Exec, NamesPending, KeyedRight;
      var a := Await(project, List(db));
      pending := None;
      if a.Fine? {
        StoreOk();
        var names := PendingNames(state.world.store, cfg.namespace, project.spec.databaseRef);
        NonePending(state.world.store, cfg.namespace, project.spec.databaseRef, names);
        pending := Some(names);
      }
      NowDuring();
      ghost var during := run;
      Advance(a, _ => "");
      assert run[..|during|] == during;
    }

    /** Gets past the gate with the value under the referenced key, if there is one. */
    method GetDBPasswordValue(project: CR, db: Resolved) returns (r: Option<string>)
      requires Valid() && At(project, GetPassword(db))
      modifies this
      ensures Valid() && start == old(start) && run != [] && old(run) <= run && Taken() <= old(Taken()) + 1
      ensures Onward(old(state.trace), state.trace)
      ensures r.Some? ==>
        && SawPassword(db.password, r.value) in state.trace
        && state.running == ToStage(state, cfg, project, Jwt, Conn(db, r.value, project.spec.jwtExpSec)).running
      ensures r.None? ==> At(SetReady(project, false, "DBPasswordValueFailed"), StatusGet(Stop, ATTEMPTS))
    {
      hide Valid, OwnActions, Onward, SetReady, ToStage;
      var a := Await(project, GetPassword(db));
      var k := Key(KindSecret, cfg.namespace, db.password.name);
      var objects := state.world.store.objects;
      r := None;
      if a.Fine? && k in objects && objects[k].body.Secret? && objects[k].body.data.Some? {
        var data := objects[k].body.data.value;
        if db.password.key in data {
          r := Some(data[db.password.key]);
        }
      }
      if r.Some? {
        var c := Conn(db, r.value, project.spec.jwtExpSec);
        var t := state.(world := state.world.(observed := state.world.observed + [c]));
        ToStageFrame(Note(t, SawPassword(db.password, r.value)), cfg, project, Jwt, c);
      }
      Advance(a, _ => "");
    }

    // ---- the sync Jobs ----

    /** Reads the Job back. What it saw it records only if it has succeeded without failures. */
    method FetchSyncJob(project: CR, c: Conn, sync: Sync) returns (job: Option<JobStatus>)
      requires Valid() && At(project, FetchJob(sync, c))
      modifies this
      ensures Valid() && start == old(start) && run != [] && old(run) <= run && Taken() <= old(Taken()) + 1
      ensures Onward(old(state.trace), state.trace)
      ensures job.Some? ==> JobDuring(start, cfg, run, sync, job.value)
      ensures job.None? ==> state.running.None?
      ensures job.Some? && job.value.failed > 0 ==> At(SetReady(project, false, Reason(sync, "Failed")), StatusGet(Stop, ATTEMPTS))
      ensures job.Some? && job.value.failed == 0 && job.value.succeeded == 0 ==>
        At(SetReady(project, false, Reason(sync, "InProgress")), StatusGet(Stop, ATTEMPTS))
      ensures job.Some? && job.value.failed == 0 && job.value.succeeded > 0 ==>
        && At(WithHash(sync, project, HashOf(cfg, sync, c)), StatusGet(AfterHash(sync, c), ATTEMPTS))
        && SawJob(sync) in state.trace
    {
      hide Valid, OwnActions, Onward, SetReady, HashOf, Steps.Exec, JobKey, Reason;
      var a := Await(project, FetchJob(sync, c));
      var k := JobKey(cfg, sync);
      var objects := state.world.store.objects;
      job := if a.Fine? && k in objects && objects[k].body.Job? then Some(objects[k].body.jobStatus) else None;
      NowDuring();
      ghost var during := run;
      Advance(a, _ => "");
      assert run[..|during|] == during;
    }

    /**
     One sync Job: failures first, then completion. The pass goes past it only if the
     hash was current, or is stored after the Job was seen succeeded without failures.
     */
    method RunSync(project: CR, c: Conn, sync: Sync) returns (q: CR, stage: Stage)
      requires Valid() && run != [] && state.running == ToStage(state, cfg, project, sync, c).running
      modifies this
      ensures Valid() && start == old(start) && run != [] && old(run) <= run && Taken() <= old(Taken()) + 3 + 2 * ATTEMPTS
      ensures Onward(old(state.trace), state.trace)
      ensures stage.Seen? ==> JobDuring(start, cfg, run, sync, stage.job)
      ensures IsCurrent(stage) ==>
        && q == WithHash(sync, project, HashOf(cfg, sync, c))
        && state.running == Past(state, cfg, q, sync, c).running
        && if stage.Skipped? then state == old(state)
           else state.world.proj.Some? && state.world.proj.value.status == q.status
      ensures !IsCurrent(stage) ==> state.running.None?
    {
      hide Valid, OwnActions, Onward, SetReady, HashOf, Past, JobKey, Reason, Steps.Exec;
      if HashOf(cfg, sync, c) == StatusHash(sync, project) {
        assert Onward(state.trace, state.trace) by { OnwardSame(state.trace); }
        return project, Skipped;
      }
      var ensured := EnsureChild(project, SyncJob(sync, c));
      ghost var first := state.trace;
      if !ensured {
        var _ := UpdateStatus(SetReady(project, false, Reason(sync, "Failed")), Stop);
        OnwardTwice(old(state.trace), first, state.trace);
        return project, NotEnsured;
      }
      var job := FetchSyncJob(project, c, sync);
      ghost var second, during := state.trace, run;
      OnwardTwice(old(state.trace), first, second);
      if job.None? {
        return project, Stage.NotFound;
      }
      q, stage := project, Seen(job.value, false);
      if job.value.failed > 0 {
        var _ := UpdateStatus(SetReady(project, false, Reason(sync, "Failed")), Stop);
      } else if job.value.succeeded == 0 {
        var _ := UpdateStatus(SetReady(project, false, Reason(sync, "InProgress")), Stop);
      } else {
        q := WithHash(sync, project, HashOf(cfg, sync, c));
        var ok := UpdateStatus(q, AfterHash(sync, c));
        stage := Seen(job.value, ok);
      }
      OnwardTwice(old(state.trace), second, state.trace);
      JobStill(start, cfg, during, run, sync, job.value);
    }

    // ---- a whole pass ----

    /** Reports that the Project is not ready; what becomes of the report does not matter. */
    method ReportNotReady(project: CR, reason: string, ghost read: Reading)
      requires Valid() && At(SetReady(project, false, reason), StatusGet(Stop, ATTEMPTS))
      requires WasThere(start, cfg, run, project.spec.databaseRef, read)
      modifies this
      ensures Valid() && start == old(start) && run != [] && old(run) <= run && Taken() <= old(Taken()) + 2 * ATTEMPTS
      ensures Onward(old(state.trace), state.trace) && state.running.None? && WasThere(start, cfg, run, project.spec.databaseRef, read)
    {
      hide Valid, OwnActions, Onward, SetReady, WasThere, Steps.Exec;
      ghost var during := run;
      var _ := UpdateStatus(SetReady(project, false, reason), Stop);
      StillThere(start, cfg, during, run, project.spec.databaseRef, read);
    }

    /** The database and the Migrations. */
    method PassMigrations(project: CR) returns (db: Option<Resolved>, r: Result, ghost read: Reading)
      requires Valid() && At(project, Resolve)
      modifies this
      ensures Valid() && start == old(start) && run != [] && old(run) <= run && WasThere(start, cfg, run, project.spec.databaseRef, read)
      ensures Onward(old(state.trace), state.trace) && Taken() <= old(Taken()) + if db.Some? then 4 else 4 + 2 * ATTEMPTS
      ensures db.Some? ==> At(project, Fetch(JWTSecret(db.value)))
                           && read == NOTHING.(resolution := Some(Ready(db.value)), migration := true, pending := Some([]))
      ensures db.None? ==> state.running.None? && r == Verdict(read) && !r.Finished?
    {
      hide Valid, OwnActions, Onward, SetReady, ResolvedDuring, PendingDuring, JobDuring, Steps.Exec;
      ghost var ref := project.spec.databaseRef;
      r, read, db := Result.Finished, NOTHING, None;
      var resolution := ResolveDatabase(project);
      read := read.(resolution := resolution);
      ghost var first, during := state.trace, run;
      if resolution.None? || !resolution.value.Ready? {
        var waits := resolution.Some? && resolution.value.NotReady?;
        ReportNotReady(project, if waits then "DatabaseNotReady" else "DatabaseResolutionFailed", read);
        OnwardTwice(old(state.trace), first, state.trace);
        return None, if waits then Requeue else Error("DatabaseResolutionFailed"), read;
      }
      var ensured := EnsureMigration1(project, resolution.value.db);
      read := read.(migration := ensured);
      StillThere(start, cfg, during, run, ref, read);
      OnwardTwice(old(state.trace), first, state.trace);
      first, during := state.trace, run;
      if !ensured {
        ReportNotReady(project, "MigrationFailed", read);
        OnwardTwice(old(state.trace), first, state.trace);
        return None, Error("MigrationFailed"), read;
      }
      var pending := CheckMigrations(project, resolution.value.db);
      StillThere(start, cfg, during, run, ref, read);
      read := read.(pending := pending);
      OnwardTwice(old(state.trace), first, state.trace);
      first := state.trace;
      if pending != Some([]) {
        ReportNotReady(project, if pending.Some? then "MigrationsNotReady" else "MigrationsListFailed", read);
        OnwardTwice(old(state.trace), first, state.trace);
        return None, if pending.Some? then Requeue else Error("MigrationsListFailed"), read;
      }
      db := Some(resolution.value.db);
    }

    /** The Secrets and the password. */
    method PassSecrets(project: CR, db: Resolved, ghost read0: Reading)
      returns (password: Option<string>, r: Result, ghost read: Reading)
      requires Valid() && At(project, Fetch(JWTSecret(db))) && WasThere(start, cfg, run, project.spec.databaseRef, read0)
      requires read0 == NOTHING.(resolution := Some(Ready(db)), migration := true, pending := Some([]))
      modifies this
      ensures Valid() && start == old(start) && run != [] && old(run) <= run
      ensures WasThere(start, cfg, run, project.spec.databaseRef, read)
      ensures Onward(old(state.trace), state.trace) && Taken() <= old(Taken()) + if password.Some? then 5 else 5 + 2 * ATTEMPTS
      ensures read == read0.(jwtSecret := read.jwtSecret, keysSecret := read.keysSecret, password := password)
      ensures password.Some? ==>
        && read.jwtSecret && read.keysSecret
        && state.running == ToStage(state, cfg, project, Jwt, Conn(db, password.value, project.spec.jwtExpSec)).running
      ensures password.None? ==> state.running.None? && r == Verdict(read) && !r.Finished?
    {
      hide Valid, OwnActions, Onward, SetReady, ResolvedDuring, PendingDuring, JobDuring, Steps.Exec, ToStage;
      ghost var ref := project.spec.databaseRef;
      ghost var during := run;
      r, password := Result.Finished, None;
      var jwt, keys := EnsureSecrets(project, db);
      read := read0.(jwtSecret := jwt, keysSecret := keys);
      StillThere(start, cfg, during, run, ref, read);
      ghost var first := state.trace;
      if !jwt || !keys {
        ReportNotReady(project, if jwt then "KeysSecretFailed" else "JWTSecretFailed", read);
        OnwardTwice(old(state.trace), first, state.trace);
        return None, Error(if jwt then "KeysSecretFailed" else "JWTSecretFailed"), read;
      }
      during := run;
      password := GetDBPasswordValue(project, db);
      StillThere(start, cfg, during, run, ref, read);
      read := read.(password := password);
      OnwardTwice(old(state.trace), first, state.trace);
      first := state.trace;
      if password.None? {
        ReportNotReady(project, "DBPasswordValueFailed", read);
        OnwardTwice(old(state.trace), first, state.trace);
        return None, Error("DBPasswordValueFailed"), read;
      }
    }

    /** Ready is stored, and stands for what this pass has read. */
    ghost predicate ReadyStored(began: CR)
      reads this
    {
      && ProjectReady.IsReady(state.world)
      && BackedNow(cfg, state.trace, began, state.world.proj.value.status)
    }

    /** Marks the Project ready: on success this is what is stored. */
    method MarkReady(project: CR, ghost began: CR) returns (ok: bool)
      requires Valid() && At(SetReady(project, true, "ReconcileSucceeded"), StatusGet(Stop, ATTEMPTS))
      requires BeganWith(state.trace, began)
      modifies this
      ensures Valid() && start == old(start) && run != [] && old(run) <= run && Taken() <= old(Taken()) + 2 * ATTEMPTS
      ensures Onward(old(state.trace), state.trace) && state.running.None?
      ensures ok ==> ReadyStored(began)
    {
      ghost var first := state.trace;
      ProjectReady.NotReadyNow(project, true, "ReconcileSucceeded");
      ReadyPlace(state, cfg, SetReady(project, true, "ReconcileSucceeded"), began);
      hide Valid, OwnActions, Onward, SetReady, BackedNow, Steps.Exec, BeganWith, IsTrue;
      ok := UpdateStatus(SetReady(project, true, "ReconcileSucceeded"), Stop);
      if ok {
        StillBacked(cfg, first, state.trace, began, state.world.proj.value.status);
      }
    }

    /** The two sync stages, and Ready. */
    method PassSync(project: CR, c: Conn, ghost read0: Reading, ghost began: CR) returns (r: Result, ghost read: Reading)
      requires Valid() && run != [] && state.running == ToStage(state, cfg, project, Jwt, c).running
      requires WasThere(start, cfg, run, project.spec.databaseRef, read0) && BeganWith(state.trace, began)
      requires read0.resolution.Some? && read0.resolution.value.Ready? && read0.migration && read0.pending == Some([])
      requires read0.jwtSecret && read0.keysSecret && read0.password.Some?
      requires read0.jwt == NotEnsured && read0.passwordSync == NotEnsured && !read0.marked
      modifies this
      ensures Valid() && start == old(start) && run != [] && old(run) <= run && state.running.None?
      ensures WasThere(start, cfg, run, project.spec.databaseRef, read)
      ensures Onward(old(state.trace), state.trace) && Taken() <= old(Taken()) + 6 + 6 * ATTEMPTS
      ensures read == read0.(jwt := read.jwt, passwordSync := read.passwordSync, marked := read.marked)
      ensures r == Verdict(read) && (r.Finished? ==> ReadyStored(began))
    {
      hide Valid, OwnActions, Onward, SetReady, ResolvedDuring, PendingDuring, JobDuring, Steps.Exec, ToStage, HashOf, BeganWith,
        ReadyStored;
      ghost var ref := project.spec.databaseRef;
      ghost var during, first := run, state.trace;
      var project1, jwt := RunSync(project, c, Jwt);
      StillThere(start, cfg, during, run, ref, read0);
      read := read0.(jwt := jwt);
      if !IsCurrent(jwt) {
        return StageVerdict(Jwt, jwt), read;
      }
      StillBegan(first, state.trace, began);
      ghost var second := state.trace;
      during := run;
      assert state.running == ToStage(state, cfg, project1, Password, c).running;
      var project2, password := RunSync(project1, c, Password);
      StillThere(start, cfg, during, run, ref, read);
      read := read.(passwordSync := password);
      OnwardTwice(first, second, state.trace);
      if !IsCurrent(password) {
        return StageVerdict(Password, password), read;
      }
      StillBegan(first, state.trace, began);
      second, during := state.trace, run;
      var marked := MarkReady(project2, began);
      StillThere(start, cfg, during, run, ref, read);
      read := read.(marked := marked);
      OnwardTwice(first, second, state.trace);
      return if marked then Result.Finished else Error("StatusUpdateFailed"), read;
    }

    /**
     One pass, gate by gate, with its error paths. Before each API call everybody else may
     act, and the call may fail. If the Project exists, the run starts a pass and makes its
     calls, and no others, until it has ended, at most forty-six actions. The result is the
     one the source returns for what was read, and what was read is what was there. If it
     is success, Ready is stored, and stands for what this very pass read.
     */
    method Reconcile() returns (r: Result, ghost read: Reading)
      requires Valid() && run == [] && state.running.None?
      modifies this
      ensures Valid() && state.running.None? && start == old(start)
      ensures old(state.world.proj).None? ==> r == Result.Finished && state == old(state) && run == []
      ensures old(state.world.proj).Some? ==>
        var began := old(state.world.proj).value;
        && run != [] && Taken() <= 46 && r == Verdict(read) && WasThere(start, cfg, run, began.spec.databaseRef, read)
        && (r.Finished? ==> ReadyStored(began))
    {
      hide Valid, OwnActions, Onward, SetReady, WasThere, Steps.Exec, ToStage, BeganWith, ReadyStored;
      read := NOTHING;
      if state.world.proj.None? {
        return Result.Finished, read;
      }
      var project := state.world.proj.value;
      Enter();
      JustBegan(state.trace, project);
      ghost var first := state.trace;
      var db;
      db, r, read := PassMigrations(project);
      if db.None? {
        return;
      }
      ghost var second := state.trace;
      var password;
      password, r, read := PassSecrets(project, db.value, read);
      OnwardTwice(first, second, state.trace);
      if password.None? {
        return;
      }
      StillBegan(first, state.trace, project);
      r, read := PassSync(project, Conn(db.value, password.value, project.spec.jwtExpSec), read, project);
    }
  }

  /** Where a pass goes from here depends on what it has in memory, and nothing else moves. */
  lemma ArriveFrame(s: State, cfg: Config, obj: CR, next: Then)
    ensures Arrive(s, cfg, obj, next) == s.(running := Arrive(s, cfg, obj, next).running)
    ensures forall t {:trigger Arrive(t, cfg, obj, next)} :: Arrive(t, cfg, obj, next).running == Arrive(s, cfg, obj, next).running
  {
    forall t {:trigger Arrive(t, cfg, obj, next)} ensures Arrive(t, cfg, obj, next).running == Arrive(s, cfg, obj, next).running {
      if next.AfterHash? {
        PastFrame(s, t, cfg, obj, next.sync, next.c);
      }
    }
    if next.AfterHash? {
      PastFrame(s, s, cfg, obj, next.sync, next.c);
    }
  }

  lemma PastFrame(s: State, t: State, cfg: Config, obj: CR, sync: Sync, c: Conn)
    ensures Past(s, cfg, obj, sync, c) == s.(running := Past(t, cfg, obj, sync, c).running)
  {
    hide HashOf, SetReady;
    if sync.Jwt? {
      assert Past(s, cfg, obj, Jwt, c) == ToStage(s, cfg, obj, Password, c);
      assert Past(t, cfg, obj, Jwt, c) == ToStage(t, cfg, obj, Password, c);
    }
  }
}
