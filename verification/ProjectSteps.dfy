/**
 The Project pass of `Project`, cut at its API calls. Between any two calls users, the Job
 controller and others act, the status may be edited, and the Project may go. The trace
 records what each gate read; the results say what stands behind a stored Ready=True, and
 that a pass nobody disturbs is the one step of `Project`.
 */
module ProjectSteps {
  import opened Wrappers
  import opened Objects
  import opened Store
  import opened Ensure
  import opened Status
  import opened Database
  import opened Project
  import opened ProjectChildren
  import ProjectReady
  import ProjectSync

  // ---- state ----

  /** What an `EnsureResource` of the pass is for, with what the pass knows by then. */
  datatype Child =
    | TheMigration(db: Resolved)
    | JWTSecret(db: Resolved)
    | KeysSecret(db: Resolved)
    | SyncJob(sync: Sync, c: Conn)

  /** What a pass does once its status write has succeeded. */
  datatype Then = Stop | AfterHash(sync: Sync, c: Conn)

  /** Where a pass stands before its next API call; `left` counts the attempts of a status write. */
  datatype Place =
    | Resolve
    | Fetch(child: Child)
    | Put(child: Child, attempt: Attempt)
    | List(db: Resolved)
    | GetPassword(db: Resolved)
    | FetchJob(sync: Sync, c: Conn)
    | StatusGet(next: Then, left: nat)
    | StatusWrite(next: Then, seen: nat, left: nat)

  /** A pass with the object it has in memory. */
  datatype Running = Running(obj: CR, at: Place)

  /** What a pass read, and what it wrote into the status. */
  datatype Entry =
    | Began(obj: CR)
    | ReadDatabase(ref: DatabaseRef, db: Resolved)
    | SawMigrations(ref: DatabaseRef)
    | HeldSecret(suffix: string, keys: seq<string>)
    | SawPassword(at: KeyRef, password: string)
    | SawJob(sync: Sync)
    | Wrote(uid: string, status: ProjectStatus)

  /** `version` is that of the stored Project; passes of one Project do not overlap. */
  datatype State = State(world: World, version: nat, clock: nat, running: Option<Running>, trace: seq<Entry>)

  // ---- one API call of a pass ----

  function Goto(s: State, obj: CR, at: Place): State { s.(running := Some(Running(obj, at))) }

  function Leave(s: State): State { s.(running := None) }

  function Note(s: State, e: Entry): State { s.(trace := s.trace + [e]) }

  function SetStore(s: State, store: Store): State { s.(world := s.world.(store := store)) }

  function ReportNow(s: State, obj: CR, reason: string): State {
    Goto(s, SetReady(obj, false, reason), StatusGet(Stop, ATTEMPTS))
  }

  function BeginPass(s: State): State {
    if s.running.Some? || s.world.proj.None? then s
    else Goto(Note(s, Began(s.world.proj.value)), s.world.proj.value, Resolve)
  }

  function Continue(s: State, cfg: Config, a: Fate, generated: string -> string): State {
    if s.running.None? then s
    else
      var obj := s.running.value.obj;
      match s.running.value.at
      case Resolve => DoResolve(s, obj, a)
      case Fetch(child) => DoFetch(s, cfg, obj, child, a, generated)
      case Put(child, attempt) => DoPut(s, cfg, obj, child, attempt, a)
      case List(db) => DoList(s, cfg, obj, db, a)
      case GetPassword(db) => DoGetPassword(s, cfg, obj, db, a)
      case FetchJob(sync, c) => DoFetchJob(s, cfg, obj, sync, c, a)
      case StatusGet(next, left) =>
        if !a.Fine? || s.world.proj.None? then Leave(s)
        else if s.world.proj.value.status == obj.status then Arrive(s, cfg, obj, next)
        else Goto(s, obj, StatusWrite(next, s.version, left))
      case StatusWrite(next, seen, left) => DoStatusWrite(s, cfg, obj, next, seen, left, a)
  }

  function DoResolve(s: State, obj: CR, a: Fate): State {
    var r := ResolveRef(s.world.databases, obj.spec.databaseRef);
    if a.Dies? then Leave(s)
    else if !a.Fine? || r.Unsupported? then ReportNow(s, obj, "DatabaseResolutionFailed")
    else if r.NotReady? then ReportNow(s, obj, "DatabaseNotReady")
    else Goto(Note(s, ReadDatabase(obj.spec.databaseRef, r.db)), obj, Fetch(TheMigration(r.db)))
  }

  function CallFor(cfg: Config, obj: CR, child: Child, generated: string -> string): Call {
    match child
    case TheMigration(_) => MigrationCall(cfg, obj)
    case JWTSecret(_) => SecretCall(cfg, obj, "-jwt", JWT_KEYS, generated)
    case KeysSecret(_) => SecretCall(cfg, obj, "-keys", KEYS_KEYS, generated)
    case SyncJob(sync, c) => JobCall(cfg, obj, sync, c)
  }

  function FailReason(child: Child): string {
    match child
    case TheMigration(_) => "MigrationFailed"
    case JWTSecret(_) => "JWTSecretFailed"
    case KeysSecret(_) => "KeysSecretFailed"
    case SyncJob(sync, _) => Reason(sync, "Failed")
  }

  function Ensured(s: State, obj: CR, child: Child): State {
    match child
    case TheMigration(db) => Goto(s, obj, List(db))
    case JWTSecret(db) => Goto(Note(s, HeldSecret("-jwt", JWT_KEYS)), obj, Fetch(KeysSecret(db)))
    case KeysSecret(db) => Goto(Note(s, HeldSecret("-keys", KEYS_KEYS)), obj, GetPassword(db))
    case SyncJob(sync, c) => Goto(s, obj, FetchJob(sync, c))
  }

  predicate Deletes(obj: CR, child: Child) { child.TheMigration? && obj.spec.migrationsEnabled == Some(false) }

  /** The read of `EnsureResource`, with what it decides; or the one call of a deletion, which may find nothing. */
  function DoFetch(s: State, cfg: Config, obj: CR, child: Child, a: Fate, generated: string -> string): State {
    if Deletes(obj, child) then
      var t := if a.Lost? then s else SetStore(s, DeleteFrom(s.world.store, MigrationKey(cfg), None).0);
      if a.Dies? then Leave(t) else if a.Fine? then Ensured(t, obj, child) else ReportNow(t, obj, FailReason(child))
    else if a.Dies? then Leave(s)
    else if !a.Fine? then ReportNow(s, obj, FailReason(child))
    else
      var attempt := Begin(s.world.store, CallFor(cfg, obj, child, generated));
      if !attempt.Finished? then Goto(s, obj, Put(child, attempt))
      else if attempt.result.Failed? then ReportNow(s, obj, FailReason(child))
      else Ensured(s, obj, child)
  }

  function DoPut(s: State, cfg: Config, obj: CR, child: Child, attempt: Attempt, a: Fate): State {
    var (store, r) := Finish(s.world.store, cfg.server, attempt);
    var t := if a.Lost? then s else SetStore(s, store);
    if a.Dies? then Leave(t)
    else if !a.Fine? || r.Failed? then ReportNow(t, obj, FailReason(child))
    else Ensured(t, obj, child)
  }

  function DoList(s: State, cfg: Config, obj: CR, db: Resolved, a: Fate): State {
    if a.Dies? then Leave(s)
    else if !a.Fine? then ReportNow(s, obj, "MigrationsListFailed")
    else if !MigrationsReady(s.world.store, cfg.namespace, obj.spec.databaseRef) then ReportNow(s, obj, "MigrationsNotReady")
    else Goto(Note(s, SawMigrations(obj.spec.databaseRef)), obj, Fetch(JWTSecret(db)))
  }

  function DoGetPassword(s: State, cfg: Config, obj: CR, db: Resolved, a: Fate): State {
    var password := PasswordAt(s.world.store, cfg.namespace, db.password);
    if a.Dies? then Leave(s)
    else if !a.Fine? || password.None? then ReportNow(s, obj, "DBPasswordValueFailed")
    else
      var c := Conn(db, password.value, obj.spec.jwtExpSec);
      var t := s.(world := s.world.(observed := s.world.observed + [c]));
      ToStage(Note(t, SawPassword(db.password, password.value)), cfg, obj, Jwt, c)
  }

  /** Goes to the stage of this sync Job, or past it if its hash is current. */
  function ToStage(s: State, cfg: Config, obj: CR, sync: Sync, c: Conn): State
    decreases sync.Jwt?
  {
    if HashOf(cfg, sync, c) != StatusHash(sync, obj) then Goto(s, obj, Fetch(SyncJob(sync, c)))
    else Past(s, cfg, obj, sync, c)
  }

  function Past(s: State, cfg: Config, obj: CR, sync: Sync, c: Conn): State
    decreases sync.Jwt?, 0
  {
    if sync.Jwt? then ToStage(s, cfg, obj, Password, c)
    else Goto(s, SetReady(obj, true, "ReconcileSucceeded"), StatusGet(Stop, ATTEMPTS))
  }

  function DoFetchJob(s: State, cfg: Config, obj: CR, sync: Sync, c: Conn, a: Fate): State {
    var k := JobKey(cfg, sync);
    if !a.Fine? || k !in s.world.store.objects || !s.world.store.objects[k].body.Job? then Leave(s)
    else
      var job := s.world.store.objects[k].body.jobStatus;
      if job.failed > 0 then ReportNow(s, obj, Reason(sync, "Failed"))
      else if job.succeeded == 0 then ReportNow(s, obj, Reason(sync, "InProgress"))
      else Goto(Note(s, SawJob(sync)), WithHash(sync, obj, HashOf(cfg, sync, c)), StatusGet(AfterHash(sync, c), ATTEMPTS))
  }

  /** The status write has succeeded, or there was nothing to write. */
  function Arrive(s: State, cfg: Config, obj: CR, next: Then): State {
    if next.Stop? then Leave(s) else Past(s, cfg, obj, next.sync, next.c)
  }

  /** A status write finds its object by name, and fails on a version that is not the one read. */
  function DoStatusWrite(s: State, cfg: Config, obj: CR, next: Then, seen: nat, left: nat, a: Fate): State {
    if a.Lost? || s.world.proj.None? then Leave(s)
    else if s.version != seen then
      if left <= 1 || !a.Fine? then Leave(s) else Goto(s, obj, StatusGet(next, left - 1))
    else
      var t := Rewritten(s, obj, next);
      if a.Fine? then Arrive(t, cfg, obj, next) else Leave(t)
  }

  function Rewritten(s: State, obj: CR, next: Then): State
    requires s.world.proj.Some?
  {
    var stored := s.world.proj.value.(status := obj.status);
    var w := s.world.(proj := Some(stored), log := s.world.log + [Stored(obj.status)],
                      passwordAt := if next.AfterHash? && next.sync.Password? then |s.world.observed| - 1 else s.world.passwordAt);
    Note(s.(world := w, version := s.clock, clock := s.clock + 1), Wrote(stored.uid, stored.status))
  }

  // ---- runs ----

  /** `Elsewhere` is any action of `Project` but a pass. */
  datatype Action =
    | Start
    | Next(fate: Fate, generated: string -> string)
    | Crash
    | Elsewhere(act: Project.Action)

  function Step(s: State, cfg: Config, a: Action): State {
    match a
    case Start => BeginPass(s)
    case Next(fate, generated) => Continue(s, cfg, fate, generated)
    case Crash => Leave(s)
    case Elsewhere(act) =>
      if act.RunPass? then s
      else
        var w := Project.Step(s.world, cfg, act);
        if w.proj == s.world.proj then s.(world := w) else s.(world := w, version := s.clock, clock := s.clock + 1)
  }

  function Exec(s: State, cfg: Config, run: seq<Action>): State {
    if run == [] then s else Step(Exec(s, cfg, run[..|run| - 1]), cfg, run[|run| - 1])
  }

  /** No Project is created while a pass still works on one of that name. */
  predicate Orderly(s: State, a: Action) { a.Elsewhere? && a.act.CreateProject? ==> s.running.None? }

  predicate OrderlyRun(s: State, cfg: Config, run: seq<Action>) {
    run != [] ==>
      OrderlyRun(s, cfg, run[..|run| - 1]) && Orderly(Exec(s, cfg, run[..|run| - 1]), run[|run| - 1])
  }

  // ---- what a trace may hold ----

  /** What the pass that began last has read and written. */
  function Current(trace: seq<Entry>): seq<Entry> {
    if trace == [] then []
    else if trace[|trace| - 1].Began? then [trace[|trace| - 1]]
    else Current(trace[..|trace| - 1]) + [trace[|trace| - 1]]
  }

  /** The gates before the hashes: `cur` read each of them open, and the data of `c`. */
  predicate Gathered(cur: seq<Entry>, obj: CR, c: Conn) {
    && ReadDatabase(obj.spec.databaseRef, c.db) in cur && SawMigrations(obj.spec.databaseRef) in cur
    && HeldSecret("-jwt", JWT_KEYS) in cur && HeldSecret("-keys", KEYS_KEYS) in cur
    && SawPassword(c.db.password, c.password) in cur && c.exp == obj.spec.jwtExpSec
  }

  /** The hash is that of `c`: the pass found it so, or saw the Job succeeded without failures. */
  predicate HashDone(cfg: Config, cur: seq<Entry>, began: CR, status: ProjectStatus, sync: Sync, c: Conn) {
    && StatusHash(sync, began.(status := status)) == HashOf(cfg, sync, c)
    && (StatusHash(sync, began) == HashOf(cfg, sync, c) || SawJob(sync) in cur)
  }

  /** What stands behind a Ready=True; the PasswordSyncHash may be the one found, if Ready is too. */
  predicate Backed(cfg: Config, cur: seq<Entry>, status: ProjectStatus, c: Conn) {
    && cur != [] && cur[0].Began?
    && Gathered(cur, cur[0].obj, c) && HashDone(cfg, cur, cur[0].obj, status, Jwt, c)
    && (|| HashDone(cfg, cur, cur[0].obj, status, Password, c)
        || (IsTrue(cur[0].obj.status.conditions, READY)
            && status.passwordSyncHash == cur[0].obj.status.passwordSyncHash))
  }

  /** A Ready=True is written only by a pass that read all gates open, into the Project it began with. */
  ghost predicate EntryOk(cfg: Config, before: seq<Entry>, e: Entry) {
    e.Wrote? && IsTrue(e.status.conditions, READY) ==>
      exists c :: Backed(cfg, Current(before), e.status, c) && e.uid == Current(before)[0].obj.uid
  }

  ghost predicate TraceOk(cfg: Config, trace: seq<Entry>) {
    trace != [] ==> TraceOk(cfg, trace[..|trace| - 1]) && EntryOk(cfg, trace[..|trace| - 1], trace[|trace| - 1])
  }

  /** What an entry says of the state it was made in. */
  predicate EntryTrue(s: State, cfg: Config, e: Entry) {
    match e
    case Began(obj) => s.world.proj == Some(obj)
    case ReadDatabase(ref, db) => ResolveRef(s.world.databases, ref) == Ready(db)
    case SawMigrations(ref) => MigrationsReady(s.world.store, cfg.namespace, ref)
    case HeldSecret(suffix, keys) => HoldsKeys(s.world.store, SecretKey(cfg, suffix), keys)
    case SawPassword(ref, password) => PasswordAt(s.world.store, cfg.namespace, ref) == Some(password)
    case SawJob(sync) => CleanJob(s.world.store, JobKey(cfg, sync))
    case Wrote(uid, status) => s.world.proj.Some? && s.world.proj.value.uid == uid && s.world.proj.value.status == status
  }

  // ---- the invariant ----

  /** What is known at each place before the hashes. */
  predicate EarlyOk(cur: seq<Entry>, obj: CR, at: Place) {
    var ref := obj.spec.databaseRef;
    match at
    case Resolve => true
    case List(db) => ReadDatabase(ref, db) in cur
    case GetPassword(db) =>
      && ReadDatabase(ref, db) in cur && SawMigrations(ref) in cur
      && HeldSecret("-jwt", JWT_KEYS) in cur && HeldSecret("-keys", KEYS_KEYS) in cur
    case Fetch(child) => ChildOk(cur, obj, child)
    case Put(child, _) => ChildOk(cur, obj, child)
    case _ => false
  }

  predicate ChildOk(cur: seq<Entry>, obj: CR, child: Child) {
    var ref := obj.spec.databaseRef;
    match child
    case TheMigration(db) => ReadDatabase(ref, db) in cur
    case JWTSecret(db) => ReadDatabase(ref, db) in cur && SawMigrations(ref) in cur
    case KeysSecret(db) => ReadDatabase(ref, db) in cur && SawMigrations(ref) in cur && HeldSecret("-jwt", JWT_KEYS) in cur
    case SyncJob(_, _) => false
  }

  /** At the stage of `sync`, before its hash is in the object in memory. */
  predicate StageOk(cfg: Config, cur: seq<Entry>, began: CR, obj: CR, sync: Sync, c: Conn) {
    && Gathered(cur, began, c) && obj.status.conditions == began.status.conditions
    && obj.status.passwordSyncHash == began.status.passwordSyncHash
    && if sync.Jwt? then obj.status == began.status else HashDone(cfg, cur, began, obj.status, Jwt, c)
  }

  /** After the stage of `sync`. */
  predicate StageDone(cfg: Config, cur: seq<Entry>, began: CR, obj: CR, sync: Sync, c: Conn) {
    && Gathered(cur, began, c) && obj.status.conditions == began.status.conditions
    && HashDone(cfg, cur, began, obj.status, Jwt, c)
    && if sync.Jwt? then obj.status.passwordSyncHash == began.status.passwordSyncHash
       else HashDone(cfg, cur, began, obj.status, Password, c)
  }

  /** The status about to be written. */
  ghost predicate WriteOk(cfg: Config, cur: seq<Entry>, began: CR, obj: CR, next: Then) {
    && (IsTrue(obj.status.conditions, READY) ==> exists c :: Backed(cfg, cur, obj.status, c))
    && (next.AfterHash? ==> StageDone(cfg, cur, began, obj, next.sync, next.c))
  }

  /** What a call for a Secret has decided to write has the keys. */
  predicate PutOk(cfg: Config, child: Child, a: Attempt) {
    match child
    case JWTSecret(_) => !a.Finished? && HasKeys(a.obj, JWT_KEYS) && KeyOf(a.obj) == JWTSecretKey(cfg)
    case KeysSecret(_) => !a.Finished? && HasKeys(a.obj, KEYS_KEYS) && KeyOf(a.obj) == KeysSecretKey(cfg)
    case _ => true
  }

  ghost predicate PlaceOk(cfg: Config, cur: seq<Entry>, began: CR, obj: CR, at: Place) {
    match at
    case StatusGet(next, _) => WriteOk(cfg, cur, began, obj, next)
    case StatusWrite(next, _, _) => WriteOk(cfg, cur, began, obj, next)
    case FetchJob(sync, c) => StageOk(cfg, cur, began, obj, sync, c)
    case Fetch(SyncJob(sync, c)) => StageOk(cfg, cur, began, obj, sync, c)
    case Put(SyncJob(sync, c), _) => StageOk(cfg, cur, began, obj, sync, c)
    case _ => obj == began && EarlyOk(cur, obj, at) && (at.Put? ==> PutOk(cfg, at.child, at.attempt))
  }

  ghost predicate PassOk(cfg: Config, cur: seq<Entry>, r: Running) {
    && cur != [] && cur[0].Began?
    && r.obj.spec == cur[0].obj.spec && r.obj.uid == cur[0].obj.uid && PlaceOk(cfg, cur, cur[0].obj, r.obj, r.at)
  }

  ghost predicate Inv(s: State, cfg: Config) {
    && Valid(s.world.store) && TraceOk(cfg, s.trace)
    && (s.running.Some? ==>
          && PassOk(cfg, Current(s.trace), s.running.value)
          && (s.world.proj.Some? ==> s.world.proj.value.uid == s.running.value.obj.uid))
  }

  // ---- every step keeps it ----

  /** A step of the pass: at most one entry more, which is in order and true, and where it goes is too. */
  ghost predicate Advances(s: State, t: State, cfg: Config) {
    && Valid(t.world.store)
    && (t.running.Some? ==> s.running.Some? && PassOk(cfg, Current(t.trace), t.running.value)
                            && t.running.value.obj.uid == s.running.value.obj.uid)
    && (t.world.proj.Some? ==> s.world.proj.Some? && t.world.proj.value.uid == s.world.proj.value.uid)
    && (t.trace == s.trace
        || (&& |t.trace| == |s.trace| + 1 && t.trace[..|s.trace|] == s.trace
            && EntryOk(cfg, s.trace, t.trace[|s.trace|]) && EntryTrue(t, cfg, t.trace[|s.trace|])))
  }

  lemma CurrentNote(trace: seq<Entry>, e: Entry)
    requires !e.Began?
    ensures Current(trace + [e]) == Current(trace) + [e]
  {
    assert (trace + [e])[..|trace|] == trace;
  }

  lemma ReportAdvances(s: State, t: State, cfg: Config, obj: CR, reason: string)
    requires s.running.Some? && PassOk(cfg, Current(s.trace), s.running.value) && obj == s.running.value.obj
    requires t == s.(world := s.world.(store := t.world.store)) && Valid(t.world.store)
    ensures Advances(s, ReportNow(t, obj, reason), cfg) && Advances(s, Leave(t), cfg)
  {
    ProjectReady.NotReadyNow(obj, false, reason);
    hide SetCondition, Backed, StageDone, IsTrue, Valid;
  }

  /** A note that is no status write, true where it is made, and the place it leads to. */
  lemma NoteAdvances(s: State, t: State, u: State, cfg: Config, e: Entry, r: Running)
    requires s.running.Some? && PassOk(cfg, Current(s.trace), s.running.value)
    requires r.obj.spec == s.running.value.obj.spec && r.obj.uid == s.running.value.obj.uid
    requires t == s.(world := t.world) && t.world.proj == s.world.proj && Valid(t.world.store)
    requires !e.Began? && !e.Wrote? && EntryTrue(t, cfg, e)
    requires PlaceOk(cfg, Current(s.trace) + [e], Current(s.trace)[0].obj, r.obj, r.at)
    requires u == Goto(Note(t, e), r.obj, r.at)
    ensures Advances(s, u, cfg)
  {
    CurrentNote(s.trace, e);
    assert (Current(s.trace) + [e])[0] == Current(s.trace)[0];
    hide PlaceOk, EntryTrue, Valid;
    assert u.trace[..|s.trace|] == s.trace;
    assert EntryTrue(u, cfg, e) by {
      TruthOfWorld(t, u, cfg, e);
    }
  }

  lemma TruthOfWorld(s: State, t: State, cfg: Config, e: Entry)
    requires t.world == s.world
    ensures EntryTrue(t, cfg, e) <==> EntryTrue(s, cfg, e)
  {
    hide ResolveRef, MigrationsReady, HoldsKeys, PasswordAt, CleanJob;
  }

  lemma ResolveAdvances(s: State, cfg: Config, a: Fate)
    requires Inv(s, cfg) && s.running.Some? && s.running.value.at.Resolve?
    ensures Advances(s, DoResolve(s, s.running.value.obj, a), cfg)
  {
    var obj := s.running.value.obj;
    ReportAdvances(s, s, cfg, obj, "DatabaseResolutionFailed");
    ReportAdvances(s, s, cfg, obj, "DatabaseNotReady");
    var r := ResolveRef(s.world.databases, obj.spec.databaseRef);
    if r.Ready? {
      var e := ReadDatabase(obj.spec.databaseRef, r.db);
      assert EntryTrue(s, cfg, e);
      hide ResolveRef, Advances, EntryTrue, Valid;
      NoteAdvances(s, s, Goto(Note(s, e), obj, Fetch(TheMigration(r.db))), cfg, e, Running(obj, Fetch(TheMigration(r.db))));
    }
    hide Advances, Inv;
  }

  lemma ListAdvances(s: State, cfg: Config, a: Fate)
    requires Inv(s, cfg) && s.running.Some? && s.running.value.at.List?
    ensures Advances(s, DoList(s, cfg, s.running.value.obj, s.running.value.at.db, a), cfg)
  {
    var obj, db := s.running.value.obj, s.running.value.at.db;
    ReportAdvances(s, s, cfg, obj, "MigrationsListFailed");
    ReportAdvances(s, s, cfg, obj, "MigrationsNotReady");
    var e := SawMigrations(obj.spec.databaseRef);
    assert EntryTrue(s, cfg, e) <==> MigrationsReady(s.world.store, cfg.namespace, obj.spec.databaseRef);
    hide Advances, EntryTrue, Valid, MigrationsReady;
    if EntryTrue(s, cfg, e) {
      NoteAdvances(s, s, Goto(Note(s, e), obj, Fetch(JWTSecret(db))), cfg, e, Running(obj, Fetch(JWTSecret(db))));
    }
    hide Inv;
  }

  // ---- from stage to stage ----

  /** The same object, only with another status. */
  predicate SameObject(a: CR, b: CR) { b == a.(status := b.status) }

  lemma PastOk(s: State, cfg: Config, cur: seq<Entry>, began: CR, obj: CR, sync: Sync, c: Conn)
    requires cur != [] && cur[0] == Began(began) && obj.spec == began.spec && obj.uid == began.uid
    requires StageDone(cfg, cur, began, obj, sync, c)
    ensures var t := Past(s, cfg, obj, sync, c);
      && t == s.(running := t.running) && t.running.Some? && PassOk(cfg, cur, t.running.value) && t.running.value.obj.uid == obj.uid
    decreases sync.Jwt?, 0
  {
    hide HashOf, SetCondition, Gathered, IsTrue;
    if sync.Jwt? {
      assert StageOk(cfg, cur, began, obj, Password, c);
      hide StageOk, StageDone, PassOk;
      ToStageOk(s, cfg, cur, began, obj, Password, c);
    } else {
      assert Backed(cfg, cur, SetReady(obj, true, "ReconcileSucceeded").status, c);
    }
  }

  lemma ToStageOk(s: State, cfg: Config, cur: seq<Entry>, began: CR, obj: CR, sync: Sync, c: Conn)
    requires cur != [] && cur[0] == Began(began) && obj.spec == began.spec && obj.uid == began.uid
    requires StageOk(cfg, cur, began, obj, sync, c)
    ensures var t := ToStage(s, cfg, obj, sync, c);
      && t == s.(running := t.running) && t.running.Some? && PassOk(cfg, cur, t.running.value) && t.running.value.obj.uid == obj.uid
    decreases sync.Jwt?
  {
    hide HashOf, Gathered, Past;
    if HashOf(cfg, sync, c) == StatusHash(sync, obj) {
      assert StageDone(cfg, cur, began, obj, sync, c);
      hide StageOk, StageDone, PassOk;
      PastOk(s, cfg, cur, began, obj, sync, c);
    }
  }

  lemma PasswordAdvances(s: State, cfg: Config, a: Fate)
    requires Inv(s, cfg) && s.running.Some? && s.running.value.at.GetPassword?
    ensures Advances(s, DoGetPassword(s, cfg, s.running.value.obj, s.running.value.at.db, a), cfg)
  {
    var obj, db := s.running.value.obj, s.running.value.at.db;
    ReportAdvances(s, s, cfg, obj, "DBPasswordValueFailed");
    hide Advances, ToStage, PasswordAt, PassOk, TraceOk, Valid, Current;
    if PasswordAt(s.world.store, cfg.namespace, db.password).Some? {
      PasswordSeen(s, cfg, obj, db);
    }
  }

  lemma PasswordSeen(s: State, cfg: Config, obj: CR, db: Resolved)
    requires s.running == Some(Running(obj, GetPassword(db))) && PassOk(cfg, Current(s.trace), s.running.value)
    requires Valid(s.world.store) && PasswordAt(s.world.store, cfg.namespace, db.password).Some?
    ensures Advances(s, DoGetPassword(s, cfg, obj, db, Fine), cfg)
  {
    var password := PasswordAt(s.world.store, cfg.namespace, db.password).value;
    var e, c, cur := SawPassword(db.password, password), Conn(db, password, obj.spec.jwtExpSec), Current(s.trace);
    var t := s.(world := s.world.(observed := s.world.observed + [c]));
    assert (cur + [e])[0] == cur[0] && (cur + [e])[|cur|] == e;
    assert EntryTrue(t, cfg, e);
    hide HashOf, PasswordAt, ToStage, Current, EntryTrue, Advances, Valid;
    assert StageOk(cfg, cur + [e], obj, obj, Jwt, c);
    hide Gathered, StageOk;
    ToStageOk(Note(t, e), cfg, cur + [e], obj, obj, Jwt, c);
    var u := ToStage(Note(t, e), cfg, obj, Jwt, c);
    NoteAdvances(s, t, u, cfg, e, u.running.value);
  }

  // ---- the children ----

  lemma EnsuredAdvances(s: State, t: State, cfg: Config, child: Child)
    requires s.running.Some? && PassOk(cfg, Current(s.trace), s.running.value)
    requires t == s.(world := s.world.(store := t.world.store)) && Valid(t.world.store)
    requires s.running.value.at.Fetch? || s.running.value.at.Put?
    requires child == s.running.value.at.child
    requires child.JWTSecret? ==> HoldsKeys(t.world.store, JWTSecretKey(cfg), JWT_KEYS)
    requires child.KeysSecret? ==> HoldsKeys(t.world.store, KeysSecretKey(cfg), KEYS_KEYS)
    ensures Advances(s, Ensured(t, s.running.value.obj, child), cfg)
  {
    var obj, cur := s.running.value.obj, Current(s.trace);
    hide HoldsKeys, Valid, StageOk, HashDone, Current;
    if child.JWTSecret? || child.KeysSecret? {
      var e := if child.JWTSecret? then HeldSecret("-jwt", JWT_KEYS) else HeldSecret("-keys", KEYS_KEYS);
      var r := Running(obj, if child.JWTSecret? then Fetch(KeysSecret(child.db)) else GetPassword(child.db));
      assert (cur + [e])[|cur|] == e;
      assert EntryTrue(t, cfg, e);
      hide EntryTrue, Advances;
      NoteAdvances(s, t, Ensured(t, obj, child), cfg, e, r);
    }
  }

  lemma FetchAdvances(s: State, cfg: Config, a: Fate, generated: string -> string)
    requires Inv(s, cfg) && s.running.Some? && s.running.value.at.Fetch? && Faithful(cfg.server)
    ensures Advances(s, DoFetch(s, cfg, s.running.value.obj, s.running.value.at.child, a, generated), cfg)
  {
    var obj, child := s.running.value.obj, s.running.value.at.child;
    var attempt := Begin(s.world.store, CallFor(cfg, obj, child, generated));
    var gone := SetStore(s, DeleteFrom(s.world.store, MigrationKey(cfg), None).0);
    DeleteFrame(s.world.store, MigrationKey(cfg));
    ReportAdvances(s, s, cfg, obj, FailReason(child));
    ReportAdvances(s, gone, cfg, obj, FailReason(child));
    hide Advances, DeleteFrom, FailReason;
    if Deletes(obj, child) {
      EnsuredAdvances(s, s, cfg, child);
      EnsuredAdvances(s, gone, cfg, child);
    } else {
      FetchPlanned(s, cfg, child, generated);
      hide Begin, CallFor, PassOk, Inv, Ensured;
      if attempt.Finished? && !attempt.result.Failed? {
        EnsuredAdvances(s, s, cfg, child);
      } else if !attempt.Finished? {
        PutAhead(s, cfg, child, attempt);
      }
    }
  }

  /** What the read of a Secret found, or decided to write. */
  lemma FetchPlanned(s: State, cfg: Config, child: Child, generated: string -> string)
    requires Valid(s.world.store) && s.running.Some?
    ensures var a := Begin(s.world.store, CallFor(cfg, s.running.value.obj, child, generated));
      && (!a.Finished? ==> PutOk(cfg, child, a))
      && (a.Finished? && !a.result.Failed? && child.JWTSecret? ==> HoldsKeys(s.world.store, JWTSecretKey(cfg), JWT_KEYS))
      && (a.Finished? && !a.result.Failed? && child.KeysSecret? ==> HoldsKeys(s.world.store, KeysSecretKey(cfg), KEYS_KEYS))
  {
    var obj := s.running.value.obj;
    hide SecretCall, HoldsKeys, HasKeys, Begin, JobCall, MigrationCall, Valid;
    if child.JWTSecret? {
      SecretPlanned(s.world.store, cfg, obj, "-jwt", JWT_KEYS, generated);
    } else if child.KeysSecret? {
      SecretPlanned(s.world.store, cfg, obj, "-keys", KEYS_KEYS, generated);
    }
  }

  lemma PutAhead(s: State, cfg: Config, child: Child, attempt: Attempt)
    requires Inv(s, cfg) && s.running.Some? && s.running.value.at == Fetch(child) && PutOk(cfg, child, attempt)
    ensures Advances(s, Goto(s, s.running.value.obj, Put(child, attempt)), cfg)
  {
    hide Valid, HashOf, HasKeys, Gathered;
  }

  lemma PutAdvances(s: State, cfg: Config, a: Fate)
    requires Inv(s, cfg) && s.running.Some? && s.running.value.at.Put? && Faithful(cfg.server)
    ensures Advances(s, DoPut(s, cfg, s.running.value.obj, s.running.value.at.child, s.running.value.at.attempt, a), cfg)
  {
    var obj, child, attempt := s.running.value.obj, s.running.value.at.child, s.running.value.at.attempt;
    var (store, r) := Finish(s.world.store, cfg.server, attempt);
    FaithfulKind(cfg.server);
    FinishValid(s.world.store, cfg.server, attempt);
    if !r.Failed? && (child.JWTSecret? || child.KeysSecret?) {
      SecretWritten(s.world.store, cfg.server, attempt, if child.JWTSecret? then JWT_KEYS else KEYS_KEYS);
    }
    ReportAdvances(s, s, cfg, obj, FailReason(child));
    ReportAdvances(s, SetStore(s, store), cfg, obj, FailReason(child));
    hide Finish, Advances, Faithful, KeepsKind, FailReason, HoldsKeys, HasKeys, Valid;
    if !r.Failed? {
      EnsuredAdvances(s, SetStore(s, store), cfg, child);
    }
    hide Inv, PassOk, Ensured;
  }

  // ---- the Jobs and the status ----

  lemma FetchJobAdvances(s: State, cfg: Config, a: Fate)
    requires Inv(s, cfg) && s.running.Some? && s.running.value.at.FetchJob?
    ensures var r := s.running.value;
      Advances(s, DoFetchJob(s, cfg, r.obj, r.at.sync, r.at.c, a), cfg)
  {
    var obj, sync, c := s.running.value.obj, s.running.value.at.sync, s.running.value.at.c;
    ReportAdvances(s, s, cfg, obj, Reason(sync, "Failed"));
    ReportAdvances(s, s, cfg, obj, Reason(sync, "InProgress"));
    if CleanJob(s.world.store, JobKey(cfg, sync)) {
      JobSeen(s, cfg, sync, c);
    }
    hide Advances, JobKey, Inv, Reason, HashOf;
  }

  lemma JobSeen(s: State, cfg: Config, sync: Sync, c: Conn)
    requires s.running.Some? && PassOk(cfg, Current(s.trace), s.running.value) && Valid(s.world.store)
    requires s.running.value.at == FetchJob(sync, c)
    requires CleanJob(s.world.store, JobKey(cfg, sync))
    ensures var q := WithHash(sync, s.running.value.obj, HashOf(cfg, sync, c));
      Advances(s, Goto(Note(s, SawJob(sync)), q, StatusGet(AfterHash(sync, c), ATTEMPTS)), cfg)
  {
    var obj, cur, e := s.running.value.obj, Current(s.trace), SawJob(sync);
    var q := WithHash(sync, obj, HashOf(cfg, sync, c));
    var r := Running(q, StatusGet(AfterHash(sync, c), ATTEMPTS));
    assert EntryTrue(s, cfg, e);
    hide HashOf, JobKey, CleanJob, Valid, StageOk, WriteOk, Current, Advances, EntryTrue, PassOk, PlaceOk;
    AtJob(cfg, cur, s.running.value, sync, c);
    JobSeenOk(cfg, cur, cur[0].obj, obj, sync, c);
    StatusPlace(cfg, cur + [e], cur[0].obj, r.obj, AfterHash(sync, c));
    NoteAdvances(s, s, Goto(Note(s, e), r.obj, r.at), cfg, e, r);
  }

  lemma AtJob(cfg: Config, cur: seq<Entry>, r: Running, sync: Sync, c: Conn)
    requires PassOk(cfg, cur, r) && r.at == FetchJob(sync, c)
    ensures cur != [] && cur[0].Began? && StageOk(cfg, cur, cur[0].obj, r.obj, sync, c)
  {
    hide StageOk;
  }

  lemma StatusPlace(cfg: Config, cur: seq<Entry>, began: CR, obj: CR, next: Then)
    requires WriteOk(cfg, cur, began, obj, next)
    ensures PlaceOk(cfg, cur, began, obj, StatusGet(next, ATTEMPTS))
  {
    hide WriteOk;
  }

  lemma JobSeenOk(cfg: Config, cur: seq<Entry>, began: CR, obj: CR, sync: Sync, c: Conn)
    requires cur != [] && cur[0] == Began(began) && StageOk(cfg, cur, began, obj, sync, c)
    ensures WriteOk(cfg, cur + [SawJob(sync)], began, WithHash(sync, obj, HashOf(cfg, sync, c)), AfterHash(sync, c))
  {
    var more, q := cur + [SawJob(sync)], WithHash(sync, obj, HashOf(cfg, sync, c));
    hide HashOf, IsTrue;
    assert more[0] == cur[0] && more[|cur|] == SawJob(sync);
    assert Gathered(more, began, c);
    hide Gathered;
    assert StageDone(cfg, more, began, q, sync, c);
    assert IsTrue(q.status.conditions, READY) ==> Backed(cfg, more, q.status, c);
  }

  lemma ArriveAdvances(s: State, t: State, cfg: Config, next: Then, left: nat)
    requires Inv(s, cfg) && s.running.Some?
    requires s.running.value.at == StatusGet(next, left) || (s.running.value.at.StatusWrite? && s.running.value.at.next == next)
    requires t.running == s.running && |s.trace| <= |t.trace| && Current(t.trace) == Current(s.trace) + t.trace[|s.trace|..]
    requires Advances(s, t, cfg)
    ensures Advances(s, Arrive(t, cfg, s.running.value.obj, next), cfg) && Advances(s, Leave(t), cfg)
  {
    var obj, cur, more := s.running.value.obj, Current(s.trace), Current(t.trace);
    var began := cur[0].obj;
    assert more[0] == cur[0];
    hide HashOf, Valid, IsTrue;
    if next.AfterHash? {
      assert StageDone(cfg, cur, began, obj, next.sync, next.c);
      assert StageDone(cfg, more, began, obj, next.sync, next.c);
      hide StageDone;
      PastOk(t, cfg, more, began, obj, next.sync, next.c);
      hide Past;
    }
    hide PassOk;
    if |t.trace| == |s.trace| + 1 {
      TruthOfWorld(t, Arrive(t, cfg, obj, next), cfg, t.trace[|s.trace|]);
      TruthOfWorld(t, Leave(t), cfg, t.trace[|s.trace|]);
    }
    hide EntryTrue, EntryOk, Current;
  }

  lemma WriteOkMore(cfg: Config, cur: seq<Entry>, e: Entry, began: CR, obj: CR, next: Then)
    requires cur != [] && cur[0] == Began(began) && WriteOk(cfg, cur, began, obj, next)
    ensures WriteOk(cfg, cur + [e], began, obj, next)
  {
    var more := cur + [e];
    assert more[0] == cur[0];
    hide HashOf, IsTrue;
    if IsTrue(obj.status.conditions, READY) {
      var c :| Backed(cfg, cur, obj.status, c);
      assert Backed(cfg, more, obj.status, c);
    }
  }

  /** The write itself: into the Project the pass began with, and backed if it says Ready. */
  lemma WrittenAdvances(s: State, cfg: Config)
    requires Inv(s, cfg) && s.running.Some? && s.running.value.at.StatusWrite? && s.world.proj.Some?
    ensures var t := Rewritten(s, s.running.value.obj, s.running.value.at.next);
      && Advances(s, t, cfg) && |s.trace| <= |t.trace| && Current(t.trace) == Current(s.trace) + t.trace[|s.trace|..]
  {
    var obj, next, cur := s.running.value.obj, s.running.value.at.next, Current(s.trace);
    var t, e := Rewritten(s, obj, next), Wrote(s.world.proj.value.uid, obj.status);
    hide Inv, PassOk, Current, WriteOk, EntryOk, Valid, PlaceOk, HashOf, Backed;
    AtWrite(s, cfg);
    CurrentNote(s.trace, e);
    assert (cur + [e])[0] == cur[0] && t.trace[|s.trace|..] == [e] && t.trace[..|s.trace|] == s.trace;
    WriteOkMore(cfg, cur, e, cur[0].obj, obj, next);
    WriteEntryOk(cfg, s.trace, e, cur[0].obj, obj, next);
    StillAtWrite(cfg, cur + [e], s.running.value);
  }

  lemma AtWrite(s: State, cfg: Config)
    requires Inv(s, cfg) && s.running.Some? && s.running.value.at.StatusWrite?
    ensures var (r, cur) := (s.running.value, Current(s.trace));
      && Valid(s.world.store) && cur != [] && cur[0].Began? && r.obj.spec == cur[0].obj.spec && r.obj.uid == cur[0].obj.uid
      && WriteOk(cfg, cur, cur[0].obj, r.obj, r.at.next)
      && (s.world.proj.Some? ==> s.world.proj.value.uid == r.obj.uid)
  {
    hide Valid, TraceOk, Current, WriteOk;
  }

  lemma StillAtWrite(cfg: Config, cur: seq<Entry>, r: Running)
    requires cur != [] && cur[0].Began? && r.obj.spec == cur[0].obj.spec && r.obj.uid == cur[0].obj.uid
    requires r.at.StatusWrite? && WriteOk(cfg, cur, cur[0].obj, r.obj, r.at.next)
    ensures PassOk(cfg, cur, r)
  {
    hide WriteOk;
  }

  lemma WriteEntryOk(cfg: Config, trace: seq<Entry>, e: Entry, began: CR, obj: CR, next: Then)
    requires Current(trace) != [] && Current(trace)[0] == Began(began) && WriteOk(cfg, Current(trace), began, obj, next)
    requires e == Wrote(began.uid, obj.status)
    ensures EntryOk(cfg, trace, e)
  {
    hide Current, Backed, StageDone, IsTrue;
  }

  lemma StatusAdvances(s: State, cfg: Config, a: Fate, generated: string -> string)
    requires Inv(s, cfg) && s.running.Some? && (s.running.value.at.StatusGet? || s.running.value.at.StatusWrite?)
    ensures Advances(s, Continue(s, cfg, a, generated), cfg)
  {
    var obj, next := s.running.value.obj, s.running.value.at.next;
    var left := s.running.value.at.left;
    StaysPut(s, cfg);
    ArriveAdvances(s, s, cfg, next, left);
    hide Advances, Inv, Arrive;
    if s.running.value.at.StatusGet? {
      RetryAdvances(s, cfg, next, StatusWrite(next, s.version, left));
    } else {
      WriteAdvances(s, cfg, a);
    }
  }

  lemma WriteAdvances(s: State, cfg: Config, a: Fate)
    requires Inv(s, cfg) && s.running.Some? && s.running.value.at.StatusWrite? && Advances(s, Leave(s), cfg)
    ensures var (obj, at) := (s.running.value.obj, s.running.value.at);
      Advances(s, DoStatusWrite(s, cfg, obj, at.next, at.seen, at.left, a), cfg)
  {
    var obj, next, left := s.running.value.obj, s.running.value.at.next, s.running.value.at.left;
    if s.world.proj.Some? {
      WrittenAdvances(s, cfg);
      ArriveAdvances(s, Rewritten(s, obj, next), cfg, next, left);
    }
    hide Advances, Inv, Arrive, Rewritten;
    if left > 1 {
      RetryAdvances(s, cfg, next, StatusGet(next, left - 1));
    }
  }

  lemma StaysPut(s: State, cfg: Config)
    requires Inv(s, cfg) && s.running.Some?
    ensures Advances(s, s, cfg) && Current(s.trace) == Current(s.trace) + s.trace[|s.trace|..]
  {
    assert s.trace[|s.trace|..] == [];
  }

  lemma RetryAdvances(s: State, cfg: Config, next: Then, at: Place)
    requires Inv(s, cfg) && s.running.Some? && (s.running.value.at.StatusGet? || s.running.value.at.StatusWrite?)
    requires (at.StatusGet? || at.StatusWrite?) && at.next == next == s.running.value.at.next
    ensures Advances(s, Goto(s, s.running.value.obj, at), cfg)
  {
    hide WriteOk, Valid, TraceOk, Current;
  }

  lemma ContinueAdvances(s: State, cfg: Config, a: Fate, generated: string -> string)
    requires Inv(s, cfg) && s.running.Some? && Faithful(cfg.server)
    ensures Advances(s, Continue(s, cfg, a, generated), cfg)
  {
    hide Inv, Advances, Faithful;
    match s.running.value.at
    case Resolve => ResolveAdvances(s, cfg, a);
    case Fetch(_) => FetchAdvances(s, cfg, a, generated);
    case Put(_, _) => PutAdvances(s, cfg, a);
    case List(_) => ListAdvances(s, cfg, a);
    case GetPassword(_) => PasswordAdvances(s, cfg, a);
    case FetchJob(_, _) => FetchJobAdvances(s, cfg, a);
    case _ => StatusAdvances(s, cfg, a, generated);
  }

  // ---- every step ----

  /** What any step does: at most one entry more, in order and true of the state it leaves. */
  ghost predicate Extends(s: State, t: State, cfg: Config) {
    || t.trace == s.trace
    || (&& |t.trace| == |s.trace| + 1 && t.trace[..|s.trace|] == s.trace
        && EntryOk(cfg, s.trace, t.trace[|s.trace|]) && EntryTrue(t, cfg, t.trace[|s.trace|]))
  }

  lemma AdvancesInv(s: State, t: State, cfg: Config)
    requires Inv(s, cfg) && s.running.Some? && Advances(s, t, cfg)
    ensures Inv(t, cfg) && Extends(s, t, cfg)
  {
    hide PassOk, EntryOk, EntryTrue, Valid, Current;
  }

  lemma BeginInv(s: State, cfg: Config)
    requires Inv(s, cfg)
    ensures Inv(BeginPass(s), cfg) && Extends(s, BeginPass(s), cfg)
  {
    hide Valid;
    assert BeginPass(s).trace != s.trace ==> BeginPass(s).trace[..|s.trace|] == s.trace;
  }

  lemma ElsewhereInv(s: State, cfg: Config, act: Project.Action)
    requires Inv(s, cfg) && Orderly(s, Elsewhere(act))
    ensures Inv(Step(s, cfg, Elsewhere(act)), cfg) && Extends(s, Step(s, cfg, Elsewhere(act)), cfg)
  {
    if !act.RunPass? {
      if act.JobEnds? {
        ProjectSync.EndJobFrame(s.world, cfg, act.sync, act.succeeds);
      } else {
        ProjectSync.StoreStaysValid(s.world, cfg, act);
      }
      SameProject(s.world, cfg, act);
      hide Project.Step, PassOk, Valid, TraceOk, Current, EndJob;
    }
  }

  lemma SameProject(w: World, cfg: Config, act: Project.Action)
    requires !act.RunPass? && Valid(w.store)
    ensures var t := Project.Step(w, cfg, act);
      t.proj.Some? && !act.CreateProject? ==> w.proj.Some? && t.proj.value.uid == w.proj.value.uid
    ensures act.JobEnds? ==> Project.Step(w, cfg, act) == EndJob(w, cfg, act.sync, act.succeeds)
  {
    if act.JobEnds? {
      ProjectSync.EndJobFrame(w, cfg, act.sync, act.succeeds);
    }
    hide EndJob, Pass, PutIn, DeleteFrom;
  }

  lemma StepInv(s: State, cfg: Config, a: Action)
    requires Inv(s, cfg) && Orderly(s, a) && Faithful(cfg.server)
    ensures Inv(Step(s, cfg, a), cfg) && Extends(s, Step(s, cfg, a), cfg)
  {
    hide Faithful, Continue, Advances;
    match a
    case Start => BeginInv(s, cfg);
    case Next(fate, generated) =>
      if s.running.Some? {
        ContinueAdvances(s, cfg, fate, generated);
        AdvancesInv(s, Continue(s, cfg, fate, generated), cfg);
      } else {
        assert Continue(s, cfg, fate, generated) == s by { IdleStays(s, cfg, fate, generated); }
      }
    case Crash => hide PassOk, Valid, TraceOk;
    case Elsewhere(act) => ElsewhereInv(s, cfg, act);
  }

  lemma IdleStays(s: State, cfg: Config, a: Fate, generated: string -> string)
    requires s.running.None?
    ensures Continue(s, cfg, a, generated) == s
  {
  }

  // ---- what follows for every run ----

  /** No pass at work, nothing recorded yet. */
  ghost predicate Idle(s: State) { s.running.None? && s.trace == [] && Valid(s.world.store) }

  /** Entry `i` was made by step `k` of the run, and was true when it was made. */
  ghost predicate MadeAt(start: State, cfg: Config, run: seq<Action>, i: nat, k: nat) {
    && 0 < k <= |run| && |Exec(start, cfg, run[..k - 1]).trace| == i
    && i < |Exec(start, cfg, run[..k]).trace|
    && EntryTrue(Exec(start, cfg, run[..k]), cfg, Exec(start, cfg, run[..k]).trace[i])
  }

  ghost predicate WasTrue(start: State, cfg: Config, run: seq<Action>, i: nat) {
    exists k :: MadeAt(start, cfg, run, i, k)
  }

  lemma {:induction false} ExecInv(s: State, cfg: Config, run: seq<Action>)
    requires Inv(s, cfg) && OrderlyRun(s, cfg, run) && Faithful(cfg.server)
    ensures Inv(Exec(s, cfg, run), cfg)
  {
    hide Inv, Step, Faithful, Orderly;
    if run != [] {
      ExecInv(s, cfg, run[..|run| - 1]);
      StepInv(Exec(s, cfg, run[..|run| - 1]), cfg, run[|run| - 1]);
    }
  }

  lemma {:induction false} EntryMade(start: State, cfg: Config, run: seq<Action>, i: nat) returns (k: nat)
    requires Idle(start) && OrderlyRun(start, cfg, run) && Faithful(cfg.server) && i < |Exec(start, cfg, run).trace|
    ensures MadeAt(start, cfg, run, i, k) && Exec(start, cfg, run[..k]).trace == Exec(start, cfg, run).trace[..i + 1]
    ensures EntryOk(cfg, Exec(start, cfg, run).trace[..i], Exec(start, cfg, run).trace[i])
  {
    assert run != [];
    var before := run[..|run| - 1];
    var s, t := Exec(start, cfg, before), Exec(start, cfg, run);
    assert Inv(start, cfg);
    ExecInv(start, cfg, before);
    StepInv(s, cfg, run[|run| - 1]);
    hide Inv, Step, Faithful, Orderly, EntryOk, EntryTrue, Idle;
    if i < |s.trace| {
      k := EntryMade(start, cfg, before, i);
      assert before[..k] == run[..k] && before[..k - 1] == run[..k - 1];
      assert t.trace[..i + 1] == s.trace[..i + 1] && t.trace[..i] == s.trace[..i] && t.trace[i] == s.trace[i];
    } else {
      k := |run|;
      assert run[..k] == run && t.trace[..i + 1] == t.trace;
    }
  }

  /** The entries of the pass at work are the last of the trace, from its beginning on. */
  lemma {:induction false} CurrentLast(trace: seq<Entry>)
    ensures var cur := Current(trace);
      && |cur| <= |trace| && cur == trace[|trace| - |cur|..]
      && forall j :: 0 < j < |cur| ==> !cur[j].Began?
    ensures Current(trace) == [] ==> trace == []
  {
    if trace != [] && !trace[|trace| - 1].Began? {
      CurrentLast(trace[..|trace| - 1]);
    }
  }

  /**
   Ready stands for all gates, however the pass was interleaved. In every run, whatever
   fails, crashes or is edited meanwhile: behind every Ready=True that is written, the
   same pass has read, since it began, a ready database, no Migration waiting, both
   Secrets with all their keys, and a password; the JWTSyncHash is that of the data it
   read, found so or earned by a Job it saw succeeded without failures; and so is the
   PasswordSyncHash, unless it is the one the pass began with, together with Ready. Each
   of these was true in the state of the run in which it was read. And the Project
   written is the one the pass began with.
   */
  lemma ReadyBehindReads(start: State, cfg: Config, run: seq<Action>, i: nat)
    requires Idle(start) && OrderlyRun(start, cfg, run) && Faithful(cfg.server)
    requires i < |Exec(start, cfg, run).trace| && Exec(start, cfg, run).trace[i].Wrote?
    requires IsTrue(Exec(start, cfg, run).trace[i].status.conditions, READY)
    ensures var trace := Exec(start, cfg, run).trace;
      var cur := Current(trace[..i]);
      && (exists c :: Backed(cfg, cur, trace[i].status, c) && trace[i].uid == cur[0].obj.uid)
      && |cur| <= i && cur == trace[i - |cur|..i] && (forall j :: 0 < j < |cur| ==> !cur[j].Began?)
      && forall j :: i - |cur| <= j <= i ==> WasTrue(start, cfg, run, j)
  {
    var trace := Exec(start, cfg, run).trace;
    hide Idle, OrderlyRun, Faithful, Exec, MadeAt, Backed, IsTrue, Current, WasTrue;
    CurrentAt(trace, i);
    forall j: nat | j <= i ensures WasTrue(start, cfg, run, j) && EntryOk(cfg, trace[..j], trace[j]) {
      EntryFine(start, cfg, run, j);
      hide EntryOk;
    }
  }

  lemma EntryFine(start: State, cfg: Config, run: seq<Action>, i: nat)
    requires Idle(start) && OrderlyRun(start, cfg, run) && Faithful(cfg.server) && i < |Exec(start, cfg, run).trace|
    ensures WasTrue(start, cfg, run, i)
    ensures EntryOk(cfg, Exec(start, cfg, run).trace[..i], Exec(start, cfg, run).trace[i])
  {
    hide Idle, OrderlyRun, Faithful, Exec, MadeAt, EntryOk;
    var k := EntryMade(start, cfg, run, i);
  }

  lemma CurrentAt(trace: seq<Entry>, i: nat)
    requires i <= |trace|
    ensures var cur := Current(trace[..i]);
      |cur| <= i && cur == trace[i - |cur|..i] && forall j :: 0 < j < |cur| ==> !cur[j].Began?
  {
    CurrentLast(trace[..i]);
    hide Current;
    var cur := Current(trace[..i]);
    assert trace[..i][i - |cur|..] == trace[i - |cur|..i];
  }

  // ---- a Project that is replaced ----

  lemma OneMore(s: State, cfg: Config, run: seq<Action>, a: Action)
    ensures Exec(s, cfg, run + [a]) == Step(Exec(s, cfg, run), cfg, a)
  {
    assert (run + [a])[..|run|] == run;
  }

  lemma FourSteps(s: State, cfg: Config, a: Action, b: Action, c: Action, d: Action)
    ensures Exec(s, cfg, [a, b, c, d]) == Step(Step(Step(Step(s, cfg, a), cfg, b), cfg, c), cfg, d)
  {
    hide Step;
    assert Exec(s, cfg, []) == s;
    OneMore(s, cfg, [], a);
    OneMore(s, cfg, [a], b);
    OneMore(s, cfg, [a, b], c);
    OneMore(s, cfg, [a, b, c], d);
    assert [] + [a] == [a] && [a] + [b] == [a, b] && [a, b] + [c] == [a, b, c] && [a, b, c] + [d] == [a, b, c, d];
  }

  /**
   The guard on runs is needed. A status write finds its object by name: when the Project
   of a pass that is about to say Ready is replaced before the write, the new one is
   Ready with the hashes of the old data, though no pass has ever looked at it. They are
   its own exactly if the two hash alike.
   */
  lemma ReplacedProjectInheritsReady(s: State, cfg: Config, obj: CR, left: nat, uid: string, spec: Spec, c: Conn,
                                     generated: string -> string)
    requires s.running == Some(Running(obj, StatusGet(Stop, left))) && IsTrue(obj.status.conditions, READY)
    requires obj.status.jwtSyncHash == HashOf(cfg, Jwt, c) && obj.status.passwordSyncHash == HashOf(cfg, Password, c)
    requires uid != "" && uid !in s.world.uids
    ensures var t := Exec(s, cfg, [Elsewhere(DeleteProject), Elsewhere(CreateProject(uid, spec)),
                                   Next(Fine, generated), Next(Fine, generated)]);
      && t.world.proj == Some(CR(uid, 1, spec, obj.status)) && ProjectReady.IsReady(t.world)
      && forall d :: ProjectReady.HashesOf(t.world.proj.value.status, cfg, d) <==>
                     forall sync :: HashOf(cfg, sync, c) == HashOf(cfg, sync, d)
  {
    hide HashOf;
    var remove, create := Elsewhere(DeleteProject), Elsewhere(CreateProject(uid, spec));
    FourSteps(s, cfg, remove, create, Next(Fine, generated), Next(Fine, generated));
    var s1 := Step(s, cfg, remove);
    var s2 := Step(s1, cfg, create);
    var s3 := Step(s2, cfg, Next(Fine, generated));
    hide Exec, Pass, EndJob;
    assert s2.world.proj == Some(CR(uid, 1, spec, ProjectStatus([], "", ""))) && s2.running == s.running;
    assert s3.running.value == Running(obj, StatusWrite(Stop, s2.version, left)) by {
      assert obj.status.conditions != [];
    }
    hide Project.Step;
    forall d
      ensures ProjectReady.HashesOf(obj.status, cfg, d) <==> forall sync :: HashOf(cfg, sync, c) == HashOf(cfg, sync, d)
    {
      if ProjectReady.HashesOf(obj.status, cfg, d) {
        forall sync: Sync ensures HashOf(cfg, sync, c) == HashOf(cfg, sync, d) {
          assert sync.Jwt? || sync.Password?;
        }
      }
    }
  }
}
