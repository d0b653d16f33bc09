/**
 A Project pass that nobody disturbs is the one step of `Project`: call by call, what is
 left of that step stays the same, and after twenty-one calls nothing is left.
 */
module ProjectQuiet {
  import opened Wrappers
  import opened Store
  import opened Ensure
  import opened Status
  import opened Database
  import opened Project
  import opened ProjectSteps
  import ProjectReady

  // ---- a pass nobody disturbs ----

  function PointOf(child: Child): Point {
    match child
    case TheMigration(_) => EnsureMigration
    case JWTSecret(_) => EnsureJWTSecret
    case KeysSecret(_) => EnsureKeysSecret
    case SyncJob(sync, _) => EnsureJob(sync)
  }

  function WritePoint(obj: CR, next: Then): Point {
    if next.AfterHash? then StoreHash(next.sync) else if IsTrue(obj.status.conditions, READY) then StoreReady else StoreReport
  }

  /** The fate of the next call of a pass with this luck: an ensure that has to write is as lucky as its write. */
  function FateAt(s: State, cfg: Config, luck: Luck): Fate
    requires s.running.Some?
  {
    var obj := s.running.value.obj;
    match s.running.value.at
    case Resolve => luck.fate(ResolveDatabase)
    case Fetch(child) =>
      if Deletes(obj, child) || Begin(s.world.store, CallFor(cfg, obj, child, luck.generated)).Finished?
      then luck.fate(PointOf(child)) else Fine
    case Put(child, _) => luck.fate(PointOf(child))
    case List(_) => luck.fate(ListMigrations)
    case GetPassword(_) => luck.fate(ReadPassword)
    case FetchJob(sync, _) => luck.fate(GetJob(sync))
    case StatusGet(_, _) => Fine
    case StatusWrite(next, _, _) => luck.fate(WritePoint(obj, next))
  }

  /** The pass with nobody else acting. */
  function Drive(s: State, cfg: Config, luck: Luck, calls: nat): State
    decreases calls
  {
    if calls == 0 || s.running.None? then s
    else Drive(Continue(s, cfg, FateAt(s, cfg, luck), luck.generated), cfg, luck, calls - 1)
  }

  // What is left of the one step of `Project` at each place.

  function Join(r: (World, Option<Conn>), cfg: Config, luck: Luck, obj: CR): World {
    if r.1.None? then r.0 else SyncPart(r.0, cfg, luck, obj, r.1.value)
  }

  function ListPart(w: World, cfg: Config, luck: Luck, obj: CR, db: Resolved): (World, Option<Conn>) {
    if luck.fate(ListMigrations).Dies? then (w, None)
    else if !luck.fate(ListMigrations).Fine? then (Report(w, luck, obj, "MigrationsListFailed"), None)
    else if !MigrationsReady(w.store, cfg.namespace, obj.spec.databaseRef) then (Report(w, luck, obj, "MigrationsNotReady"), None)
    else SecretsPart(w, cfg, luck, obj, db)
  }

  function KeysPart(w: World, cfg: Config, luck: Luck, obj: CR, db: Resolved): (World, Option<Conn>) {
    var (v, keys) := EnsureAt(w, cfg, luck, EnsureKeysSecret, SecretCall(cfg, obj, "-keys", KEYS_KEYS, luck.generated));
    if keys.Ends? then (v, None)
    else if keys.Fails? then (Report(v, luck, obj, "KeysSecretFailed"), None)
    else PasswordPart(v, cfg, luck, obj, db)
  }

  /** After the stage of `sync`. */
  function Tail(r: (World, CR, bool), cfg: Config, luck: Luck, sync: Sync, c: Conn): World
    decreases sync.Jwt?
  {
    if !r.2 then r.0
    else if sync.Jwt? then Tail(SyncStage(r.0, cfg, luck, r.1, c, Password), cfg, luck, Password, c)
    else if luck.fate(StoreReady).Lost? then r.0
    else StoreStatus(r.0, SetReady(r.1, true, "ReconcileSucceeded"))
  }

  function RestOfChild(w: World, cfg: Config, luck: Luck, obj: CR, child: Child): World {
    match child
    case TheMigration(db) => Join(MigrationPart(w, cfg, luck, obj, db), cfg, luck, obj)
    case JWTSecret(db) => Join(SecretsPart(w, cfg, luck, obj, db), cfg, luck, obj)
    case KeysSecret(db) => Join(KeysPart(w, cfg, luck, obj, db), cfg, luck, obj)
    case SyncJob(sync, c) => Tail(SyncStage(w, cfg, luck, obj, c, sync), cfg, luck, sync, c)
  }

  function RestOfWrite(w: World, cfg: Config, luck: Luck, obj: CR, next: Then): World {
    if next.Stop? then if luck.fate(WritePoint(obj, next)).Lost? then w else StoreStatus(w, obj)
    else Tail((StoreSyncHash(w, luck, obj, next.sync), obj, luck.fate(StoreHash(next.sync)).Fine?), cfg, luck, next.sync, next.c)
  }

  function Rest(s: State, cfg: Config, luck: Luck): World {
    if s.running.None? then s.world
    else
      var obj := s.running.value.obj;
      match s.running.value.at
      case Resolve => Pass(s.world, cfg, luck)
      case Fetch(child) => RestOfChild(s.world, cfg, luck, obj, child)
      case Put(child, _) => RestOfChild(s.world, cfg, luck, obj, child)
      case List(db) => Join(ListPart(s.world, cfg, luck, obj, db), cfg, luck, obj)
      case GetPassword(db) => Join(PasswordPart(s.world, cfg, luck, obj, db), cfg, luck, obj)
      case FetchJob(sync, c) => Tail(AwaitJob(s.world, cfg, luck, obj, c, sync), cfg, luck, sync, c)
      case StatusGet(next, _) => RestOfWrite(s.world, cfg, luck, obj, next)
      case StatusWrite(next, _, _) => RestOfWrite(s.world, cfg, luck, obj, next)
  }

  /** The calls a pass can still make when nobody disturbs it. */
  function Budget(s: State): nat {
    if s.running.None? then 0
    else
      match s.running.value.at
      case Resolve => 21
      case Fetch(child) => ChildBudget(child) + 1
      case Put(child, _) => ChildBudget(child)
      case List(_) => 18
      case GetPassword(_) => 13
      case FetchJob(sync, _) => if sync.Jwt? then 10 else 5
      case StatusGet(next, _) => WriteBudget(next) + 1
      case StatusWrite(next, _, _) => WriteBudget(next)
  }

  function ChildBudget(child: Child): nat {
    match child
    case TheMigration(_) => 19
    case JWTSecret(_) => 16
    case KeysSecret(_) => 14
    case SyncJob(sync, _) => if sync.Jwt? then 11 else 6
  }

  function WriteBudget(next: Then): nat { if next.Stop? then 1 else if next.sync.Jwt? then 8 else 3 }

  /** Nobody has touched the Project since the pass began, nor the store since its last read. */
  predicate Quiet(s: State, cfg: Config, luck: Luck) {
    s.running.Some? ==>
      && s.world.proj.Some?
      && var (obj, at) := (s.running.value.obj, s.running.value.at);
      && (at.StatusGet? || at.StatusWrite? ==>
            && SameObject(s.world.proj.value, obj)
            && (at.StatusWrite? ==> at.seen == s.version)
            && (at.StatusWrite? || at.next.AfterHash? ==> s.world.proj.value.status != obj.status))
      && (!at.StatusGet? && !at.StatusWrite? ==> s.world.proj.value == obj)
      && (at.Put? ==> !Deletes(obj, at.child) && !at.attempt.Finished?
                      && at.attempt == Begin(s.world.store, CallFor(cfg, obj, at.child, luck.generated)))
      && ((at.Fetch? || at.Put?) && at.child.SyncJob? ==> HashOf(cfg, at.child.sync, at.child.c) != StatusHash(at.child.sync, obj))
      && (at.FetchJob? ==> HashOf(cfg, at.sync, at.c) != StatusHash(at.sync, obj))
  }

  /** A call of the pass, with nobody else acting. */
  predicate Goes(s: State, t: State, cfg: Config, luck: Luck) {
    Quiet(t, cfg, luck) && Rest(t, cfg, luck) == Rest(s, cfg, luck) && Budget(t) < Budget(s)
  }

  lemma ReportGoes(s: State, cfg: Config, luck: Luck, obj: CR, reason: string)
    requires s.world.proj == Some(obj)
    ensures var t := ReportNow(s, obj, reason);
      Quiet(t, cfg, luck) && Rest(t, cfg, luck) == Report(s.world, luck, obj, reason) && Budget(t) == 2
  {
    ProjectReady.NotReadyNow(obj, false, reason);
    hide SetCondition, IsTrue;
  }

  lemma ResolveGoes(s: State, cfg: Config, luck: Luck)
    requires Quiet(s, cfg, luck) && s.running.Some? && s.running.value.at.Resolve?
    ensures Goes(s, DoResolve(s, s.running.value.obj, luck.fate(ResolveDatabase)), cfg, luck)
  {
    var obj := s.running.value.obj;
    ReportGoes(s, cfg, luck, obj, "DatabaseResolutionFailed");
    ReportGoes(s, cfg, luck, obj, "DatabaseNotReady");
    hide ResolveRef, Report, MigrationPart, SyncPart, ReportNow;
  }

  lemma ListGoes(s: State, cfg: Config, luck: Luck)
    requires Quiet(s, cfg, luck) && s.running.Some? && s.running.value.at.List?
    ensures Goes(s, DoList(s, cfg, s.running.value.obj, s.running.value.at.db, luck.fate(ListMigrations)), cfg, luck)
  {
    var obj := s.running.value.obj;
    ReportGoes(s, cfg, luck, obj, "MigrationsListFailed");
    ReportGoes(s, cfg, luck, obj, "MigrationsNotReady");
    hide MigrationsReady, Report, SecretsPart, SyncPart, ReportNow;
  }

  lemma ToStageGoes(s: State, cfg: Config, luck: Luck, obj: CR, sync: Sync, c: Conn)
    requires s.world.proj == Some(obj)
    ensures var t := ToStage(s, cfg, obj, sync, c);
      && Quiet(t, cfg, luck) && Rest(t, cfg, luck) == Tail(SyncStage(s.world, cfg, luck, obj, c, sync), cfg, luck, sync, c)
      && Budget(t) <= if sync.Jwt? then 12 else 7
    decreases sync.Jwt?
  {
    hide HashOf, SetReady, Past;
    if HashOf(cfg, sync, c) == StatusHash(sync, obj) {
      assert SyncStage(s.world, cfg, luck, obj, c, sync) == (s.world, obj, true);
      hide SyncStage;
      PastGoes(s, cfg, luck, obj, sync, c);
    } else {
      hide SyncStage;
    }
  }

  lemma PastGoes(s: State, cfg: Config, luck: Luck, obj: CR, sync: Sync, c: Conn)
    requires s.world.proj == Some(obj)
    ensures var t := Past(s, cfg, obj, sync, c);
      && Quiet(t, cfg, luck) && Rest(t, cfg, luck) == Tail((s.world, obj, true), cfg, luck, sync, c)
      && Budget(t) <= if sync.Jwt? then 7 else 2
    decreases sync.Jwt?, 0
  {
    hide SyncStage, HashOf;
    if sync.Jwt? {
      ToStageGoes(s, cfg, luck, obj, Password, c);
      hide ToStage, Rest, Quiet;
    } else {
      ProjectReady.NotReadyNow(obj, true, "ReconcileSucceeded");
      hide SetCondition, IsTrue, StoreStatus;
    }
  }

  lemma PasswordGoes(s: State, cfg: Config, luck: Luck)
    requires Quiet(s, cfg, luck) && s.running.Some? && s.running.value.at.GetPassword?
    ensures Goes(s, DoGetPassword(s, cfg, s.running.value.obj, s.running.value.at.db, luck.fate(ReadPassword)), cfg, luck)
  {
    var obj, db := s.running.value.obj, s.running.value.at.db;
    assert s.world.proj == Some(obj) && Budget(s) == 13;
    assert Rest(s, cfg, luck) == Join(PasswordPart(s.world, cfg, luck, obj, db), cfg, luck, obj);
    hide PasswordAt, Report, ReportNow, ToStage, SyncPart, Quiet, Rest, Budget;
    if luck.fate(ReadPassword).Fine? && PasswordAt(s.world.store, cfg.namespace, db.password).Some? {
      hide DoGetPassword;
      SyncGoes(s, cfg, luck, obj, db);
    } else {
      IdleQuiet(Leave(s), cfg, luck);
      ReportGoes(s, cfg, luck, obj, "DBPasswordValueFailed");
    }
  }

  lemma SyncGoes(s: State, cfg: Config, luck: Luck, obj: CR, db: Resolved)
    requires s.world.proj == Some(obj) && PasswordAt(s.world.store, cfg.namespace, db.password).Some?
    ensures var c := Conn(db, PasswordAt(s.world.store, cfg.namespace, db.password).value, obj.spec.jwtExpSec);
      var t := DoGetPassword(s, cfg, obj, db, Fine);
      Quiet(t, cfg, luck) && Rest(t, cfg, luck) == SyncPart(s.world, cfg, luck, obj, c) && Budget(t) <= 12
  {
    var password := PasswordAt(s.world.store, cfg.namespace, db.password).value;
    var c := Conn(db, password, obj.spec.jwtExpSec);
    var t := Note(s.(world := s.world.(observed := s.world.observed + [c])), SawPassword(db.password, password));
    hide PasswordAt, ToStage, SyncPart, Tail, SyncStage, Quiet, Rest, Budget;
    ToStageGoes(t, cfg, luck, obj, Jwt, c);
    SyncPartTail(s.world, cfg, luck, obj, c);
  }

  lemma SyncPartTail(w: World, cfg: Config, luck: Luck, obj: CR, c: Conn)
    ensures SyncPart(w, cfg, luck, obj, c)
         == Tail(SyncStage(w.(observed := w.observed + [c]), cfg, luck, obj, c, Jwt), cfg, luck, Jwt, c)
  {
    hide SyncStage, StoreStatus, SetReady;
    var r := SyncStage(w.(observed := w.observed + [c]), cfg, luck, obj, c, Jwt);
    if r.2 {
      var u := SyncStage(r.0, cfg, luck, r.1, c, Password);
      assert Tail(r, cfg, luck, Jwt, c) == Tail(u, cfg, luck, Password, c);
    }
  }

  // ---- the children ----

  /** What is left once the ensure of the child has gone this way. */
  function AfterChild(w: World, cfg: Config, luck: Luck, obj: CR, child: Child, outcome: Project.Outcome): World {
    if outcome.Ends? then w
    else if outcome.Fails? then Report(w, luck, obj, FailReason(child))
    else
      match child
      case TheMigration(db) => Join(ListPart(w, cfg, luck, obj, db), cfg, luck, obj)
      case JWTSecret(db) => Join(KeysPart(w, cfg, luck, obj, db), cfg, luck, obj)
      case KeysSecret(db) => Join(PasswordPart(w, cfg, luck, obj, db), cfg, luck, obj)
      case SyncJob(sync, c) => Tail(AwaitJob(w, cfg, luck, obj, c, sync), cfg, luck, sync, c)
  }

  /** The ensure of the child in one step. */
  function ChildAt(w: World, cfg: Config, luck: Luck, obj: CR, child: Child): (World, Project.Outcome) {
    if child.TheMigration? then MigrationAt(w, cfg, luck, obj)
    else EnsureAt(w, cfg, luck, PointOf(child), CallFor(cfg, obj, child, luck.generated))
  }

  lemma RestFromChild(w: World, cfg: Config, luck: Luck, obj: CR, child: Child)
    requires child.SyncJob? ==> HashOf(cfg, child.sync, child.c) != StatusHash(child.sync, obj)
    ensures var (v, outcome) := ChildAt(w, cfg, luck, obj, child);
      RestOfChild(w, cfg, luck, obj, child) == AfterChild(v, cfg, luck, obj, child, outcome)
  {
    hide MigrationAt, EnsureAt, SecretCall, JobCall, SyncPart, PasswordPart, AwaitJob, Report, HashOf, MigrationsReady;
    match child
    case TheMigration(db) => hide SecretsPart;
    case JWTSecret(db) =>
    case KeysSecret(db) =>
    case SyncJob(sync, c) => RestFromJob(w, cfg, luck, obj, sync, c);
  }

  lemma RestFromJob(w: World, cfg: Config, luck: Luck, obj: CR, sync: Sync, c: Conn)
    requires HashOf(cfg, sync, c) != StatusHash(sync, obj)
    ensures var (v, outcome) := ChildAt(w, cfg, luck, obj, SyncJob(sync, c));
      Tail(SyncStage(w, cfg, luck, obj, c, sync), cfg, luck, sync, c)
      == AfterChild(v, cfg, luck, obj, SyncJob(sync, c), outcome)
  {
    var (v, outcome) := ChildAt(w, cfg, luck, obj, SyncJob(sync, c));
    hide EnsureAt, JobCall, AwaitJob, Report, HashOf, Reason;
    StoppedTail(w, cfg, luck, obj, sync, c);
    match outcome
    case Ends => assert SyncStage(w, cfg, luck, obj, c, sync) == (v, obj, false);
    case Fails => assert SyncStage(w, cfg, luck, obj, c, sync) == (Report(v, luck, obj, Reason(sync, "Failed")), obj, false);
    case Proceed => hide Tail;
  }

  lemma StoppedTail(w: World, cfg: Config, luck: Luck, obj: CR, sync: Sync, c: Conn)
    ensures forall v :: Tail((v, obj, false), cfg, luck, sync, c) == v
  {
  }

  lemma EnsuredGoes(s: State, cfg: Config, luck: Luck, obj: CR, child: Child)
    requires s.world.proj == Some(obj)
    requires child.SyncJob? ==> HashOf(cfg, child.sync, child.c) != StatusHash(child.sync, obj)
    ensures var t := Ensured(s, obj, child);
      && Quiet(t, cfg, luck) && Rest(t, cfg, luck) == AfterChild(s.world, cfg, luck, obj, child, Proceed)
      && Budget(t) < ChildBudget(child)
  {
    hide ListPart, KeysPart, PasswordPart, AwaitJob, Join, Tail, HashOf;
  }

  /** The end of an ensure: the store is as it left it, and the outcome decides. */
  lemma OutcomeGoes(s: State, t: State, u: State, cfg: Config, luck: Luck, obj: CR, child: Child, outcome: Project.Outcome)
    requires s.running.Some? && s.running.value.obj == obj && Quiet(s, cfg, luck) && s.world.proj == Some(obj)
    requires s.running.value.at == Fetch(child) || (s.running.value.at.Put? && s.running.value.at.child == child)
    requires t == s.(world := s.world.(store := t.world.store)) && (t.world, outcome) == ChildAt(s.world, cfg, luck, obj, child)
    requires u == if outcome.Ends? then Leave(t)
                  else if outcome.Fails? then ReportNow(t, obj, FailReason(child)) else Ensured(t, obj, child)
    ensures Goes(s, u, cfg, luck)
  {
    hide HashOf, ChildAt, AfterChild, RestOfChild, ReportNow, Ensured, FailReason, Report;
    RestFromChild(s.world, cfg, luck, obj, child);
    assert Rest(s, cfg, luck) == RestOfChild(s.world, cfg, luck, obj, child) && Budget(s) >= ChildBudget(child) > 2;
    OutcomeRest(t.world, cfg, luck, obj, child, outcome);
    if outcome.Fails? {
      ReportGoes(t, cfg, luck, obj, FailReason(child));
    } else if outcome.Proceed? {
      EnsuredGoes(t, cfg, luck, obj, child);
    }
    hide Quiet;
    assert outcome.Ends? ==> Quiet(u, cfg, luck) by { IdleQuiet(u, cfg, luck); }
  }

  lemma IdleQuiet(s: State, cfg: Config, luck: Luck)
    ensures s.running.None? ==> Quiet(s, cfg, luck) && Rest(s, cfg, luck) == s.world && Budget(s) == 0
  {
  }

  lemma OutcomeRest(w: World, cfg: Config, luck: Luck, obj: CR, child: Child, outcome: Project.Outcome)
    ensures outcome.Ends? ==> AfterChild(w, cfg, luck, obj, child, outcome) == w
    ensures outcome.Fails? ==> AfterChild(w, cfg, luck, obj, child, outcome) == Report(w, luck, obj, FailReason(child))
  {
    hide Report, Join, Tail;
  }

  lemma FetchGoes(s: State, cfg: Config, luck: Luck)
    requires Quiet(s, cfg, luck) && s.running.Some? && s.running.value.at.Fetch?
    ensures Goes(s, DoFetch(s, cfg, s.running.value.obj, s.running.value.at.child, FateAt(s, cfg, luck), luck.generated), cfg, luck)
  {
    var obj, child := s.running.value.obj, s.running.value.at.child;
    var attempt := Begin(s.world.store, CallFor(cfg, obj, child, luck.generated));
    var t := DoFetch(s, cfg, obj, child, FateAt(s, cfg, luck), luck.generated);
    if !Deletes(obj, child) && !attempt.Finished? {
      assert t == Goto(s, obj, Put(child, attempt));
      hide RestOfChild, Begin, CallFor, HashOf, DoFetch;
    } else {
      FetchOutcome(s, cfg, luck, obj, child);
      hide DoFetch, Begin, CallFor, ChildAt, Ensured, ReportNow, FateAt, MigrationAt, Quiet, Goes;
      var (v, outcome) := ChildAt(s.world, cfg, luck, obj, child);
      assert s.world.proj == Some(obj) by { QuietObj(s, cfg, luck); }
      OutcomeGoes(s, s.(world := v), t, cfg, luck, obj, child, outcome);
    }
  }

  lemma QuietObj(s: State, cfg: Config, luck: Luck)
    requires Quiet(s, cfg, luck) && s.running.Some? && !s.running.value.at.StatusGet? && !s.running.value.at.StatusWrite?
    ensures s.world.proj == Some(s.running.value.obj)
  {
  }

  /** A fetch that needs no write is the whole ensure. */
  lemma FetchOutcome(s: State, cfg: Config, luck: Luck, obj: CR, child: Child)
    requires s.running == Some(Running(obj, Fetch(child)))
    requires Deletes(obj, child) || Begin(s.world.store, CallFor(cfg, obj, child, luck.generated)).Finished?
    ensures var (v, outcome) := ChildAt(s.world, cfg, luck, obj, child);
      var t := s.(world := v);
      && v == s.world.(store := v.store)
      && DoFetch(s, cfg, obj, child, FateAt(s, cfg, luck), luck.generated)
         == if outcome.Ends? then Leave(t)
            else if outcome.Fails? then ReportNow(t, obj, FailReason(child)) else Ensured(t, obj, child)
  {
    hide Begin, SecretCall, JobCall, MigrationCall, Ensured, ReportNow, FailReason, DeleteFrom, MigrationKey;
    assert s.world.(store := s.world.store) == s.world && s.(world := s.world) == s;
  }

  lemma PutGoes(s: State, cfg: Config, luck: Luck)
    requires Quiet(s, cfg, luck) && s.running.Some? && s.running.value.at.Put?
    ensures var at := s.running.value.at;
      Goes(s, DoPut(s, cfg, s.running.value.obj, at.child, at.attempt, FateAt(s, cfg, luck)), cfg, luck)
  {
    var obj, child, attempt := s.running.value.obj, s.running.value.at.child, s.running.value.at.attempt;
    PutOutcome(s, cfg, luck, obj, child, attempt);
    var t := DoPut(s, cfg, obj, child, attempt, FateAt(s, cfg, luck));
    hide DoPut, Begin, CallFor, ChildAt, Ensured, ReportNow, FateAt, MigrationAt, Goes;
    assert s.world.proj == Some(obj);
    hide Quiet;
    var (v, outcome) := ChildAt(s.world, cfg, luck, obj, child);
    OutcomeGoes(s, s.(world := v), t, cfg, luck, obj, child, outcome);
  }

  /** The write of an ensure, with the store as it was read. */
  lemma PutOutcome(s: State, cfg: Config, luck: Luck, obj: CR, child: Child, attempt: Attempt)
    requires s.running == Some(Running(obj, Put(child, attempt))) && !Deletes(obj, child)
    requires attempt == Begin(s.world.store, CallFor(cfg, obj, child, luck.generated))
    ensures var (v, outcome) := ChildAt(s.world, cfg, luck, obj, child);
      var t := s.(world := v);
      && v == s.world.(store := v.store)
      && DoPut(s, cfg, obj, child, attempt, FateAt(s, cfg, luck))
         == if outcome.Ends? then Leave(t)
            else if outcome.Fails? then ReportNow(t, obj, FailReason(child)) else Ensured(t, obj, child)
  {
    hide Begin, Finish, SecretCall, JobCall, MigrationCall, Ensured, ReportNow, FailReason;
    assert s.world.(store := s.world.store) == s.world && s.(world := s.world) == s;
  }

  // ---- the Jobs and the status ----

  lemma FetchJobGoes(s: State, cfg: Config, luck: Luck)
    requires Quiet(s, cfg, luck) && s.running.Some? && s.running.value.at.FetchJob?
    ensures var r := s.running.value;
      Goes(s, DoFetchJob(s, cfg, r.obj, r.at.sync, r.at.c, FateAt(s, cfg, luck)), cfg, luck)
  {
    var obj, sync, c := s.running.value.obj, s.running.value.at.sync, s.running.value.at.c;
    hide HashOf, Report, ReportNow, JobKey, Reason, StoreSyncHash, Tail;
    ReportGoes(s, cfg, luck, obj, Reason(sync, "Failed"));
    ReportGoes(s, cfg, luck, obj, Reason(sync, "InProgress"));
    AwaitTail(s.world, cfg, luck, obj, sync, c);
  }

  lemma AwaitTail(w: World, cfg: Config, luck: Luck, obj: CR, sync: Sync, c: Conn)
    ensures Tail((w, obj, false), cfg, luck, sync, c) == w
    ensures var r := AwaitJob(w, cfg, luck, obj, c, sync);
      !r.2 ==> Tail(r, cfg, luck, sync, c) == r.0
  {
    hide AwaitJob;
  }

  lemma WriteGoes(s: State, cfg: Config, luck: Luck)
    requires Quiet(s, cfg, luck) && s.running.Some? && s.running.value.at.StatusWrite?
    ensures var at := s.running.value.at;
      Goes(s, DoStatusWrite(s, cfg, s.running.value.obj, at.next, at.seen, at.left, FateAt(s, cfg, luck)), cfg, luck)
  {
    var obj, next := s.running.value.obj, s.running.value.at.next;
    var t := Rewritten(s, obj, next);
    if next.AfterHash? {
      assert t.world.proj == Some(obj);
      assert !luck.fate(StoreHash(next.sync)).Lost? ==> t.world == StoreSyncHash(s.world, luck, obj, next.sync);
      PastGoes(t, cfg, luck, obj, next.sync, next.c);
      AwaitStops(s.world, cfg, luck, obj, next.sync, next.c);
      hide Past, Tail, StoreSyncHash, Rewritten;
    } else {
      assert t.world == StoreStatus(s.world, obj);
      hide StoreStatus, Rewritten, IsTrue;
    }
  }

  lemma AwaitStops(w: World, cfg: Config, luck: Luck, obj: CR, sync: Sync, c: Conn)
    ensures luck.fate(StoreHash(sync)).Lost? ==> StoreSyncHash(w, luck, obj, sync) == w
    ensures forall v :: Tail((v, obj, false), cfg, luck, sync, c) == v
  {
    hide StoreStatus;
  }

  lemma GetGoes(s: State, cfg: Config, luck: Luck)
    requires Quiet(s, cfg, luck) && s.running.Some? && s.running.value.at.StatusGet?
    ensures Goes(s, Continue(s, cfg, Fine, luck.generated), cfg, luck)
  {
    hide Tail, StoreSyncHash, IsTrue, HashOf;
  }

  lemma ContinueGoes(s: State, cfg: Config, luck: Luck)
    requires Quiet(s, cfg, luck) && s.running.Some?
    ensures Goes(s, Continue(s, cfg, FateAt(s, cfg, luck), luck.generated), cfg, luck)
  {
    hide Quiet, Goes;
    match s.running.value.at
    case Resolve => ResolveGoes(s, cfg, luck);
    case Fetch(_) => FetchGoes(s, cfg, luck);
    case Put(_, _) => PutGoes(s, cfg, luck);
    case List(_) => ListGoes(s, cfg, luck);
    case GetPassword(_) => PasswordGoes(s, cfg, luck);
    case FetchJob(_, _) => FetchJobGoes(s, cfg, luck);
    case StatusGet(_, _) => GetGoes(s, cfg, luck);
    case StatusWrite(_, _, _) => WriteGoes(s, cfg, luck);
  }

  lemma {:induction false} DriveEnds(s: State, cfg: Config, luck: Luck, calls: nat)
    requires Quiet(s, cfg, luck) && Budget(s) <= calls
    ensures var t := Drive(s, cfg, luck, calls);
      t.running.None? && t.world == Rest(s, cfg, luck)
    decreases calls
  {
    hide Quiet, Rest, Continue, FateAt;
    IdleQuiet(s, cfg, luck);
    if s.running.Some? {
      assert Budget(s) > 0 by { hide WriteBudget, ChildBudget; }
      ContinueGoes(s, cfg, luck);
      hide Budget;
      DriveEnds(Continue(s, cfg, FateAt(s, cfg, luck), luck.generated), cfg, luck, calls - 1);
    }
  }

  /**
   So the one step of `Project` is what the pass does when nobody disturbs it: with any
   luck, after at most twenty-one calls it has ended, and the world is the same, with all
   it stored, logged and observed.
   */
  lemma UndisturbedPass(s: State, cfg: Config, luck: Luck)
    requires s.running.None? && s.world.proj.Some?
    ensures var t := Drive(BeginPass(s), cfg, luck, 21);
      t.running.None? && t.world == Pass(s.world, cfg, luck)
  {
    assert Quiet(BeginPass(s), cfg, luck) && Rest(BeginPass(s), cfg, luck) == Pass(s.world, cfg, luck) by {
      hide Pass;
    }
    hide Drive, Rest, Quiet, Pass;
    DriveEnds(BeginPass(s), cfg, luck, 21);
  }
}
