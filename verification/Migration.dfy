/**
 The Migration controller. A pass is cut at its API calls; any call may fail, with or
 without having been carried out. The log records what passes saw, created and stored.
 */
module Migration {
  import opened Wrappers
  import opened Objects
  import opened Mutate
  import opened Store
  import opened Ensure
  import opened Status
  import opened Database
  import Preimage

  datatype MigrationStatus = MigrationStatus(conditions: seq<Condition>, appliedHash: string)

  datatype CR = CR(uid: string, version: nat, generation: int, spec: MigrationSpec, status: MigrationStatus)

  /** Where a pass stands before its next API call; `left` counts the attempts of a status write. */
  datatype Pass =
    | Resolve(obj: CR)
    | ConfigGet(obj: CR, db: Resolved)
    | ConfigWrite(obj: CR, db: Resolved, attempt: Ensure.Attempt)
    | JobEnsure(obj: CR, db: Resolved)
    | JobWrite(obj: CR, attempt: Ensure.Attempt)
    | JobGet(obj: CR)
    | StatusGet(obj: CR, left: nat)
    | StatusWrite(obj: CR, seen: nat, left: nat)

  datatype Event =
    | JobSeen(uid: string, job: JobStatus)
    | JobCreated(uid: string)
    | Stored(uid: string, scripts: seq<MigrationEntry>, status: MigrationStatus)

  /** `names` has every UID ever given out, with the name it was given to. */
  datatype State = State(crs: map<string, CR>, databases: map<string, SingleDatabase>, store: Store,
                         names: map<string, string>, clock: nat, passes: map<string, Pass>, log: seq<Event>)

  /** `overlay` lays the user's pod template over the operator's, unless the patch is malformed. */
  datatype Config = Config(namespace: string, server: Server, digest: string -> string,
                           overlay: (PodTemplate, Raw) -> Option<PodTemplate>)

  /** How an API call goes: carried out; not carried out; carried out, but reported as failed. */
  datatype Answer = Fine | Lost | Unheard

  function Hash(cfg: Config, scripts: seq<MigrationEntry>): string {
    cfg.digest(Preimage.MigrationText(scripts))
  }

  // ---- the two child objects ----

  const BATCH_FILE := "batch.sql"
  const MOUNT_PATH := "/etc/supabase/migrations"
  const TABLE := "supabase_operator._operator_migrations"

  function Labels(n: string): StringMap {
    map["app.kubernetes.io/name" := "migration", "app.kubernetes.io/component" := "migration",
        "app.kubernetes.io/instance" := n, "app.kubernetes.io/managed-by" := "supabase-operator"]
  }

  function ChildMeta(cfg: Config, name: string, n: string): Meta {
    Meta(cfg.namespace, name, 0, 0, false, {}, [], Labels(n), map[])
  }

  function MigrationConfigMap(cfg: Config, n: string, obj: CR): Object {
    Object(ChildMeta(cfg, n + "-sql", n), ConfigMap(map[BATCH_FILE := Preimage.BatchText(obj.spec.migrations)], map[]))
  }

  function JobEnv(cfg: Config, obj: CR, db: Resolved): seq<EnvVar> {
    [Variable("PGHOST", db.host), Variable("PGPORT", Preimage.Itoa(db.port)), Variable("PGUSER", db.user),
     FromSecret("PGPASSWORD", db.password), Variable("PGDATABASE", db.dbName), Variable("MIGRATION_TABLE", TABLE),
     Variable("MIGRATION_HASH", Hash(cfg, obj.spec.migrations)),
     Variable("MIGRATION_BATCH_PATH", MOUNT_PATH + "/" + BATCH_FILE)]
  }

  /** Image, command, script and mounts are fixed; code 1 stands for them. */
  function BaseTemplate(cfg: Config, n: string, obj: CR, db: Resolved): PodTemplate {
    var managed := Managed(1, 1, 1, UNSET, UNSET, [], JobEnv(cfg, obj, db), UNSET, 1, UNSET, UNSET, 1, UNSET);
    PodTemplate(Labels(n), map[], UNSET,
                PodSpec(UNSET, map[], UNSET, UNSET, UNSET, None,
                        [Volume("migrations", None, Some(Ref(n + "-sql", None)), None, UNSET)], UNSET, UNSET, UNSET, [],
                        [NO_CONTAINER.(name := "migration", managed := managed)], UNSET))
  }

  function MigrationJob(cfg: Config, n: string, obj: CR, db: Resolved): Option<Object> {
    var template := cfg.overlay(BaseTemplate(cfg, n, obj, db), obj.spec.pod);
    if template.None? then None
    else Some(Object(ChildMeta(cfg, n + "-job", n), Job(JobSpec(UNSET, template.value, 1), JobStatus(0, 0))))
  }

  // ---- one API call of a pass ----

  function Goto(s: State, n: string, p: Pass): State { s.(passes := s.passes[n := p]) }

  function Leave(s: State, n: string): State { s.(passes := s.passes - {n}) }

  function Log(s: State, e: Event): State { s.(log := s.log + [e]) }

  function SetReady(obj: CR, ready: bool, reason: string): CR {
    obj.(status := obj.status.(
           conditions := SetCondition(obj.status.conditions, Condition(READY, ready, reason, reason, obj.generation))))
  }

  function Report(s: State, n: string, obj: CR, reason: string): State {
    Goto(s, n, StatusGet(SetReady(obj, false, reason), ATTEMPTS))
  }

  function MarkReady(cfg: Config, obj: CR): CR {
    SetReady(obj.(status := obj.status.(appliedHash := Hash(cfg, obj.spec.migrations))), true, "ReconcileSucceeded")
  }

  function JobKey(cfg: Config, n: string): Key { Key(KindJob, cfg.namespace, n + "-job") }

  function OwnerOf(cfg: Config, n: string, obj: CR): Option<Owner> {
    Some(Owner("Migration", cfg.namespace, n, obj.uid))
  }

  function ConfigMapCall(cfg: Config, n: string, obj: CR): Call {
    Call(MigrationConfigMap(cfg, n, obj), OwnerOf(cfg, n, obj), MutateConfigMap)
  }

  function BeginPass(s: State, n: string): State {
    if n in s.passes || n !in s.crs then s else Goto(s, n, Resolve(s.crs[n]))
  }

  function Continue(s: State, cfg: Config, n: string, a: Answer): State {
    if n !in s.passes then s
    else
      match s.passes[n]
      case Resolve(obj) => DoResolve(s, n, obj, a)
      case ConfigGet(obj, db) =>
        if !a.Fine? then Report(s, n, obj, "ConfigMapFailed")
        else Goto(s, n, ConfigWrite(obj, db, Begin(s.store, ConfigMapCall(cfg, n, obj))))
      case ConfigWrite(obj, db, attempt) => DoConfigWrite(s, cfg, n, obj, db, attempt, a)
      case JobEnsure(obj, db) =>
        var job := MigrationJob(cfg, n, obj, db);
        if job.None? || !a.Fine? then Report(s, n, obj, "JobFailed")
        else Goto(s, n, JobWrite(obj, Begin(s.store, Call(job.value, OwnerOf(cfg, n, obj), MutateJob))))
      case JobWrite(obj, attempt) => DoJobWrite(s, cfg, n, obj, attempt, a)
      case JobGet(obj) => DoJobGet(s, cfg, n, obj, a)
      case StatusGet(obj, left) =>
        if !a.Fine? || n !in s.crs || s.crs[n].status == obj.status then Leave(s, n)
        else Goto(s, n, StatusWrite(obj, s.crs[n].version, left))
      case StatusWrite(obj, seen, left) => DoStatusWrite(s, n, obj, seen, left, a)
  }

  function DoResolve(s: State, n: string, obj: CR, a: Answer): State {
    var r := ResolveRef(s.databases, obj.spec.databaseRef);
    if !a.Fine? || r.Unsupported? then Report(s, n, obj, "DatabaseResolutionFailed")
    else if r.NotReady? then Report(s, n, obj, "DatabaseNotReady")
    else Goto(s, n, ConfigGet(obj, r.db))
  }

  function DoConfigWrite(s: State, cfg: Config, n: string, obj: CR, db: Resolved, attempt: Ensure.Attempt, a: Answer): State {
    var (store, r) := Finish(s.store, cfg.server, attempt);
    var t := if a.Lost? then s else s.(store := store);
    if !a.Fine? || r.Failed? then Report(t, n, obj, "ConfigMapFailed")
    else if obj.status.appliedHash != "" then Leave(t, n)
    else Goto(t, n, JobEnsure(obj, db))
  }

  function DoJobWrite(s: State, cfg: Config, n: string, obj: CR, attempt: Ensure.Attempt, a: Answer): State {
    var (store, r) := Finish(s.store, cfg.server, attempt);
    var t := if a.Lost? then s
             else if r.Created? then Log(s.(store := store), JobCreated(obj.uid))
             else s.(store := store);
    if !a.Fine? || r.Failed? then Report(t, n, obj, "JobFailed") else Goto(t, n, JobGet(obj))
  }

  function DoJobGet(s: State, cfg: Config, n: string, obj: CR, a: Answer): State {
    var k := JobKey(cfg, n);
    if !a.Fine? || k !in s.store.objects || !s.store.objects[k].body.Job? then Report(s, n, obj, "JobGetFailed")
    else
      var job := s.store.objects[k].body.jobStatus;
      var t := Log(s, JobSeen(obj.uid, job));
      if job.failed > 0 then Report(t, n, obj, "JobFailed")
      else if job.succeeded == 0 then Report(t, n, obj, "JobInProgress")
      else Goto(t, n, StatusGet(MarkReady(cfg, obj), ATTEMPTS))
  }

  function DoStatusWrite(s: State, n: string, obj: CR, seen: nat, left: nat, a: Answer): State {
    if a.Lost? || n !in s.crs then Leave(s, n)
    else if s.crs[n].version != seen then
      if left <= 1 || !a.Fine? then Leave(s, n) else Goto(s, n, StatusGet(obj, left - 1))
    else
      var stored := s.crs[n].(status := obj.status, version := s.clock);
      Leave(Log(s.(crs := s.crs[n := stored], clock := s.clock + 1),
                Stored(stored.uid, stored.spec.migrations, stored.status)), n)
  }

  // ---- runs ----

  datatype Action =
    | Start(name: string)
    | Next(name: string, answer: Answer)
    | Crash(name: string)
    | Create(name: string, uid: string, spec: MigrationSpec)
    | Edit(name: string, pod: Raw, databaseRef: DatabaseRef)
    | Remove(name: string)
    | SetDatabase(database: string, value: SingleDatabase)
    | RemoveDatabase(database: string)
    | OtherPut(obj: Object)
    | OtherDelete(key: Key)

  /** The script list cannot be edited; anyone may do anything to Jobs and ConfigMaps. */
  function Step(s: State, cfg: Config, a: Action): State {
    match a
    case Start(n) => BeginPass(s, n)
    case Next(n, answer) => Continue(s, cfg, n, answer)
    case Crash(n) => Leave(s, n)
    case Create(n, uid, spec) =>
      if n in s.crs || uid in s.names then s
      else s.(crs := s.crs[n := CR(uid, s.clock, 1, spec, MigrationStatus([], ""))],
              names := s.names[uid := n], clock := s.clock + 1)
    case Edit(n, pod, databaseRef) =>
      if n !in s.crs then s
      else
        var edited := s.crs[n].(spec := s.crs[n].spec.(pod := pod, databaseRef := databaseRef),
                                version := s.clock, generation := s.crs[n].generation + 1);
        s.(crs := s.crs[n := edited], clock := s.clock + 1)
    case Remove(n) => s.(crs := s.crs - {n})
    case SetDatabase(d, value) => s.(databases := s.databases[d := value])
    case RemoveDatabase(d) => s.(databases := s.databases - {d})
    case OtherPut(o) => s.(store := PutIn(s.store, o))
    case OtherDelete(k) => s.(store := DeleteFrom(s.store, k, None).0)
  }

  function Exec(s: State, cfg: Config, run: seq<Action>): State {
    if run == [] then s else Step(Exec(s, cfg, run[..|run| - 1]), cfg, run[|run| - 1])
  }

  /** No Migration is created under the name of one that a pass still works on. */
  predicate Orderly(s: State, a: Action) { a.Create? ==> a.name !in s.passes }

  predicate OrderlyRun(s: State, cfg: Config, run: seq<Action>) {
    run != [] ==>
      OrderlyRun(s, cfg, run[..|run| - 1]) && Orderly(Exec(s, cfg, run[..|run| - 1]), run[|run| - 1])
  }

  // ---- what a log may hold ----

  /** The hash last stored for a Migration, or the empty text. */
  function Applied(log: seq<Event>, uid: string): string {
    if log == [] then ""
    else
      var last := log[|log| - 1];
      if last.Stored? && last.uid == uid then last.status.appliedHash else Applied(log[..|log| - 1], uid)
  }

  ghost predicate SawSuccess(log: seq<Event>, uid: string) {
    exists job :: JobSeen(uid, job) in log && job.succeeded > 0 && job.failed == 0
  }

  /**
   An applied hash is the hash of the script list, comes after a pass saw the Job
   succeed without failures, and never changes; Ready is stored only together with it;
   and no Job is created after it.
   */
  ghost predicate EventOk(cfg: Config, before: seq<Event>, e: Event) {
    match e
    case JobSeen(_, _) => true
    case JobCreated(uid) => Applied(before, uid) == ""
    case Stored(uid, scripts, status) =>
      && (status.appliedHash != "" ==> status.appliedHash == Hash(cfg, scripts) && SawSuccess(before, uid))
      && (Applied(before, uid) != "" ==> status.appliedHash == Applied(before, uid))
      && (IsTrue(status.conditions, READY) ==> status.appliedHash != "")
  }

  ghost predicate LogOk(cfg: Config, log: seq<Event>) {
    log != [] ==> LogOk(cfg, log[..|log| - 1]) && EventOk(cfg, log[..|log| - 1], log[|log| - 1])
  }

  // ---- the invariant ----

  ghost predicate StatusOk(cfg: Config, log: seq<Event>, obj: CR) {
    && (obj.status.appliedHash != "" ==>
          obj.status.appliedHash == Hash(cfg, obj.spec.migrations) && SawSuccess(log, obj.uid))
    && (IsTrue(obj.status.conditions, READY) ==> obj.status.appliedHash != "")
  }

  ghost predicate CROk(s: State, cfg: Config, n: string) {
    n in s.crs ==>
      && s.crs[n].uid in s.names && s.names[s.crs[n].uid] == n
      && StatusOk(cfg, s.log, s.crs[n]) && s.crs[n].status.appliedHash == Applied(s.log, s.crs[n].uid)
  }

  ghost predicate PassOk(s: State, cfg: Config, n: string) {
    n in s.passes ==>
      var p, obj := s.passes[n], s.passes[n].obj;
      && obj.uid in s.names && s.names[obj.uid] == n
      && (n in s.crs ==> s.crs[n].uid == obj.uid && s.crs[n].spec.migrations == obj.spec.migrations)
      && StatusOk(cfg, s.log, obj)
      && (p.StatusGet? || p.StatusWrite? ==>
            Applied(s.log, obj.uid) != "" ==> obj.status.appliedHash == Applied(s.log, obj.uid))
      && (!p.StatusGet? && !p.StatusWrite? ==> obj.status.appliedHash == Applied(s.log, obj.uid))
      && (p.JobEnsure? || p.JobWrite? || p.JobGet? ==> obj.status.appliedHash == "")
  }

  ghost predicate Inv(s: State, cfg: Config) {
    && LogOk(cfg, s.log)
    && (forall e :: e in s.log ==> e.uid in s.names)
    && (forall n :: CROk(s, cfg, n))
    && (forall n :: PassOk(s, cfg, n))
  }

  // ---- every step keeps it ----

  /** Only the Migration `n` and its pass move, and at most one event about it is logged. */
  ghost predicate Local(s: State, t: State, n: string) {
    && (forall m :: m != n ==> (m in s.crs <==> m in t.crs) && (m in s.crs ==> t.crs[m] == s.crs[m]))
    && (forall m :: m != n ==> (m in s.passes <==> m in t.passes) && (m in s.passes ==> t.passes[m] == s.passes[m]))
    && (forall u :: u in s.names ==> u in t.names && t.names[u] == s.names[u])
    && (t.log == s.log
        || (|t.log| == |s.log| + 1 && t.log[..|s.log|] == s.log
            && t.log[|s.log|].uid in s.names && s.names[t.log[|s.log|].uid] == n))
  }

  lemma LogFrame(s: State, t: State, n: string, uid: string)
    requires Local(s, t, n) && uid in s.names && s.names[uid] != n
    ensures Applied(t.log, uid) == Applied(s.log, uid)
  {
  }

  lemma SawFrame(s: State, t: State, n: string, uid: string)
    requires Local(s, t, n) && SawSuccess(s.log, uid)
    ensures SawSuccess(t.log, uid)
  {
    var job :| JobSeen(uid, job) in s.log && job.succeeded > 0 && job.failed == 0;
    assert JobSeen(uid, job) in t.log;
  }

  lemma OtherNames(s: State, t: State, cfg: Config, n: string, m: string)
    requires Local(s, t, n) && m != n && CROk(s, cfg, m) && PassOk(s, cfg, m)
    ensures CROk(t, cfg, m) && PassOk(t, cfg, m)
  {
    if m in s.crs {
      LogFrame(s, t, n, s.crs[m].uid);
      if SawSuccess(s.log, s.crs[m].uid) { SawFrame(s, t, n, s.crs[m].uid); }
    }
    if m in s.passes {
      LogFrame(s, t, n, s.passes[m].obj.uid);
      if SawSuccess(s.log, s.passes[m].obj.uid) { SawFrame(s, t, n, s.passes[m].obj.uid); }
    }
  }

  lemma LocalInv(s: State, t: State, cfg: Config, n: string)
    requires Inv(s, cfg) && Local(s, t, n)
    requires CROk(t, cfg, n) && PassOk(t, cfg, n)
    requires t.log != s.log ==> EventOk(cfg, s.log, t.log[|s.log|])
    ensures Inv(t, cfg)
  {
    hide CROk, PassOk, EventOk;
    forall m ensures CROk(t, cfg, m) && PassOk(t, cfg, m) {
      assert CROk(s, cfg, m) && PassOk(s, cfg, m);
      if m != n {
        OtherNames(s, t, cfg, n, m);
      }
    }
  }

  /** A step of the pass of `n` that leaves the Migration itself alone. */
  lemma PassMoves(s: State, t: State, cfg: Config, n: string)
    requires Inv(s, cfg) && t.crs == s.crs && t.names == s.names && t.log == s.log
    requires t.passes == s.passes || t.passes == s.passes - {n} || (n in t.passes && t.passes == s.passes[n := t.passes[n]])
    requires PassOk(t, cfg, n)
    ensures Inv(t, cfg)
  {
    hide EventOk;
    assert CROk(s, cfg, n);
    LocalInv(s, t, cfg, n);
  }

  lemma NotReadyNow(obj: CR, reason: string)
    ensures !IsTrue(SetReady(obj, false, reason).status.conditions, READY)
    ensures SetReady(obj, false, reason).status.appliedHash == obj.status.appliedHash
    ensures SetReady(obj, false, reason).uid == obj.uid
  {
    SetConditionFinds(obj.status.conditions, Condition(READY, false, reason, reason, obj.generation), READY);
  }

  lemma ReportInv(s: State, cfg: Config, n: string, reason: string)
    requires Inv(s, cfg) && n in s.passes && !s.passes[n].StatusGet? && !s.passes[n].StatusWrite?
    ensures Inv(Report(s, n, s.passes[n].obj, reason), cfg)
  {
    NotReadyNow(s.passes[n].obj, reason);
    assert PassOk(s, cfg, n);
    PassMoves(s, Report(s, n, s.passes[n].obj, reason), cfg, n);
  }

  /** Anything but a Migration, a pass or the log may change. */
  lemma ElsewhereInv(s: State, t: State, cfg: Config)
    requires Inv(s, cfg) && t.crs == s.crs && t.names == s.names && t.passes == s.passes && t.log == s.log
    ensures Inv(t, cfg)
  {
    assert PassOk(s, cfg, "");
    PassMoves(s, t, cfg, "");
  }

  lemma LogsJob(s: State, t: State, cfg: Config, n: string, e: Event)
    requires Inv(s, cfg) && n in s.passes && (s.passes[n].JobWrite? || s.passes[n].JobGet?)
    requires e.uid == s.passes[n].obj.uid && (e.JobCreated? || e.JobSeen?)
    requires t == s.(store := t.store, log := s.log + [e])
    ensures Inv(t, cfg)
  {
    assert PassOk(s, cfg, n) && CROk(s, cfg, n);
    assert t.log[..|s.log|] == s.log;
    assert Local(s, t, n);
    if n in s.crs && SawSuccess(s.log, s.crs[n].uid) { SawFrame(s, t, n, s.crs[n].uid); }
    LocalInv(s, t, cfg, n);
  }

  lemma JobWriteInv(s: State, cfg: Config, n: string, a: Answer)
    requires Inv(s, cfg) && n in s.passes && s.passes[n].JobWrite?
    ensures Inv(Continue(s, cfg, n, a), cfg)
  {
    var obj, attempt := s.passes[n].obj, s.passes[n].attempt;
    var (store, r) := Finish(s.store, cfg.server, attempt);
    var t := if a.Lost? then s
             else if r.Created? then Log(s.(store := store), JobCreated(obj.uid))
             else s.(store := store);
    if !a.Lost? && r.Created? {
      LogsJob(s, t, cfg, n, JobCreated(obj.uid));
    } else {
      ElsewhereInv(s, t, cfg);
    }
    ReportInv(t, cfg, n, "JobFailed");
    assert PassOk(t, cfg, n);
    PassMoves(t, Goto(t, n, JobGet(obj)), cfg, n);
  }

  lemma MarkReadyInv(s: State, cfg: Config, n: string)
    requires Inv(s, cfg) && n in s.passes && s.passes[n].JobGet? && SawSuccess(s.log, s.passes[n].obj.uid)
    requires Hash(cfg, s.passes[n].obj.spec.migrations) != ""
    ensures Inv(Goto(s, n, StatusGet(MarkReady(cfg, s.passes[n].obj), ATTEMPTS)), cfg)
  {
    assert PassOk(s, cfg, n);
    PassMoves(s, Goto(s, n, StatusGet(MarkReady(cfg, s.passes[n].obj), ATTEMPTS)), cfg, n);
  }

  lemma JobGetInv(s: State, cfg: Config, n: string, a: Answer)
    requires Inv(s, cfg) && n in s.passes && s.passes[n].JobGet? && forall x :: cfg.digest(x) != ""
    ensures Inv(Continue(s, cfg, n, a), cfg)
  {
    var k, obj := JobKey(cfg, n), s.passes[n].obj;
    if !a.Fine? || k !in s.store.objects || !s.store.objects[k].body.Job? {
      ReportInv(s, cfg, n, "JobGetFailed");
    } else {
      var job := s.store.objects[k].body.jobStatus;
      var t := Log(s, JobSeen(obj.uid, job));
      LogsJob(s, t, cfg, n, JobSeen(obj.uid, job));
      if job.failed > 0 {
        ReportInv(t, cfg, n, "JobFailed");
      } else if job.succeeded == 0 {
        ReportInv(t, cfg, n, "JobInProgress");
      } else {
        assert JobSeen(obj.uid, job) in t.log;
        MarkReadyInv(t, cfg, n);
      }
    }
  }

  lemma StatusInv(s: State, cfg: Config, n: string, a: Answer)
    requires Inv(s, cfg) && n in s.passes && (s.passes[n].StatusGet? || s.passes[n].StatusWrite?)
    ensures Inv(Continue(s, cfg, n, a), cfg)
  {
    var p, t := s.passes[n], Continue(s, cfg, n, a);
    assert PassOk(s, cfg, n);
    if t.crs == s.crs && t.log == s.log {
      hide Inv, StatusOk;
      PassMoves(s, t, cfg, n);
    } else {
      hide Inv;
      WrittenInv(s, t, cfg, n);
    }
  }

  lemma WrittenInv(s: State, t: State, cfg: Config, n: string)
    requires Inv(s, cfg) && n in s.passes && s.passes[n].StatusWrite? && n in s.crs
    requires var stored := s.crs[n].(status := s.passes[n].obj.status, version := s.clock);
      t == Leave(Log(s.(crs := s.crs[n := stored], clock := s.clock + 1), Stored(stored.uid, stored.spec.migrations, stored.status)), n)
    ensures Inv(t, cfg)
  {
    var obj := s.passes[n].obj;
    assert PassOk(s, cfg, n) && CROk(s, cfg, n);
    assert t.log[..|s.log|] == s.log;
    assert Local(s, t, n);
    if SawSuccess(s.log, obj.uid) { SawFrame(s, t, n, obj.uid); }
    LocalInv(s, t, cfg, n);
  }

  lemma ContinueInv(s: State, cfg: Config, n: string, a: Answer)
    requires Inv(s, cfg) && forall x :: cfg.digest(x) != ""
    ensures Inv(Continue(s, cfg, n, a), cfg)
  {
    if n in s.passes {
      var p, t := s.passes[n], Continue(s, cfg, n, a);
      match p
      case JobWrite(_, _) => JobWriteInv(s, cfg, n, a);
      case JobGet(_) => JobGetInv(s, cfg, n, a);
      case StatusGet(_, _) => StatusInv(s, cfg, n, a);
      case StatusWrite(_, _, _) => StatusInv(s, cfg, n, a);
      case ConfigWrite(obj, db, attempt) => ConfigWriteInv(s, cfg, n, a);
      case _ => EarlyInv(s, cfg, n, a);
    }
  }

  lemma ConfigWriteInv(s: State, cfg: Config, n: string, a: Answer)
    requires Inv(s, cfg) && n in s.passes && s.passes[n].ConfigWrite?
    ensures Inv(Continue(s, cfg, n, a), cfg)
  {
    var obj, db, attempt := s.passes[n].obj, s.passes[n].db, s.passes[n].attempt;
    var t := if a.Lost? then s else s.(store := Finish(s.store, cfg.server, attempt).0);
    ElsewhereInv(s, t, cfg);
    ReportInv(t, cfg, n, "ConfigMapFailed");
    assert PassOk(t, cfg, n);
    PassMoves(t, Leave(t, n), cfg, n);
    if obj.status.appliedHash == "" {
      PassMoves(t, Goto(t, n, JobEnsure(obj, db)), cfg, n);
    }
  }

  lemma ResolveInv(s: State, cfg: Config, n: string, a: Answer)
    requires Inv(s, cfg) && n in s.passes && s.passes[n].Resolve?
    ensures Inv(DoResolve(s, n, s.passes[n].obj, a), cfg)
  {
    var t := DoResolve(s, n, s.passes[n].obj, a);
    assert PassOk(s, cfg, n);
    hide Inv, ResolveRef, Report;
    ReportInv(s, cfg, n, "DatabaseResolutionFailed");
    ReportInv(s, cfg, n, "DatabaseNotReady");
    if n in t.passes && t.passes[n].ConfigGet? {
      PassMoves(s, t, cfg, n);
    }
    hide PassOk;
  }

  lemma FetchInv(s: State, cfg: Config, n: string, p: Pass)
    requires Inv(s, cfg) && n in s.passes && (s.passes[n].ConfigGet? || s.passes[n].JobEnsure?) && p.obj == s.passes[n].obj
    requires if s.passes[n].ConfigGet? then p.ConfigWrite? else p.JobWrite?
    ensures Inv(Goto(s, n, p), cfg)
  {
    assert PassOk(s, cfg, n);
    hide Inv;
    PassMoves(s, Goto(s, n, p), cfg, n);
  }

  lemma EarlyInv(s: State, cfg: Config, n: string, a: Answer)
    requires Inv(s, cfg) && n in s.passes && (s.passes[n].Resolve? || s.passes[n].ConfigGet? || s.passes[n].JobEnsure?)
    ensures Inv(Continue(s, cfg, n, a), cfg)
  {
    var p, t := s.passes[n], Continue(s, cfg, n, a);
    hide Inv, Begin, MigrationJob, MigrationConfigMap, DoResolve, Report;
    match p
    case Resolve(_) => ResolveInv(s, cfg, n, a);
    case ConfigGet(obj, db) =>
      ReportInv(s, cfg, n, "ConfigMapFailed");
      FetchInv(s, cfg, n, ConfigWrite(obj, db, Begin(s.store, ConfigMapCall(cfg, n, obj))));
    case JobEnsure(obj, db) =>
      ReportInv(s, cfg, n, "JobFailed");
      var job := MigrationJob(cfg, n, obj, db);
      if job.Some? {
        FetchInv(s, cfg, n, JobWrite(obj, Begin(s.store, Call(job.value, OwnerOf(cfg, n, obj), MutateJob))));
      }
  }

  lemma {:induction false} NeverLogged(log: seq<Event>, uid: string)
    requires forall e :: e in log ==> e.uid != uid
    ensures Applied(log, uid) == ""
  {
    if log != [] {
      assert log[|log| - 1] in log;
      NeverLogged(log[..|log| - 1], uid);
    }
  }

  lemma CreateInv(s: State, cfg: Config, n: string, uid: string, spec: MigrationSpec)
    requires Inv(s, cfg) && n !in s.passes && n !in s.crs && uid !in s.names
    ensures Inv(Step(s, cfg, Create(n, uid, spec)), cfg)
  {
    var t := Step(s, cfg, Create(n, uid, spec));
    NeverLogged(s.log, uid);
    LocalInv(s, t, cfg, n);
  }

  lemma ObjectInv(s: State, cfg: Config, a: Action)
    requires Inv(s, cfg) && (a.Edit? || a.Remove?)
    ensures Inv(Step(s, cfg, a), cfg)
  {
    assert CROk(s, cfg, a.name) && PassOk(s, cfg, a.name);
    LocalInv(s, Step(s, cfg, a), cfg, a.name);
  }

  lemma BeginPassInv(s: State, cfg: Config, n: string)
    requires Inv(s, cfg)
    ensures Inv(BeginPass(s, n), cfg)
  {
    assert CROk(s, cfg, n) && PassOk(s, cfg, n);
    PassMoves(s, BeginPass(s, n), cfg, n);
  }

  lemma StepInv(s: State, cfg: Config, a: Action)
    requires Inv(s, cfg) && Orderly(s, a) && forall x :: cfg.digest(x) != ""
    ensures Inv(Step(s, cfg, a), cfg)
  {
    hide Inv, Continue, BeginPass;
    match a
    case Start(n) => BeginPassInv(s, cfg, n);
    case Next(n, answer) => ContinueInv(s, cfg, n, answer);
    case Crash(n) => CrashInv(s, cfg, n);
    case Create(n, uid, spec) =>
      if n !in s.crs && uid !in s.names {
        CreateInv(s, cfg, n, uid, spec);
      }
    case Edit(_, _, _) => ObjectInv(s, cfg, a);
    case Remove(_) => ObjectInv(s, cfg, a);
    case _ => ElsewhereInv(s, Step(s, cfg, a), cfg);
  }

  lemma CrashInv(s: State, cfg: Config, n: string)
    requires Inv(s, cfg)
    ensures Inv(Leave(s, n), cfg)
  {
    PassMoves(s, Leave(s, n), cfg, n);
  }

  /** No Migration, no pass, nothing logged yet. */
  predicate Fresh(s: State) { s.crs == map[] && s.passes == map[] && s.log == [] }

  lemma {:induction false} ExecInv(s: State, cfg: Config, run: seq<Action>)
    requires Inv(s, cfg) && OrderlyRun(s, cfg, run) && forall x :: cfg.digest(x) != ""
    ensures Inv(Exec(s, cfg, run), cfg)
  {
    hide Inv, Step;
    if run != [] {
      ExecInv(s, cfg, run[..|run| - 1]);
      StepInv(Exec(s, cfg, run[..|run| - 1]), cfg, run[|run| - 1]);
    }
  }

  // ---- what follows for every run ----

  /**
   Every event of every run is as `EventOk` says: crashes, lost answers, edits, other
   clients and Jobs that come and go do not matter.
   */
  lemma HistoryOk(start: State, cfg: Config, run: seq<Action>)
    requires Fresh(start) && OrderlyRun(start, cfg, run) && forall x :: cfg.digest(x) != ""
    ensures var log := Exec(start, cfg, run).log;
      forall i {:trigger log[i]} :: 0 <= i < |log| ==> EventOk(cfg, log[..i], log[i])
  {
    ExecInv(start, cfg, run);
    var log := Exec(start, cfg, run).log;
    forall i {:trigger log[i]} | 0 <= i < |log| ensures EventOk(cfg, log[..i], log[i]) {
      LogOkAt(cfg, log, i);
    }
  }

  lemma {:induction false} LogOkAt(cfg: Config, log: seq<Event>, i: nat)
    requires LogOk(cfg, log) && i < |log|
    ensures EventOk(cfg, log[..i], log[i])
  {
    hide EventOk;
    if i < |log| - 1 {
      LogOkAt(cfg, log[..|log| - 1], i);
      assert log[..|log| - 1][..i] == log[..i];
    }
  }

  /** The stored state agrees: an applied hash is the hash of the list that is there. */
  lemma StoredOk(start: State, cfg: Config, run: seq<Action>, n: string)
    requires Fresh(start) && OrderlyRun(start, cfg, run) && forall x :: cfg.digest(x) != ""
    ensures var s := Exec(start, cfg, run);
      n in s.crs ==>
      var status := s.crs[n].status;
      && (status.appliedHash != "" ==>
            status.appliedHash == Hash(cfg, s.crs[n].spec.migrations) && SawSuccess(s.log, s.crs[n].uid))
      && (IsTrue(status.conditions, READY) ==> status.appliedHash != "")
  {
    ExecInv(start, cfg, run);
    assert CROk(Exec(start, cfg, run), cfg, n);
  }

  /**
   The guard on runs is needed. A status write finds its object by name: when the
   Migration of a finished pass is replaced before the write, the new one gets the old
   hash, which is its own exactly if the two lists hash alike.
   */
  lemma ReplacedMigrationInheritsHash(s: State, cfg: Config, n: string, uid: string, spec: MigrationSpec, left: nat)
    requires n in s.passes && s.passes[n].StatusGet?
    requires s.passes[n].obj.status.appliedHash == Hash(cfg, s.passes[n].obj.spec.migrations) != ""
    requires uid !in s.names
    ensures var t := Exec(s, cfg, [Remove(n), Create(n, uid, spec), Next(n, Fine), Next(n, Fine)]);
      && n in t.crs && t.crs[n].spec == spec
      && (t.crs[n].status.appliedHash == Hash(cfg, spec.migrations) <==>
            Hash(cfg, s.passes[n].obj.spec.migrations) == Hash(cfg, spec.migrations))
  {
    var s1 := Step(s, cfg, Remove(n));
    var s2 := Step(s1, cfg, Create(n, uid, spec));
    var s3 := Step(s2, cfg, Next(n, Fine));
    FourSteps(s, cfg, Remove(n), Create(n, uid, spec), Next(n, Fine), Next(n, Fine));
    assert s2.passes[n] == s.passes[n] && s2.crs[n].status == MigrationStatus([], "");
    assert s3.passes[n] == StatusWrite(s.passes[n].obj, s2.crs[n].version, s.passes[n].left);
  }

  lemma FourSteps(s: State, cfg: Config, a: Action, b: Action, c: Action, d: Action)
    ensures Exec(s, cfg, [a, b, c, d]) == Step(Step(Step(Step(s, cfg, a), cfg, b), cfg, c), cfg, d)
  {
    hide Step;
    assert Exec(s, cfg, []) == s;
    OneMore(s, cfg, [], a);
    OneMore(s, cfg, [a], b);
    OneMore(s, cfg, [a, b], c);
    OneMore(s, cfg, [a, b, c], d);
    assert [] + [a] == [a] && [a] + [b] == [a, b] && [a, b] + [c] == [a, b, c] && [a, b, c] + [d] == [a, b, c, d];
  }

  lemma OneMore(s: State, cfg: Config, run: seq<Action>, a: Action)
    ensures Exec(s, cfg, run + [a]) == Step(Exec(s, cfg, run), cfg, a)
  {
    assert (run + [a])[..|run|] == run;
  }

  // ---- what the Job is given to run ----

  function BatchKey(cfg: Config, n: string): Key { Key(KindConfigMap, cfg.namespace, n + "-sql") }

  /** The object carries the batch of these scripts under the one name the Job reads. */
  predicate CarriesBatch(o: Object, scripts: seq<MigrationEntry>) {
    && o.body.ConfigMap? && "batch.sql" in o.body.config
    && o.body.config["batch.sql"] == Preimage.BatchText(scripts)
  }

  predicate BatchStored(s: State, cfg: Config, n: string, scripts: seq<MigrationEntry>) {
    BatchKey(cfg, n) in s.store.objects && CarriesBatch(s.store.objects[BatchKey(cfg, n)], scripts)
  }

  /** Some state since the pass of `n` began had the batch stored. */
  ghost predicate StoredSince(start: State, cfg: Config, run: seq<Action>, n: string, scripts: seq<MigrationEntry>) {
    || BatchStored(Exec(start, cfg, run), cfg, n, scripts)
    || (&& run != [] && !(run[|run| - 1] == Start(n) && n !in Exec(start, cfg, run[..|run| - 1]).passes)
        && StoredSince(start, cfg, run[..|run| - 1], n, scripts))
  }

  /** Defaulting leaves ConfigMaps alone. */
  ghost predicate PlainConfig(server: Server) {
    KeepsKind(server) && forall b: Body :: b.ConfigMap? ==> server(b) == b
  }

  /** What the read decided: the batch is there, or is about to be written. */
  predicate BatchPlanned(s: State, cfg: Config, n: string, scripts: seq<MigrationEntry>, a: Ensure.Attempt) {
    if a.Finished? then a.result.Failed? || BatchStored(s, cfg, n, scripts)
    else CarriesBatch(a.obj, scripts) && KeyOf(a.obj) == BatchKey(cfg, n)
  }

  lemma ConfigMapPlanned(s: State, cfg: Config, n: string, obj: CR)
    requires Valid(s.store)
    ensures BatchPlanned(s, cfg, n, obj.spec.migrations, Begin(s.store, ConfigMapCall(cfg, n, obj)))
  {
    var call := ConfigMapCall(cfg, n, obj);
    hide Labels, Preimage.BatchText;
    BeginJustified(s.store, call);
    assert KeyOf(call.desired) == BatchKey(cfg, n);
    if WithOwner(call).Some? {
      assert WithOwner(call).value.body == call.desired.body;
    }
  }

  lemma ConfigMapWritten(s: State, cfg: Config, n: string, scripts: seq<MigrationEntry>, a: Ensure.Attempt)
    requires PlainConfig(cfg.server) && !a.Finished? && BatchPlanned(s, cfg, n, scripts, a)
    requires !Finish(s.store, cfg.server, a).1.Failed?
    ensures BatchStored(s.(store := Finish(s.store, cfg.server, a).0), cfg, n, scripts)
  {
    hide Preimage.BatchText;
  }

  /**
   The ensure of the ConfigMap, whatever others do between its read and its write: if it
   succeeds, the batch of the list was there when it was read, or is there now.
   */
  lemma BatchEnsured(read: State, write: State, cfg: Config, n: string, obj: CR)
    requires Valid(read.store) && PlainConfig(cfg.server)
    requires var a := Begin(read.store, ConfigMapCall(cfg, n, obj)); !Finish(write.store, cfg.server, a).1.Failed?
    ensures var a := Begin(read.store, ConfigMapCall(cfg, n, obj));
      if a.Finished? then BatchStored(read, cfg, n, obj.spec.migrations)
      else BatchStored(write.(store := Finish(write.store, cfg.server, a).0), cfg, n, obj.spec.migrations)
  {
    ConfigMapPlanned(read, cfg, n, obj);
    var a := Begin(read.store, ConfigMapCall(cfg, n, obj));
    hide Begin, ConfigMapCall, PlainConfig, BatchStored, CarriesBatch;
    if !a.Finished? {
      ConfigMapWritten(write, cfg, n, obj.spec.migrations, a);
    } else {
      hide BatchKey;
      assert Finish(write.store, cfg.server, a).1 == a.result;
    }
  }

  /** What holds of the batch where the pass stands; `seen` tells that it has been stored since the pass began. */
  ghost predicate PlaceOk(cfg: Config, n: string, p: Pass, seen: bool) {
    match p
    case Resolve(_) => true
    case ConfigGet(_, _) => true
    case ConfigWrite(obj, _, a) =>
      if a.Finished? then a.result.Failed? || seen
      else CarriesBatch(a.obj, obj.spec.migrations) && KeyOf(a.obj) == BatchKey(cfg, n)
    case StatusGet(obj, _) => IsTrue(obj.status.conditions, READY) ==> seen
    case StatusWrite(obj, _, _) => IsTrue(obj.status.conditions, READY) ==> seen
    case _ => seen
  }

  ghost predicate BatchOk(start: State, cfg: Config, run: seq<Action>, n: string, p: Pass) {
    PlaceOk(cfg, n, p, StoredSince(start, cfg, run, n, p.obj.spec.migrations))
  }

  lemma WriteStore(s: State, cfg: Config, n: string, obj: CR, attempt: Ensure.Attempt, a: Answer)
    ensures forall db :: DoConfigWrite(s, cfg, n, obj, db, attempt, a).store in {s.store, Finish(s.store, cfg.server, attempt).0}
    ensures DoJobWrite(s, cfg, n, obj, attempt, a).store in {s.store, Finish(s.store, cfg.server, attempt).0}
  {
    hide Finish, SetReady;
  }

  lemma ReadStore(s: State, cfg: Config, n: string, obj: CR, a: Answer)
    ensures DoResolve(s, n, obj, a).store == s.store && DoJobGet(s, cfg, n, obj, a).store == s.store
  {
    hide ResolveRef, MarkReady, SetReady;
  }

  lemma StatusStore(s: State, n: string, obj: CR, seen: nat, left: nat, a: Answer)
    ensures DoStatusWrite(s, n, obj, seen, left, a).store == s.store
  {
  }

  lemma ContinueStore(s: State, cfg: Config, n: string, a: Answer)
    ensures var t := Continue(s, cfg, n, a);
      || t.store == s.store
      || (n in s.passes && (s.passes[n].ConfigWrite? || s.passes[n].JobWrite?)
          && t.store == Finish(s.store, cfg.server, s.passes[n].attempt).0)
  {
    hide Begin, Finish, MigrationJob, ConfigMapCall, SetReady;
    hide DoResolve, DoConfigWrite, DoJobWrite, DoJobGet, DoStatusWrite;
    if n in s.passes {
      match s.passes[n]
      case Resolve(obj) => ReadStore(s, cfg, n, obj, a);
      case ConfigWrite(obj, db, attempt) => WriteStore(s, cfg, n, obj, attempt, a);
      case JobWrite(obj, attempt) => WriteStore(s, cfg, n, obj, attempt, a);
      case JobGet(obj) => ReadStore(s, cfg, n, obj, a);
      case StatusWrite(obj, seen, left) => StatusStore(s, n, obj, seen, left, a);
      case _ =>
    }
  }

  lemma StoreValid(s: State, cfg: Config, a: Action)
    requires Valid(s.store) && KeepsKind(cfg.server)
    ensures Valid(Step(s, cfg, a).store)
  {
    if a.Next? {
      ContinueStore(s, cfg, a.name, a.answer);
      if a.name in s.passes && (s.passes[a.name].ConfigWrite? || s.passes[a.name].JobWrite?) {
        FinishValid(s.store, cfg.server, s.passes[a.name].attempt);
      }
      hide Continue, Finish, Valid;
    } else {
      hide Continue;
    }
  }

  /** The pass keeps its list of scripts, and whatever it does next the batch has been there. */
  ghost predicate PlaceGoesOn(cfg: Config, n: string, p: Pass, t: State, seen: bool) {
    n in t.passes ==>
      && t.passes[n].obj.spec == p.obj.spec
      && PlaceOk(cfg, n, t.passes[n], seen || BatchStored(t, cfg, n, p.obj.spec.migrations))
  }

  lemma ReportGoesOn(s: State, cfg: Config, n: string, p: Pass, reason: string, seen: bool)
    ensures PlaceGoesOn(cfg, n, p, Report(s, n, p.obj, reason), seen)
  {
    NotReadyNow(p.obj, reason);
    hide IsTrue, SetCondition, BatchStored;
  }

  lemma ReadsGoOn(s: State, cfg: Config, n: string, a: Answer, seen: bool)
    requires n in s.passes && (s.passes[n].Resolve? || s.passes[n].ConfigGet? || s.passes[n].JobEnsure?)
    requires PlaceOk(cfg, n, s.passes[n], seen) && Valid(s.store)
    requires BatchStored(s, cfg, n, s.passes[n].obj.spec.migrations) ==> seen
    ensures PlaceGoesOn(cfg, n, s.passes[n], Continue(s, cfg, n, a), seen)
  {
    var p := s.passes[n];
    ReportGoesOn(s, cfg, n, p, "ConfigMapFailed", seen);
    ReportGoesOn(s, cfg, n, p, "JobFailed", seen);
    ReportGoesOn(s, cfg, n, p, "DatabaseResolutionFailed", seen);
    ReportGoesOn(s, cfg, n, p, "DatabaseNotReady", seen);
    if p.ConfigGet? {
      ConfigMapPlanned(s, cfg, n, p.obj);
    }
    hide Begin, ResolveRef, MigrationJob, ConfigMapCall, Report, BatchStored, CarriesBatch, BatchKey, Valid;
  }

  lemma ConfigWriteGoesOn(s: State, cfg: Config, n: string, a: Answer, seen: bool)
    requires n in s.passes && s.passes[n].ConfigWrite? && PlaceOk(cfg, n, s.passes[n], seen) && PlainConfig(cfg.server)
    ensures PlaceGoesOn(cfg, n, s.passes[n], Continue(s, cfg, n, a), seen)
  {
    var p := s.passes[n];
    var t := if a.Lost? then s else s.(store := Finish(s.store, cfg.server, p.attempt).0);
    ReportGoesOn(t, cfg, n, p, "ConfigMapFailed", seen);
    if !p.attempt.Finished? && !Finish(s.store, cfg.server, p.attempt).1.Failed? {
      ConfigMapWritten(s, cfg, n, p.obj.spec.migrations, p.attempt);
    }
    hide CarriesBatch, Report, BatchKey, PlainConfig, CreateIn, UpdateIn;
  }

  lemma JobGoesOn(s: State, cfg: Config, n: string, a: Answer, seen: bool)
    requires n in s.passes && (s.passes[n].JobWrite? || s.passes[n].JobGet?) && PlaceOk(cfg, n, s.passes[n], seen)
    ensures PlaceGoesOn(cfg, n, s.passes[n], Continue(s, cfg, n, a), seen)
  {
    var p := s.passes[n];
    if p.JobWrite? {
      var (store, r) := Finish(s.store, cfg.server, p.attempt);
      var t := if a.Lost? then s
               else if r.Created? then Log(s.(store := store), JobCreated(p.obj.uid)) else s.(store := store);
      hide Finish;
      ReportGoesOn(t, cfg, n, p, "JobFailed", seen);
      hide Report, BatchStored;
    } else {
      var k := JobKey(cfg, n);
      ReportGoesOn(s, cfg, n, p, "JobGetFailed", seen);
      if k in s.store.objects && s.store.objects[k].body.Job? {
        var t := Log(s, JobSeen(p.obj.uid, s.store.objects[k].body.jobStatus));
        ReportGoesOn(t, cfg, n, p, "JobFailed", seen);
        ReportGoesOn(t, cfg, n, p, "JobInProgress", seen);
      }
      hide Report, BatchStored, IsTrue, SetCondition, JobKey;
    }
  }

  lemma PlaceStep(s: State, cfg: Config, n: string, a: Answer, seen: bool)
    requires n in s.passes && PlaceOk(cfg, n, s.passes[n], seen) && Valid(s.store) && PlainConfig(cfg.server)
    requires BatchStored(s, cfg, n, s.passes[n].obj.spec.migrations) ==> seen
    ensures PlaceGoesOn(cfg, n, s.passes[n], Continue(s, cfg, n, a), seen)
  {
    hide PlaceOk, PlaceGoesOn, Continue, Valid, PlainConfig, BatchStored;
    match s.passes[n]
    case ConfigWrite(_, _, _) => ConfigWriteGoesOn(s, cfg, n, a, seen);
    case JobWrite(_, _) => JobGoesOn(s, cfg, n, a, seen);
    case JobGet(_) => JobGoesOn(s, cfg, n, a, seen);
    case StatusGet(_, _) => StatusGoesOn(s, cfg, n, a, seen);
    case StatusWrite(_, _, _) => StatusGoesOn(s, cfg, n, a, seen);
    case _ => ReadsGoOn(s, cfg, n, a, seen);
  }

  lemma StatusGoesOn(s: State, cfg: Config, n: string, a: Answer, seen: bool)
    requires n in s.passes && (s.passes[n].StatusGet? || s.passes[n].StatusWrite?) && PlaceOk(cfg, n, s.passes[n], seen)
    ensures PlaceGoesOn(cfg, n, s.passes[n], Continue(s, cfg, n, a), seen)
  {
    hide IsTrue, BatchStored;
  }

  /** One call of the pass itself; what was stored since it began still was. */
  lemma NextBatchOk(start: State, cfg: Config, run: seq<Action>, n: string, a: Answer)
    requires n in Exec(start, cfg, run).passes && BatchOk(start, cfg, run, n, Exec(start, cfg, run).passes[n])
    requires Valid(Exec(start, cfg, run).store) && PlainConfig(cfg.server)
    ensures var s := Exec(start, cfg, run + [Next(n, a)]);
      n in s.passes ==> BatchOk(start, cfg, run + [Next(n, a)], n, s.passes[n])
  {
    var s, more := Exec(start, cfg, run), run + [Next(n, a)];
    var scripts := s.passes[n].obj.spec.migrations;
    OneMore(start, cfg, run, Next(n, a));
    assert more[..|run|] == run;
    hide Exec, BatchStored, PlaceOk, Continue, Valid, PlainConfig;
    PlaceStep(s, cfg, n, a, StoredSince(start, cfg, run, n, scripts));
    assert StoredSince(start, cfg, run, n, scripts) || BatchStored(Continue(s, cfg, n, a), cfg, n, scripts) ==>
        StoredSince(start, cfg, more, n, scripts);
    hide StoredSince;
    if n in Continue(s, cfg, n, a).passes {
      SeenMore(cfg, n, Continue(s, cfg, n, a).passes[n],
               StoredSince(start, cfg, run, n, scripts) || BatchStored(Continue(s, cfg, n, a), cfg, n, scripts),
               StoredSince(start, cfg, more, n, scripts));
    }
  }

  lemma SeenMore(cfg: Config, n: string, p: Pass, seen: bool, more: bool)
    requires PlaceOk(cfg, n, p, seen) && (seen ==> more)
    ensures PlaceOk(cfg, n, p, more)
  {
    hide IsTrue, CarriesBatch;
  }

  /** Everybody else, or the start or the end of the pass. */
  lemma OtherBatchOk(start: State, cfg: Config, run: seq<Action>, n: string, a: Action)
    requires var s := Exec(start, cfg, run); n in s.passes ==> BatchOk(start, cfg, run, n, s.passes[n])
    requires !(a.Next? && a.name == n)
    ensures var s := Exec(start, cfg, run + [a]);
      n in s.passes ==> BatchOk(start, cfg, run + [a], n, s.passes[n])
  {
    var s, more := Exec(start, cfg, run), run + [a];
    OneMore(start, cfg, run, a);
    assert more[..|run|] == run;
    if Foreign(a, n) {
      ForeignStep(s, cfg, a, n);
      NotForeign(a, n);
      hide Exec, Step, BatchStored, PlaceOk, Foreign;
    } else {
      hide Exec, BatchStored, Continue, PlaceOk;
    }
    if n in s.passes && n in Step(s, cfg, a).passes {
      var scripts := s.passes[n].obj.spec.migrations;
      assert Step(s, cfg, a).passes[n] == s.passes[n];
      SeenMore(cfg, n, s.passes[n], StoredSince(start, cfg, run, n, scripts), StoredSince(start, cfg, more, n, scripts));
    } else if n in Step(s, cfg, a).passes {
      assert Step(s, cfg, a).passes[n].Resolve?;
      ResolvePlace(cfg, n, Step(s, cfg, a).passes[n], StoredSince(start, cfg, more, n, Step(s, cfg, a).passes[n].obj.spec.migrations));
    }
  }

  lemma ResolvePlace(cfg: Config, n: string, p: Pass, seen: bool)
    requires p.Resolve?
    ensures PlaceOk(cfg, n, p, seen)
  {
  }

  lemma NotForeign(a: Action, n: string)
    ensures Foreign(a, n) ==> a != Start(n)
  {
  }

  lemma {:induction false} ExecBatchOk(start: State, cfg: Config, run: seq<Action>, n: string)
    requires Fresh(start) && Valid(start.store) && PlainConfig(cfg.server)
    ensures var s := Exec(start, cfg, run);
      Valid(s.store) && (n in s.passes ==> BatchOk(start, cfg, run, n, s.passes[n]))
  {
    if run != [] {
      var before, a := run[..|run| - 1], run[|run| - 1];
      ExecBatchOk(start, cfg, before, n);
      assert run == before + [a];
      assert KeepsKind(cfg.server);
      hide Step, BatchOk, PlainConfig, KeepsKind;
      StoreValid(Exec(start, cfg, before), cfg, a);
      if a.Next? && a.name == n && n in Exec(start, cfg, before).passes {
        NextBatchOk(start, cfg, before, n, a.answer);
      } else if a.Next? && a.name == n {
        IdleNext(Exec(start, cfg, before), cfg, n, a.answer);
      } else {
        OtherBatchOk(start, cfg, before, n, a);
      }
    }
  }

  lemma IdleNext(s: State, cfg: Config, n: string, a: Answer)
    requires n !in s.passes
    ensures Step(s, cfg, Next(n, a)) == s
  {
  }

  /**
   In every run: a pass past the ConfigMap, up to the one that is about to store Ready, has
   had the batch of its own list stored since it began.
   */
  lemma BatchBeforeJob(start: State, cfg: Config, run: seq<Action>, n: string)
    requires Fresh(start) && Valid(start.store) && PlainConfig(cfg.server) && n in Exec(start, cfg, run).passes
    requires var p := Exec(start, cfg, run).passes[n];
      || p.JobEnsure? || p.JobWrite? || p.JobGet?
      || ((p.StatusGet? || p.StatusWrite?) && IsTrue(p.obj.status.conditions, READY))
    ensures StoredSince(start, cfg, run, n, Exec(start, cfg, run).passes[n].obj.spec.migrations)
  {
    ExecBatchOk(start, cfg, run, n);
    hide Exec, StoredSince, IsTrue, Fresh, Valid, PlainConfig;
  }

  lemma BatchPath()
    ensures MOUNT_PATH + "/" + BATCH_FILE == "/etc/supabase/migrations/batch.sql"
  {
  }

  /**
   Before the user's overlay the Job has one container, which is given the login of the
   database, the hash of the list and the path of the batch, and mounts the very ConfigMap
   the pass ensures.
   */
  lemma JobRunsBatch(cfg: Config, n: string, obj: CR, db: Resolved)
    ensures var template := BaseTemplate(cfg, n, obj, db);
      && |template.spec.containers| == 1
      && GivenToJob(template.spec.containers[0].managed.env, cfg, obj, db)
      && (exists v :: v in template.spec.volumes && v.config == Some(Ref(BatchKey(cfg, n).name, None)))
      && KeyOf(ConfigMapCall(cfg, n, obj).desired) == BatchKey(cfg, n)
  {
    var template := BaseTemplate(cfg, n, obj, db);
    assert KeyOf(ConfigMapCall(cfg, n, obj).desired) == BatchKey(cfg, n) by {
      hide Labels, Preimage.BatchText;
    }
    JobEnvGiven(cfg, obj, db);
    hide Labels, JobEnv, GivenToJob, ConfigMapCall;
    assert template.spec.volumes[0].config == Some(Ref(BatchKey(cfg, n).name, None));
  }

  /** No name twice, and each variable the script of the Job reads has its value. */
  predicate GivenToJob(env: seq<EnvVar>, cfg: Config, obj: CR, db: Resolved) {
    && (forall i, j :: 0 <= i < j < |env| ==> env[i].name != env[j].name)
    && Variable("PGHOST", db.host) in env && Variable("PGPORT", Preimage.Itoa(db.port)) in env
    && Variable("PGUSER", db.user) in env && FromSecret("PGPASSWORD", db.password) in env
    && Variable("PGDATABASE", db.dbName) in env && Variable("MIGRATION_HASH", Hash(cfg, obj.spec.migrations)) in env
    && Variable("MIGRATION_TABLE", "supabase_operator._operator_migrations") in env
    && Variable("MIGRATION_BATCH_PATH", "/etc/supabase/migrations/batch.sql") in env
  }

  lemma EightApart(env: seq<EnvVar>)
    requires |env| == 8 && env[0].name == "PGHOST" && env[1].name == "PGPORT" && env[2].name == "PGUSER"
    requires env[3].name == "PGPASSWORD" && env[4].name == "PGDATABASE" && env[5].name == "MIGRATION_TABLE"
    requires env[6].name == "MIGRATION_HASH" && env[7].name == "MIGRATION_BATCH_PATH"
    ensures forall i, j :: 0 <= i < j < |env| ==> env[i].name != env[j].name
  {
    assert "PGUSER"[2] == 'U' && "PGHOST"[2] == 'H' && "PGPORT"[3] == 'O' && "PGPASSWORD"[3] == 'A';
    assert "MIGRATION_TABLE"[10] == 'T' && "MIGRATION_HASH"[10] == 'H' && "MIGRATION_BATCH_PATH"[10] == 'B';
  }

  lemma JobEnvGiven(cfg: Config, obj: CR, db: Resolved)
    ensures GivenToJob(JobEnv(cfg, obj, db), cfg, obj, db)
  {
    BatchPath();
    var env := JobEnv(cfg, obj, db);
    EightApart(env);
    hide Hash, Preimage.Itoa;
    assert env[0] in env && env[1] in env && env[2] in env && env[3] in env;
    assert env[4] in env && env[5] in env && env[6] in env && env[7] in env;
  }

  /** All calls go through. */
  function AllFine(): nat -> Answer { (i: nat) => Fine }

  /** The Job the pass ensures, when both ensures go through. */
  ghost predicate JobDone(s: State, cfg: Config, n: string, obj: CR, db: Resolved) {
    var (store, r) := EnsureNow(s.store, cfg.server, ConfigMapCall(cfg, n, obj));
    var job := MigrationJob(cfg, n, obj, db);
    && !r.Failed? && job.Some?
    && var (after, made) := EnsureNow(store, cfg.server, Call(job.value, OwnerOf(cfg, n, obj), MutateJob));
    && !made.Failed? && JobKey(cfg, n) in after.objects && after.objects[JobKey(cfg, n)].body.Job?
    && after.objects[JobKey(cfg, n)].body.jobStatus.failed == 0
    && after.objects[JobKey(cfg, n)].body.jobStatus.succeeded > 0
  }

  /**
   And it does get there: an undisturbed pass over a Migration that is not applied, with
   its database ready and a Job that ends up succeeded without failures, stores the hash
   of the list together with Ready.
   */
  lemma CleanJobApplies(s: State, cfg: Config, n: string, db: Resolved)
    requires n in s.crs && n !in s.passes && s.crs[n].status.appliedHash == ""
    requires ResolveRef(s.databases, s.crs[n].spec.databaseRef) == Ready(db) && JobDone(s, cfg, n, s.crs[n], db)
    requires forall x :: cfg.digest(x) != ""
    ensures var t := Drive(BeginPass(s, n), cfg, n, AllFine(), 0, 8);
      && n in t.crs && n !in t.passes && t.crs[n].spec == s.crs[n].spec
      && t.crs[n].status.appliedHash == Hash(cfg, s.crs[n].spec.migrations) && IsTrue(t.crs[n].status.conditions, READY)
  {
    var obj := s.crs[n];
    hide SetReady, MigrationJob, ConfigMapCall, ResolveRef, IsTrue, JobKey, Begin, Finish;
    var s1 := Goto(BeginPass(s, n), n, ConfigGet(obj, db));
    assert Continue(BeginPass(s, n), cfg, n, Fine) == s1;
    var (store, _) := EnsureNow(s.store, cfg.server, ConfigMapCall(cfg, n, obj));
    var s2 := Goto(s1, n, ConfigWrite(obj, db, Begin(s.store, ConfigMapCall(cfg, n, obj))));
    assert Continue(s1, cfg, n, Fine) == s2;
    var s3 := Goto(s2.(store := store), n, JobEnsure(obj, db));
    assert Continue(s2, cfg, n, Fine) == s3;
    DriveOn(BeginPass(s, n), s1, cfg, n, 0, 8);
    DriveOn(s1, s2, cfg, n, 1, 7);
    DriveOn(s2, s3, cfg, n, 2, 6);
    hide Drive, EnsureNow;
    JobApplies(s3, cfg, n, obj, db);
  }

  lemma DriveOn(s: State, t: State, cfg: Config, n: string, from: nat, calls: nat)
    requires n in s.passes && calls > 0 && Continue(s, cfg, n, Fine) == t
    ensures Drive(s, cfg, n, AllFine(), from, calls) == Drive(t, cfg, n, AllFine(), from + 1, calls - 1)
  {
    hide Continue;
  }

  lemma JobApplies(s: State, cfg: Config, n: string, obj: CR, db: Resolved)
    requires n in s.crs && s.crs[n] == obj && n in s.passes && s.passes[n] == JobEnsure(obj, db)
    requires obj.status.appliedHash == "" && (forall x :: cfg.digest(x) != "")
    requires var job := MigrationJob(cfg, n, obj, db);
      && job.Some?
      && var (after, made) := EnsureNow(s.store, cfg.server, Call(job.value, OwnerOf(cfg, n, obj), MutateJob));
      && !made.Failed? && JobKey(cfg, n) in after.objects && after.objects[JobKey(cfg, n)].body.Job?
      && after.objects[JobKey(cfg, n)].body.jobStatus.failed == 0
      && after.objects[JobKey(cfg, n)].body.jobStatus.succeeded > 0
    ensures var t := Drive(s, cfg, n, AllFine(), 3, 5);
      && n in t.crs && n !in t.passes && t.crs[n].spec == obj.spec
      && t.crs[n].status.appliedHash == Hash(cfg, obj.spec.migrations) && IsTrue(t.crs[n].status.conditions, READY)
  {
    hide MigrationJob, IsTrue, JobKey, Begin, Finish;
    var call := Call(MigrationJob(cfg, n, obj, db).value, OwnerOf(cfg, n, obj), MutateJob);
    var (after, made) := EnsureNow(s.store, cfg.server, call);
    var s1 := Goto(s, n, JobWrite(obj, Begin(s.store, call)));
    var s2 := Continue(s1, cfg, n, Fine);
    assert s2.passes[n] == JobGet(obj) && s2.crs == s.crs && s2.store == after;
    var s3 := Continue(s2, cfg, n, Fine);
    assert s3.passes[n] == StatusGet(MarkReady(cfg, obj), ATTEMPTS) && s3.crs == s.crs;
    DriveOn(s, s1, cfg, n, 3, 5);
    DriveOn(s1, s2, cfg, n, 4, 4);
    DriveOn(s2, s3, cfg, n, 5, 3);
    hide Drive;
    MarkStored(s3, cfg, n, obj);
  }

  lemma MarkStored(s: State, cfg: Config, n: string, obj: CR)
    requires n in s.crs && s.crs[n] == obj && n in s.passes && s.passes[n] == StatusGet(MarkReady(cfg, obj), ATTEMPTS)
    requires obj.status.appliedHash == "" && forall x :: cfg.digest(x) != ""
    ensures var t := Drive(s, cfg, n, AllFine(), 6, 2);
      && n in t.crs && n !in t.passes && t.crs[n].spec == obj.spec
      && t.crs[n].status.appliedHash == Hash(cfg, obj.spec.migrations) && IsTrue(t.crs[n].status.conditions, READY)
  {
    var marked := obj.(status := obj.status.(appliedHash := Hash(cfg, obj.spec.migrations)));
    SetConditionFinds(marked.status.conditions, Condition(READY, true, "ReconcileSucceeded", "ReconcileSucceeded", obj.generation), READY);
    hide SetCondition;
    assert MarkReady(cfg, obj).status.appliedHash == Hash(cfg, obj.spec.migrations) != "";
    var s1 := Continue(s, cfg, n, Fine);
    assert s1.passes[n] == StatusWrite(MarkReady(cfg, obj), obj.version, ATTEMPTS);
    DriveOn(s, s1, cfg, n, 6, 2);
    DriveOn(s1, Continue(s1, cfg, n, Fine), cfg, n, 7, 1);
  }

  // ---- when an applied Migration stays Ready ----

  /** The pass of `n` with nobody else acting; `answers` says how its calls go. */
  function Drive(s: State, cfg: Config, n: string, answers: nat -> Answer, from: nat, calls: nat): State
    decreases calls
  {
    if calls == 0 || n !in s.passes then s
    else Drive(Continue(s, cfg, n, answers(from)), cfg, n, answers, from + 1, calls - 1)
  }

  /** The database read goes through and resolves. */
  predicate DatabaseOk(s: State, obj: CR, answers: nat -> Answer) {
    answers(0).Fine? && ResolveRef(s.databases, obj.spec.databaseRef).Ready?
  }

  /** Both calls of the ConfigMap ensure go through, and it succeeds. */
  predicate ConfigMapOk(s: State, cfg: Config, n: string, obj: CR, answers: nat -> Answer) {
    && answers(1).Fine? && answers(2).Fine?
    && !EnsureNow(s.store, cfg.server, ConfigMapCall(cfg, n, obj)).1.Failed?
  }

  /** Calls `i` and `i + 1`, the read and the write of a report, get it stored. */
  predicate Reported(answers: nat -> Answer, i: nat) { answers(i).Fine? && !answers(i + 1).Lost? }

  /** The report of a pass that came no further is stored exactly if its two calls carry it there. */
  lemma ReportStored(s: State, cfg: Config, n: string, reason: string, answers: nat -> Answer, from: nat, calls: nat)
    requires n in s.crs && n in s.passes && calls >= 2 && IsTrue(s.crs[n].status.conditions, READY)
    requires s.passes[n] == StatusGet(SetReady(s.crs[n], false, reason), ATTEMPTS)
    ensures var t := Drive(s, cfg, n, answers, from, calls);
      && n in t.crs && n !in t.passes && t.crs[n].status.appliedHash == s.crs[n].status.appliedHash
      && (IsTrue(t.crs[n].status.conditions, READY) <==> !Reported(answers, from))
  {
    NotReadyNow(s.crs[n], reason);
    hide SetReady;
    var s1 := Continue(s, cfg, n, answers(from));
    assert Drive(s, cfg, n, answers, from, calls) == Drive(s1, cfg, n, answers, from + 1, calls - 1);
    if answers(from).Fine? {
      var s2 := Continue(s1, cfg, n, answers(from + 1));
      assert s1.passes[n] == StatusWrite(s.passes[n].obj, s.crs[n].version, ATTEMPTS);
      assert Drive(s1, cfg, n, answers, from + 1, calls - 1) == s2;
    }
  }

  /**
   "Applied implies Ready" is not kept, and this is exactly when it is lost. A pass over a
   Migration that is applied and Ready, with nobody else acting, leaves it Ready if and
   only if the database resolves and the ConfigMap ensure succeeds, or the report that it
   is not ready does not get stored. It keeps the applied hash.
   */
  lemma AppliedStaysReady(s: State, cfg: Config, n: string, answers: nat -> Answer)
    requires n in s.crs && n !in s.passes && s.crs[n].status.appliedHash != ""
    requires IsTrue(s.crs[n].status.conditions, READY)
    ensures var t := Drive(BeginPass(s, n), cfg, n, answers, 0, 5);
      && n in t.crs && n !in t.passes && t.crs[n].status.appliedHash == s.crs[n].status.appliedHash
      && (IsTrue(t.crs[n].status.conditions, READY) <==>
            if !DatabaseOk(s, s.crs[n], answers) then !Reported(answers, 1)
            else ConfigMapOk(s, cfg, n, s.crs[n], answers) || !Reported(answers, if answers(1).Fine? then 3 else 2))
  {
    hide SetReady, Begin, Finish, MigrationConfigMap, ResolveRef, IsTrue;
    var obj := s.crs[n];
    var s0 := BeginPass(s, n);
    var s1 := Continue(s0, cfg, n, answers(0));
    assert Drive(s0, cfg, n, answers, 0, 5) == Drive(s1, cfg, n, answers, 1, 4);
    if !DatabaseOk(s, obj, answers) {
      ReportStored(s1, cfg, n, if ResolveRef(s.databases, obj.spec.databaseRef).NotReady? && answers(0).Fine?
                               then "DatabaseNotReady" else "DatabaseResolutionFailed", answers, 1, 4);
    } else {
      AppliedConfigMap(s1, cfg, n, answers);
    }
  }

  lemma AppliedConfigMap(s: State, cfg: Config, n: string, answers: nat -> Answer)
    requires n in s.crs && n in s.passes && s.passes[n].ConfigGet? && s.passes[n].obj == s.crs[n]
    requires s.crs[n].status.appliedHash != "" && IsTrue(s.crs[n].status.conditions, READY)
    ensures var t := Drive(s, cfg, n, answers, 1, 4);
      && n in t.crs && n !in t.passes && t.crs[n].status.appliedHash == s.crs[n].status.appliedHash
      && (IsTrue(t.crs[n].status.conditions, READY) <==>
            ConfigMapOk(s, cfg, n, s.crs[n], answers) || !Reported(answers, if answers(1).Fine? then 3 else 2))
  {
    hide SetReady, Begin, Finish, MigrationConfigMap, IsTrue;
    var obj := s.crs[n];
    var s1 := Continue(s, cfg, n, answers(1));
    assert Drive(s, cfg, n, answers, 1, 4) == Drive(s1, cfg, n, answers, 2, 3);
    if !answers(1).Fine? {
      ReportStored(s1, cfg, n, "ConfigMapFailed", answers, 2, 3);
    } else {
      var s2 := Continue(s1, cfg, n, answers(2));
      assert Drive(s1, cfg, n, answers, 2, 3) == Drive(s2, cfg, n, answers, 3, 2);
      assert s1.passes[n] == ConfigWrite(obj, s.passes[n].db, Begin(s.store, ConfigMapCall(cfg, n, obj)));
      if !ConfigMapOk(s, cfg, n, obj, answers) {
        ReportStored(s2, cfg, n, "ConfigMapFailed", answers, 3, 2);
      }
    }
  }

  /** The Migration of this UID is gone, or applied and not Ready; and no pass is about to say otherwise. */
  ghost predicate ReadyLost(s: State, n: string, uid: string) {
    && uid in s.names && s.names[uid] == n
    && (n in s.crs && s.crs[n].uid == uid ==>
          && s.crs[n].status.appliedHash != "" && !IsTrue(s.crs[n].status.conditions, READY)
          && (n in s.passes && (s.passes[n].StatusGet? || s.passes[n].StatusWrite?) ==>
                !IsTrue(s.passes[n].obj.status.conditions, READY)))
  }

  lemma ReadyLostStays(s: State, cfg: Config, a: Action, n: string, uid: string)
    requires Inv(s, cfg) && Orderly(s, a) && ReadyLost(s, n, uid)
    ensures ReadyLost(Step(s, cfg, a), n, uid)
  {
    assert CROk(s, cfg, n) && PassOk(s, cfg, n);
    if a.Next? && a.name in s.passes && a.name == n {
      ReadyLostNext(s, cfg, n, uid, a.answer);
    } else if a.Next? && a.name in s.passes {
      NextFrame(s, cfg, a.name, a.answer);
      var t := Step(s, cfg, a);
      assert n in t.crs <==> n in t.crs - {a.name};
      assert n in t.passes <==> n in t.passes - {a.name};
    }
  }

  /** Passes and Migrations of other names are left alone, and this one stays the same object. */
  ghost predicate Framed(s: State, t: State, n: string) {
    && t.names == s.names && t.crs - {n} == s.crs - {n} && t.passes - {n} == s.passes - {n}
    && (n in t.crs <==> n in s.crs) && (n in s.crs ==> t.crs[n].uid == s.crs[n].uid)
  }

  lemma GotoFrame(s: State, t: State, n: string)
    requires t.names == s.names && t.crs == s.crs
    requires t.passes == s.passes - {n} || (n in t.passes && t.passes == s.passes[n := t.passes[n]])
    ensures Framed(s, t, n)
  {
  }

  lemma ReportFrame(s: State, t: State, n: string, obj: CR, reason: string)
    requires t == s.(store := t.store, log := t.log)
    ensures Framed(s, Report(t, n, obj, reason), n)
  {
    GotoFrame(s, Report(t, n, obj, reason), n);
  }

  lemma WriteFrame(s: State, cfg: Config, n: string, a: Answer)
    requires n in s.passes && (s.passes[n].ConfigWrite? || s.passes[n].JobWrite?)
    ensures Framed(s, Continue(s, cfg, n, a), n)
  {
    var p := s.passes[n];
    var (store, r) := Finish(s.store, cfg.server, p.attempt);
    var t := if a.Lost? then s
             else if p.JobWrite? && r.Created? then Log(s.(store := store), JobCreated(p.obj.uid))
             else s.(store := store);
    hide Finish;
    ReportFrame(s, t, n, p.obj, if p.JobWrite? then "JobFailed" else "ConfigMapFailed");
    GotoFrame(s, Leave(t, n), n);
    if p.JobWrite? {
      GotoFrame(s, Goto(t, n, JobGet(p.obj)), n);
    } else {
      GotoFrame(s, Goto(t, n, JobEnsure(p.obj, p.db)), n);
    }
  }

  lemma JobGetFrame(s: State, cfg: Config, n: string, a: Answer)
    requires n in s.passes && s.passes[n].JobGet?
    ensures Framed(s, Continue(s, cfg, n, a), n)
  {
    hide Report, MarkReady;
    var t, obj := Continue(s, cfg, n, a), s.passes[n].obj;
    ReportFrame(s, s, n, obj, "JobGetFailed");
    var k := JobKey(cfg, n);
    if k in s.store.objects && s.store.objects[k].body.Job? {
      var u := Log(s, JobSeen(obj.uid, s.store.objects[k].body.jobStatus));
      ReportFrame(s, u, n, obj, "JobFailed");
      ReportFrame(s, u, n, obj, "JobInProgress");
      GotoFrame(s, Goto(u, n, StatusGet(MarkReady(cfg, obj), ATTEMPTS)), n);
    }
  }

  lemma NextFrame(s: State, cfg: Config, n: string, a: Answer)
    ensures Framed(s, Continue(s, cfg, n, a), n)
  {
    if n in s.passes {
      match s.passes[n]
      case ConfigWrite(_, _, _) => WriteFrame(s, cfg, n, a);
      case JobWrite(_, _) => WriteFrame(s, cfg, n, a);
      case JobGet(_) => JobGetFrame(s, cfg, n, a);
      case StatusWrite(_, _, _) =>
      case _ => PlainFrame(s, cfg, n, a);
    }
  }

  lemma PlainFrame(s: State, cfg: Config, n: string, a: Answer)
    requires n in s.passes
    requires s.passes[n].Resolve? || s.passes[n].ConfigGet? || s.passes[n].JobEnsure? || s.passes[n].StatusGet?
    ensures Framed(s, Continue(s, cfg, n, a), n)
  {
    hide Begin, MigrationJob, MigrationConfigMap, SetReady, ResolveRef;
    GotoFrame(s, Continue(s, cfg, n, a), n);
  }

  lemma ReadyLostNext(s: State, cfg: Config, n: string, uid: string, a: Answer)
    requires Inv(s, cfg) && ReadyLost(s, n, uid) && n in s.passes
    ensures ReadyLost(Continue(s, cfg, n, a), n, uid)
  {
    assert CROk(s, cfg, n) && PassOk(s, cfg, n);
    hide Inv;
    var p := s.passes[n];
    if n in s.crs && s.crs[n].uid == uid && !p.StatusGet? && !p.StatusWrite? {
      AppliedReturns(s, cfg, n, a);
    } else {
      hide PassOk, CROk;
      GoneStaysGone(s, cfg, n, uid, a);
    }
  }

  /** The pass of an applied Migration ends, or goes on, or reports that it is not ready. */
  lemma AppliedReturns(s: State, cfg: Config, n: string, a: Answer)
    requires n in s.passes && (s.passes[n].Resolve? || s.passes[n].ConfigGet? || s.passes[n].ConfigWrite?)
    requires s.passes[n].obj.status.appliedHash != ""
    ensures var t := Continue(s, cfg, n, a);
      && t.crs == s.crs && t.names == s.names
      && (n in t.passes && (t.passes[n].StatusGet? || t.passes[n].StatusWrite?) ==>
            !IsTrue(t.passes[n].obj.status.conditions, READY))
  {
    hide Finish, Begin, MigrationConfigMap, SetReady;
    var obj := s.passes[n].obj;
    NotReadyNow(obj, "ConfigMapFailed");
    NotReadyNow(obj, "DatabaseResolutionFailed");
    NotReadyNow(obj, "DatabaseNotReady");
  }

  lemma GoneStaysGone(s: State, cfg: Config, n: string, uid: string, a: Answer)
    requires ReadyLost(s, n, uid) && n in s.passes
    requires n in s.crs && s.crs[n].uid == uid ==> s.passes[n].StatusGet? || s.passes[n].StatusWrite?
    requires n in s.crs ==> s.crs[n].uid == s.passes[n].obj.uid
    requires n in s.crs && s.crs[n].uid == uid && s.crs[n].status.appliedHash != "" ==> s.passes[n].obj.status.appliedHash != ""
    ensures ReadyLost(Continue(s, cfg, n, a), n, uid)
  {
    if n in s.crs && s.crs[n].uid == uid {
    } else {
      NextFrame(s, cfg, n, a);
    }
  }

  /**
   And it stays so: an applied Migration that is not Ready never becomes Ready again,
   whatever happens, since a pass that finds it applied returns before it would say so.
   */
  lemma {:induction false} NeverReadyAgain(s: State, cfg: Config, run: seq<Action>, n: string, uid: string)
    requires Inv(s, cfg) && OrderlyRun(s, cfg, run) && ReadyLost(s, n, uid) && forall x :: cfg.digest(x) != ""
    ensures ReadyLost(Exec(s, cfg, run), n, uid)
  {
    hide Inv, Step, ReadyLost;
    if run != [] {
      NeverReadyAgain(s, cfg, run[..|run| - 1], n, uid);
      ExecInv(s, cfg, run[..|run| - 1]);
      ReadyLostStays(Exec(s, cfg, run[..|run| - 1]), cfg, run[|run| - 1], n, uid);
    }
  }

  // ---- a whole pass ----

  predicate Foreign(a: Action, n: string) {
    match a
    case Start(m) => m != n
    case Next(m, _) => m != n
    case Crash(m) => m != n
    case _ => true
  }

  lemma ForeignStep(s: State, cfg: Config, a: Action, n: string)
    requires Foreign(a, n)
    ensures (n in Step(s, cfg, a).passes <==> n in s.passes)
    ensures n in s.passes ==> Step(s, cfg, a).passes[n] == s.passes[n]
  {
    hide Continue;
    if a.Next? {
      NextFrame(s, cfg, a.name, a.answer);
      var t := Continue(s, cfg, a.name, a.answer);
      assert n in t.passes <==> n in t.passes - {a.name};
      assert n in s.passes <==> n in s.passes - {a.name};
      assert n in t.passes ==> (t.passes - {a.name})[n] == t.passes[n];
    }
  }

  lemma {:induction false} ForeignKeepsPass(s: State, cfg: Config, run: seq<Action>, n: string)
    requires forall a :: a in run ==> Foreign(a, n)
    ensures (n in Exec(s, cfg, run).passes <==> n in s.passes)
    ensures n in s.passes ==> Exec(s, cfg, run).passes[n] == s.passes[n]
  {
    hide Step, Foreign;
    if run != [] {
      assert run[|run| - 1] in run;
      ForeignKeepsPass(s, cfg, run[..|run| - 1], n);
      ForeignStep(Exec(s, cfg, run[..|run| - 1]), cfg, run[|run| - 1], n);
    }
  }

  lemma {:induction false} RunAppend(s: State, cfg: Config, first: seq<Action>, second: seq<Action>)
    requires OrderlyRun(s, cfg, first) && OrderlyRun(Exec(s, cfg, first), cfg, second)
    ensures Exec(s, cfg, first + second) == Exec(Exec(s, cfg, first), cfg, second)
    ensures OrderlyRun(s, cfg, first + second)
  {
    hide Step, Orderly;
    if second == [] {
      assert first + second == first;
    } else {
      RunAppend(s, cfg, first, second[..|second| - 1]);
      assert (first + second)[..|first + second| - 1] == first + second[..|second| - 1];
    }
  }

  /** What everybody else does before the next API call, and how that call goes. */
  datatype World = World(others: (nat, State) -> seq<Action>, answer: nat -> Answer)

  ghost predicate Fair(w: World, cfg: Config, n: string) {
    forall i: nat, s: State :: OrderlyRun(s, cfg, w.others(i, s)) && forall a :: a in w.others(i, s) ==> Foreign(a, n)
  }

  // ---- the run of one pass ----

  /**
   From its start on, the actions of a pass of `n` and of everybody else; the pass makes
   its next API call as long as it has not ended, and nothing else.
   */
  ghost predicate PassRun(s: State, cfg: Config, run: seq<Action>, n: string) {
    && run != []
    && if |run| == 1 then run[0] == Start(n)
       else
         var before, last := run[..|run| - 1], run[|run| - 1];
         && PassRun(s, cfg, before, n)
         && (Foreign(last, n) || (last.Next? && last.name == n && n in Exec(s, cfg, before).passes))
  }

  /** How many of the actions are the pass's own. */
  function OwnActions(run: seq<Action>, n: string): nat {
    if run == [] then 0
    else OwnActions(run[..|run| - 1], n) + if Foreign(run[|run| - 1], n) then 0 else 1
  }

  lemma {:induction false} PassRunWaits(s: State, cfg: Config, run: seq<Action>, theirs: seq<Action>, n: string)
    requires PassRun(s, cfg, run, n) && forall a :: a in theirs ==> Foreign(a, n)
    ensures PassRun(s, cfg, run + theirs, n) && OwnActions(run + theirs, n) == OwnActions(run, n)
  {
    hide Foreign, Exec;
    if theirs == [] {
      assert run + theirs == run;
    } else {
      assert theirs[|theirs| - 1] in theirs;
      PassRunWaits(s, cfg, run, theirs[..|theirs| - 1], n);
      assert (run + theirs)[..|run + theirs| - 1] == run + theirs[..|theirs| - 1];
    }
  }

  lemma PassRunCalls(s: State, cfg: Config, run: seq<Action>, n: string, a: Answer)
    requires PassRun(s, cfg, run, n) && n in Exec(s, cfg, run).passes
    ensures PassRun(s, cfg, run + [Next(n, a)], n) && OwnActions(run + [Next(n, a)], n) == OwnActions(run, n) + 1
  {
    hide Exec;
    assert (run + [Next(n, a)])[..|run|] == run;
  }

  lemma PassRunStarts(s: State, cfg: Config, n: string)
    ensures PassRun(s, cfg, [Start(n)], n) && OwnActions([Start(n)], n) == 1
  {
    assert [Start(n)][..0] == [];
  }

  lemma JobGetGrows(s: State, cfg: Config, n: string, obj: CR, a: Answer)
    ensures s.log <= DoJobGet(s, cfg, n, obj, a).log
  {
    hide SetReady, MarkReady, JobKey;
  }

  lemma JobWriteGrows(s: State, cfg: Config, n: string, obj: CR, attempt: Ensure.Attempt, a: Answer)
    ensures s.log <= DoJobWrite(s, cfg, n, obj, attempt, a).log
  {
    hide Finish, SetReady;
  }

  lemma StatusWriteGrows(s: State, n: string, obj: CR, seen: nat, left: nat, a: Answer)
    ensures s.log <= DoStatusWrite(s, n, obj, seen, left, a).log
  {
  }

  lemma ContinueGrows(s: State, cfg: Config, n: string, a: Answer)
    ensures s.log <= Continue(s, cfg, n, a).log
  {
    hide Begin, Finish, ResolveRef, MigrationJob, MigrationConfigMap, SetReady, MarkReady, DoJobGet, DoJobWrite, DoStatusWrite;
    if n in s.passes {
      match s.passes[n]
      case JobWrite(obj, attempt) => JobWriteGrows(s, cfg, n, obj, attempt, a);
      case JobGet(obj) => JobGetGrows(s, cfg, n, obj, a);
      case StatusWrite(obj, seen, left) => StatusWriteGrows(s, n, obj, seen, left, a);
      case _ =>
    }
  }

  lemma StepGrows(s: State, cfg: Config, a: Action)
    ensures s.log <= Step(s, cfg, a).log
  {
    hide Continue, DeleteFrom, PutIn;
    if a.Next? {
      ContinueGrows(s, cfg, a.name, a.answer);
    }
  }

  lemma {:induction false} LogGrows(s: State, cfg: Config, run: seq<Action>)
    ensures s.log <= Exec(s, cfg, run).log
  {
    hide Step;
    if run != [] {
      LogGrows(s, cfg, run[..|run| - 1]);
      StepGrows(Exec(s, cfg, run[..|run| - 1]), cfg, run[|run| - 1]);
    }
  }

  datatype Result = Finished | Requeue | Error(reason: string)

  /** What a pass found out, as far as it came: `written` tells whether the applied hash was stored. */
  datatype Reading = Reading(resolution: Option<Resolution>, configured: bool, ensured: bool,
                             job: Option<JobStatus>, written: bool)

  /** The result the source returns for what was read: failures before completion, errors before waiting. */
  function Verdict(applied: bool, read: Reading): Result {
    if read.resolution.None? || read.resolution.value.Unsupported? then Error("DatabaseResolutionFailed")
    else if read.resolution.value.NotReady? then Requeue
    else if !read.configured then Error("ConfigMapFailed")
    else if applied then Result.Finished
    else if !read.ensured then Error("JobFailed")
    else if read.job.None? then Error("JobGetFailed")
    else if read.job.value.failed > 0 then Error("JobFailed")
    else if read.job.value.succeeded == 0 then Requeue
    else if !read.written then Error("StatusUpdateFailed")
    else Result.Finished
  }

  class Controller {
    const cfg: Config
    const world: World
    var state: State
    var tick: nat
    ghost var start: State
    ghost var run: seq<Action>

    constructor (cfg: Config, world: World, state: State)
      ensures this.cfg == cfg && this.world == world && this.state == state && start == state && run == []
    {
      this.cfg, this.world, this.state, tick := cfg, world, state, 0;
      start, run := state, [];
    }

    /** The state is that of a run of the machine, with one pass of `n` if that has started. */
    ghost predicate Valid(n: string)
      reads this
    {
      && Inv(state, cfg) && Fair(world, cfg, n) && (forall x :: cfg.digest(x) != "")
      && OrderlyRun(start, cfg, run) && state == Exec(start, cfg, run)
      && (run != [] ==> PassRun(start, cfg, run, n))
    }

    /** Where the pass of `n` stands. */
    ghost predicate At(n: string, p: Pass)
      reads this
    {
      run != [] && n in state.passes && state.passes[n] == p
    }

    /** How many actions the pass has taken. */
    ghost function Taken(n: string): nat
      reads this
    {
      OwnActions(run, n)
    }

    /** Everybody else acts. */
    method Await(n: string, ghost p: Pass) returns (a: Answer)
      requires Valid(n) && At(n, p)
      modifies this
      ensures Valid(n) && At(n, p) && start == old(start) && old(run) <= run && old(state.log) <= state.log
      ensures Taken(n) == old(Taken(n))
    {
      hide Inv, Step, Exec, OrderlyRun, Foreign, Fair, PassRun, OwnActions;
      var theirs := world.others(tick, state);
      Welcome(world, cfg, n, tick, state);
      ForeignKeepsPass(state, cfg, theirs, n);
      ExecInv(state, cfg, theirs);
      LogGrows(state, cfg, theirs);
      RunAppend(start, cfg, run, theirs);
      PassRunWaits(start, cfg, run, theirs, n);
      state, run := Exec(state, cfg, theirs), run + theirs;
      a := world.answer(tick);
      tick := tick + 1;
    }

    /** One API call of the pass. */
    method Advance(n: string, a: Answer)
      requires Valid(n) && run != [] && n in state.passes
      modifies this
      ensures Valid(n) && start == old(start) && state == Continue(old(state), cfg, n, a)
      ensures run != [] && old(run) <= run && old(state.log) <= state.log && Taken(n) == old(Taken(n)) + 1
    {
      hide Inv, Fair, Continue, PassRun, OwnActions;
      ContinueInv(state, cfg, n, a);
      StepGrows(state, cfg, Next(n, a));
      OneMore(start, cfg, run, Next(n, a));
      PassRunCalls(start, cfg, run, n, a);
      assert (run + [Next(n, a)])[..|run|] == run;
      state, run := Continue(state, cfg, n, a), run + [Next(n, a)];
    }

    method Enter(n: string)
      requires Valid(n) && run == [] && n in state.crs && n !in state.passes
      modifies this
      ensures Valid(n) && start == old(start) && At(n, Resolve(old(state.crs[n]))) && Taken(n) == 1
      ensures state.log == old(state.log)
    {
      hide Inv, Fair, PassRun, OwnActions;
      BeginPassInv(state, cfg, n);
      OneMore(start, cfg, run, Start(n));
      PassRunStarts(start, cfg, n);
      assert (run + [Start(n)])[..|run|] == run && run + [Start(n)] == [Start(n)];
      state, run := BeginPass(state, n), run + [Start(n)];
    }

    /** One attempt of a status write: `None` asks for another one. */
    method Attempt(n: string, obj: CR, left: nat) returns (ok: Option<bool>)
      requires Valid(n) && At(n, StatusGet(obj, left)) && left > 0
      modifies this
      ensures Valid(n) && start == old(start) && run != []
      ensures old(run) <= run && old(state.log) <= state.log && Taken(n) <= old(Taken(n)) + 2
      ensures ok == Some(true) ==> n in state.crs && state.crs[n].status == obj.status
      ensures ok.Some? ==> n !in state.passes
      ensures ok.None? ==> if left > 1 then At(n, StatusGet(obj, left - 1)) else n !in state.passes
    {
      hide Valid, OwnActions;
      var a := Await(n, StatusGet(obj, left));
      var latest := if n in state.crs then Some(state.crs[n]) else None;
      Advance(n, a);
      if !a.Fine? || latest.None? || latest.value.status == obj.status {
        return Some(a.Fine? && latest.Some?);
      }
      a := Await(n, StatusWrite(obj, latest.value.version, left));
      var found := n in state.crs;
      var conflict := a.Fine? && found && state.crs[n].version != latest.value.version;
      Advance(n, a);
      return if conflict then None else Some(a.Fine? && found);
    }

    /**
     Re-reads the object, copies the status and writes it, at most five times while the
     write conflicts. On success the stored status is that of `obj`.
     */
    method UpdateStatus(n: string, obj: CR) returns (ok: bool)
      requires Valid(n) && At(n, StatusGet(obj, ATTEMPTS))
      modifies this
      ensures Valid(n) && start == old(start) && run != [] && n !in state.passes
      ensures old(run) <= run && old(state.log) <= state.log && Taken(n) <= old(Taken(n)) + 2 * ATTEMPTS
      ensures ok ==> n in state.crs && state.crs[n].status == obj.status
    {
      hide Valid, OwnActions;
      var left := ATTEMPTS;
      while left > 0
        invariant Valid(n) && start == old(start) && run != [] && 0 <= left <= ATTEMPTS
        invariant old(run) <= run && old(state.log) <= state.log
        invariant Taken(n) <= old(Taken(n)) + 2 * (ATTEMPTS - left)
        invariant if left > 0 then At(n, StatusGet(obj, left)) else n !in state.passes
      {
        var outcome := Attempt(n, obj, left);
        if outcome.Some? {
          return outcome.value;
        }
        left := left - 1;
      }
      return false;
    }

    method EnsureConfigMap(n: string, migration: CR, db: Resolved) returns (ok: bool)
      requires Valid(n) && At(n, ConfigGet(migration, db))
      modifies this
      ensures Valid(n) && start == old(start) && run != []
      ensures old(run) <= run && old(state.log) <= state.log && Taken(n) <= old(Taken(n)) + 2
      ensures !ok ==> At(n, StatusGet(SetReady(migration, false, "ConfigMapFailed"), ATTEMPTS))
      ensures ok ==> if migration.status.appliedHash != "" then n !in state.passes else At(n, JobEnsure(migration, db))
    {
      hide Valid, Begin, Finish, OwnActions;
      var a := Await(n, ConfigGet(migration, db));
      var attempt := Begin(state.store, ConfigMapCall(cfg, n, migration));
      Advance(n, a);
      if !a.Fine? {
        return false;
      }
      a := Await(n, ConfigWrite(migration, db, attempt));
      var r := Finish(state.store, cfg.server, attempt).1;
      Advance(n, a);
      return a.Fine? && !r.Failed?;
    }

    method EnsureJob(n: string, migration: CR, db: Resolved) returns (ok: bool)
      requires Valid(n) && At(n, JobEnsure(migration, db))
      modifies this
      ensures Valid(n) && start == old(start) && run != []
      ensures old(run) <= run && old(state.log) <= state.log && Taken(n) <= old(Taken(n)) + 2
      ensures if ok then At(n, JobGet(migration)) else At(n, StatusGet(SetReady(migration, false, "JobFailed"), ATTEMPTS))
    {
      hide Valid, Begin, Finish, MigrationJob, OwnActions;
      var job := MigrationJob(cfg, n, migration, db);
      var a := Await(n, JobEnsure(migration, db));
      if job.None? || !a.Fine? {
        Advance(n, a);
        return false;
      }
      var attempt := Begin(state.store, Call(job.value, OwnerOf(cfg, n, migration), MutateJob));
      Advance(n, a);
      a := Await(n, JobWrite(migration, attempt));
      var r := Finish(state.store, cfg.server, attempt).1;
      Advance(n, a);
      return a.Fine? && !r.Failed?;
    }

    /** Reads the Job back, and logs what it saw. */
    method GetJob(n: string, migration: CR) returns (job: Option<JobStatus>)
      requires Valid(n) && At(n, JobGet(migration))
      modifies this
      ensures Valid(n) && start == old(start)
      ensures old(run) <= run && old(state.log) <= state.log && Taken(n) == old(Taken(n)) + 1
      ensures job.Some? ==> JobSeen(migration.uid, job.value) in state.log
      ensures At(n, StatusGet(if job.None? then SetReady(migration, false, "JobGetFailed")
                              else if job.value.failed > 0 then SetReady(migration, false, "JobFailed")
                              else if job.value.succeeded == 0 then SetReady(migration, false, "JobInProgress")
                              else MarkReady(cfg, migration), ATTEMPTS))
    {
      hide Valid, OwnActions, SetReady, MarkReady;
      var a := Await(n, JobGet(migration));
      var k := JobKey(cfg, n);
      job := if a.Fine? && k in state.store.objects && state.store.objects[k].body.Job?
             then Some(state.store.objects[k].body.jobStatus) else None;
      Advance(n, a);
      if job.Some? {
        assert state.log[|state.log| - 1] == JobSeen(migration.uid, job.value);
      }
    }

    /** Failures first, then completion; on completion the hash is stored together with Ready. */
    method CheckJob(n: string, migration: CR) returns (r: Result, ghost job: Option<JobStatus>, ghost written: bool)
      requires Valid(n) && At(n, JobGet(migration))
      modifies this
      ensures Valid(n) && start == old(start) && run != [] && n !in state.passes
      ensures old(run) <= run && old(state.log) <= state.log && Taken(n) <= old(Taken(n)) + 1 + 2 * ATTEMPTS
      ensures forall resolution: Resolution :: resolution.Ready? ==>
        r == Verdict(false, Reading(Some(resolution), true, true, job, written))
      ensures job.Some? ==> JobSeen(migration.uid, job.value) in state.log
      ensures written ==> n in state.crs && state.crs[n].status == MarkReady(cfg, migration).status
    {
      hide Valid, SetReady, MarkReady, OwnActions;
      var seen := GetJob(n, migration);
      job, written := seen, false;
      if seen.None? {
        var _ := UpdateStatus(n, SetReady(migration, false, "JobGetFailed"));
        return Error("JobGetFailed"), job, false;
      }
      if seen.value.failed > 0 {
        var _ := UpdateStatus(n, SetReady(migration, false, "JobFailed"));
        return Error("JobFailed"), job, false;
      }
      if seen.value.succeeded == 0 {
        var _ := UpdateStatus(n, SetReady(migration, false, "JobInProgress"));
        return Requeue, job, false;
      }
      var ok := UpdateStatus(n, MarkReady(cfg, migration));
      return if ok then Result.Finished else Error("StatusUpdateFailed"), job, ok;
    }

    /** The ConfigMap, and the Job unless the Migration is applied already. */
    method ApplyTo(n: string, migration: CR, db: Resolved) returns (r: Result, ghost read: Reading)
      requires Valid(n) && At(n, ConfigGet(migration, db))
      modifies this
      ensures Valid(n) && start == old(start) && run != [] && n !in state.passes
      ensures old(run) <= run && old(state.log) <= state.log && Taken(n) <= old(Taken(n)) + 5 + 2 * ATTEMPTS
      ensures read.resolution == Some(Ready(db)) && r == Verdict(migration.status.appliedHash != "", read)
      ensures read.job.Some? ==> JobSeen(migration.uid, read.job.value) in state.log
      ensures read.written ==> n in state.crs && state.crs[n].status == MarkReady(cfg, migration).status
    {
      hide Valid, SetReady, MarkReady, OwnActions, Exec;
      read := Reading(Some(Ready(db)), false, false, None, false);
      var configured := EnsureConfigMap(n, migration, db);
      if !configured {
        var _ := UpdateStatus(n, SetReady(migration, false, "ConfigMapFailed"));
        return Error("ConfigMapFailed"), read;
      }
      read := read.(configured := true);
      if migration.status.appliedHash != "" {
        return Result.Finished, read;
      }
      var ensured := EnsureJob(n, migration, db);
      if !ensured {
        var _ := UpdateStatus(n, SetReady(migration, false, "JobFailed"));
        return Error("JobFailed"), read;
      }
      ghost var job, written;
      r, job, written := CheckJob(n, migration);
      read := read.(ensured := true, job := job, written := written);
    }

    /** Some state of the run is one in which this reference resolved so. */
    ghost predicate ResolvedDuring(ref: DatabaseRef, resolution: Resolution)
      reads this
    {
      exists i :: 0 <= i <= |run| && ResolveRef(Exec(start, cfg, run[..i]).databases, ref) == resolution
    }

    /**
     One pass, with its branches and error paths in order. Before each API call everybody
     else may act, and the call may fail. If the Migration exists, the run starts its pass
     and makes its calls, and no others, until it has ended, at most seventeen actions. The
     result is the one the source returns for what was read, and what was read is what
     was there.
     */
    method Reconcile(n: string) returns (r: Result, ghost read: Reading)
      requires Valid(n) && run == [] && n !in state.passes
      modifies this
      ensures Valid(n) && n !in state.passes && start == old(start)
      ensures n !in old(state.crs) ==> r == Result.Finished && state == old(state) && run == []
      ensures n in old(state.crs) ==>
        var m := old(state.crs[n]);
        && run != [] && Taken(n) <= 17 && r == Verdict(m.status.appliedHash != "", read)
        && (read.resolution.Some? ==> ResolvedDuring(m.spec.databaseRef, read.resolution.value))
        && (read.job.Some? ==> JobSeen(m.uid, read.job.value) in state.log)
        && (read.written ==> n in state.crs && state.crs[n].status == MarkReady(cfg, m).status)
    {
      hide Valid, MigrationJob, MigrationConfigMap, ResolveRef, SetReady, MarkReady, OwnActions, Exec, Begin, Finish;
      read := Reading(None, false, false, None, false);
      if n !in state.crs {
        return Result.Finished, read;
      }
      var migration := state.crs[n];
      Enter(n);
      var a := Await(n, Resolve(migration));
      var resolution := ResolveRef(state.databases, migration.spec.databaseRef);
      ghost var during := run;
      ReadAt(n);
      Advance(n, a);
      if !a.Fine? || resolution.Unsupported? {
        var _ := UpdateStatus(n, SetReady(migration, false, "DatabaseResolutionFailed"));
        return Error("DatabaseResolutionFailed"), read;
      }
      read := read.(resolution := Some(resolution));
      if resolution.NotReady? {
        var _ := UpdateStatus(n, SetReady(migration, false, "DatabaseNotReady"));
        assert run[..|during|] == during;
        return Requeue, read;
      }
      ghost var found;
      r, found := ApplyTo(n, migration, resolution.db);
      read := found;
      assert run[..|during|] == during;
    }

    lemma ReadAt(n: string)
      requires Valid(n)
      ensures state == Exec(start, cfg, run)
    {
    }
  }

  lemma Welcome(w: World, cfg: Config, n: string, i: nat, s: State)
    requires Fair(w, cfg, n)
    ensures OrderlyRun(s, cfg, w.others(i, s)) && forall a :: a in w.others(i, s) ==> Foreign(a, n)
  {
  }
}
