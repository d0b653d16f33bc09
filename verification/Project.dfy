/**
 The Project controller: database, migrations, Secrets, the two sync Jobs, Ready. Here a
 pass is one step, but any of its API calls may fail, with or without having been carried
 out, or be its last. Between passes users, the Job controller and others act.
 `ProjectSteps` cuts the same pass at its API calls.
 */
module Project {
  import opened Wrappers
  import opened Objects
  import opened Mutate
  import opened Store
  import opened Ensure
  import opened Status
  import opened Database
  import Preimage

  // ---- state ----

  datatype Spec = Spec(jwtExpSec: int, databaseRef: DatabaseRef, migrationsEnabled: Option<bool>, migrationPod: Raw)

  datatype ProjectStatus = ProjectStatus(conditions: seq<Condition>, jwtSyncHash: string, passwordSyncHash: string)

  datatype CR = CR(uid: string, generation: int, spec: Spec, status: ProjectStatus)

  datatype Sync = Jwt | Password

  /** What the sync Jobs depend on. */
  datatype Conn = Conn(db: Resolved, password: string, exp: int)

  /**
   A Job that succeeded, with its identity, the values its variables had, and the
   connection data in force; a status write.
   */
  datatype Event =
    | Completed(sync: Sync, incarnation: nat, values: map<string, string>, conn: Option<Conn>)
    | Stored(status: ProjectStatus)

  /**
   `uids` has every UID ever given to a Project of this name. `observed` lists what each
   pass that got to the hashes computed them from, and `passwordAt` is the place in it
   where the stored PasswordSyncHash comes from.
   */
  datatype World = World(proj: Option<CR>, uids: set<string>, databases: map<string, SingleDatabase>, store: Store,
                         log: seq<Event>, observed: seq<Conn>, passwordAt: int)

  /** `scripts` is the built-in script list of the first Migration. */
  datatype Config = Config(name: string, namespace: string, server: Server, digest: string -> string,
                           scripts: seq<MigrationEntry>)

  /** How an API call goes: fine; not carried out; carried out but reported failed; carried out, and the process ends. */
  datatype Fate = Fine | Lost | Unheard | Dies

  datatype Point =
    | ResolveDatabase
    | EnsureMigration
    | ListMigrations
    | EnsureJWTSecret
    | EnsureKeysSecret
    | ReadPassword
    | EnsureJob(sync: Sync)
    | GetJob(sync: Sync)
    | StoreHash(sync: Sync)
    | StoreReport
    | StoreReady

  /** What a pass cannot choose: the fate of its calls, and the values it generates. */
  datatype Luck = Luck(fate: Point -> Fate, generated: string -> string)

  // ---- child objects ----

  const JWT_KEYS := ["jwt-secret", "anon-key", "service-key", "jwt-keys", "jwt-jwks", "anon-key-asymmetric",
                     "service-key-asymmetric", "publishable-key", "secret-key"]

  const KEYS_KEYS := ["secret-key-base", "crypto-key", "vault-enc-key", "realtime-db-enc-key"]

  function Labels(cfg: Config): StringMap {
    map["app.kubernetes.io/name" := "project", "app.kubernetes.io/component" := "project",
        "app.kubernetes.io/instance" := cfg.name, "app.kubernetes.io/managed-by" := "supabase-operator"]
  }

  function ChildMeta(cfg: Config, suffix: string): Meta {
    Meta(cfg.namespace, cfg.name + suffix, 0, 0, false, {}, [], Labels(cfg), map[])
  }

  function OwnerOf(cfg: Config, p: CR): Option<Owner> { Some(Owner("Project", cfg.namespace, cfg.name, p.uid)) }

  function MigrationKey(cfg: Config): Key { Key(KindMigration, cfg.namespace, cfg.name + "-migration-1") }

  function MigrationCall(cfg: Config, p: CR): Call {
    Call(Object(ChildMeta(cfg, "-migration-1"),
                Migration(MigrationSpec(p.spec.migrationPod, p.spec.databaseRef, cfg.scripts), false)),
         OwnerOf(cfg, p), MutateMigration)
  }

  /** A Secret with a fresh value for each of its keys. */
  function SecretCall(cfg: Config, p: CR, suffix: string, keys: seq<string>, generated: string -> string): Call {
    Call(Object(ChildMeta(cfg, suffix), Secret(Some(map k | k in keys :: generated(k)))),
         OwnerOf(cfg, p), MutateSecret(keys))
  }

  function Env(sync: Sync, c: Conn): seq<EnvVar> {
    [Variable("PGHOST", c.db.host), Variable("PGPORT", Preimage.Itoa(c.db.port)), Variable("PGUSER", c.db.user),
     FromSecret("PGPASSWORD", c.db.password)]
    + if sync.Jwt? then [Variable("PGDATABASE", c.db.dbName), Variable("JWT_EXP", Preimage.Itoa(c.exp))]
      else [Variable("PGDATABASE", "_supabase"), Variable("DB_ADMIN_USER", c.db.user),
            Variable("DB_SRV_NAME", c.db.host), Variable("DB_SRV_PORT", Preimage.Itoa(c.db.port))]
  }

  function Suffix(sync: Sync): string { if sync.Jwt? then "-sync-jwt" else "-sync-password" }

  function JobKey(cfg: Config, sync: Sync): Key { Key(KindJob, cfg.namespace, cfg.name + Suffix(sync)) }

  /** Image, command and script are fixed for each of the two; a code stands for them. */
  function JobCall(cfg: Config, p: CR, sync: Sync, c: Conn): Call {
    var code := if sync.Jwt? then 1 else 2;
    var managed := Managed(1, 1, code, UNSET, UNSET, [], Env(sync, c), UNSET, UNSET, UNSET, UNSET, 1, UNSET);
    var pod := PodSpec(UNSET, map[], UNSET, UNSET, UNSET, None, [], UNSET, UNSET, UNSET, [],
                       [NO_CONTAINER.(name := Suffix(sync)[1..], managed := managed)], UNSET);
    Call(Object(ChildMeta(cfg, Suffix(sync)),
                Job(JobSpec(UNSET, PodTemplate(Labels(cfg), map[], UNSET, pod), 1), JobStatus(0, 0))),
         OwnerOf(cfg, p), MutateJob)
  }

  // ---- hashes ----

  function LoginOf(c: Conn): Preimage.Login {
    Preimage.Login(c.db.dbName, c.db.user, c.db.host, c.db.port, c.password)
  }

  function HashOf(cfg: Config, sync: Sync, c: Conn): string {
    if sync.Jwt? then Preimage.JWTSyncHash(cfg.digest, LoginOf(c), c.exp)
    else Preimage.PasswordSyncHash(cfg.digest, LoginOf(c))
  }

  function StatusHash(sync: Sync, p: CR): string {
    if sync.Jwt? then p.status.jwtSyncHash else p.status.passwordSyncHash
  }

  function WithHash(sync: Sync, p: CR, hash: string): CR {
    if sync.Jwt? then p.(status := p.status.(jwtSyncHash := hash))
    else p.(status := p.status.(passwordSyncHash := hash))
  }

  // ---- what a pass reads ----

  function PasswordAt(s: Store, namespace: string, ref: KeyRef): Option<string> {
    var k := Key(KindSecret, namespace, ref.name);
    if k in s.objects && s.objects[k].body.Secret? && s.objects[k].body.data.Some? && ref.key in s.objects[k].body.data.value
    then Some(s.objects[k].body.data.value[ref.key])
    else None
  }

  predicate IsPending(o: Object, namespace: string, ref: DatabaseRef) {
    o.body.Migration? && o.meta.namespace == namespace && o.body.migration.databaseRef == ref && !o.body.migrationReady
  }

  /** No Migration in the namespace with this database reference still waits to be ready. */
  predicate MigrationsReady(s: Store, namespace: string, ref: DatabaseRef) {
    forall k | k in s.objects :: !IsPending(s.objects[k], namespace, ref)
  }

  // ---- a pass ----

  function SetReady(p: CR, ready: bool, reason: string): CR {
    p.(status := p.status.(
         conditions := SetCondition(p.status.conditions, Condition(READY, ready, reason, reason, p.generation))))
  }

  /** Nobody else writes the status during a pass; an equal status is not written. */
  function StoreStatus(w: World, p: CR): World {
    if w.proj == None || w.proj.value.status == p.status then w
    else w.(proj := Some(w.proj.value.(status := p.status)), log := w.log + [Stored(p.status)])
  }

  function Report(w: World, luck: Luck, p: CR, reason: string): World {
    if luck.fate(StoreReport).Lost? then w else StoreStatus(w, SetReady(p, false, reason))
  }

  datatype Outcome = Proceed | Fails | Ends

  /** One `EnsureResource` of the pass. */
  function EnsureAt(w: World, cfg: Config, luck: Luck, at: Point, call: Call): (World, Outcome) {
    var (store, r) := EnsureNow(w.store, cfg.server, call);
    (if luck.fate(at).Lost? then w else w.(store := store),
     if luck.fate(at).Dies? then Ends else if !luck.fate(at).Fine? || r.Failed? then Fails else Proceed)
  }

  function Reason(sync: Sync, text: string): string {
    (if sync.Jwt? then "SyncJWTJob" else "SyncPasswordJob") + text
  }

  /** One sync Job: skipped when the stored hash is current, else run until it has succeeded without failures. */
  function SyncStage(w: World, cfg: Config, luck: Luck, p: CR, c: Conn, sync: Sync): (World, CR, bool) {
    if HashOf(cfg, sync, c) == StatusHash(sync, p) then (w, p, true)
    else
      var (w1, ensured) := EnsureAt(w, cfg, luck, EnsureJob(sync), JobCall(cfg, p, sync, c));
      match ensured
      case Ends => (w1, p, false)
      case Fails => (Report(w1, luck, p, Reason(sync, "Failed")), p, false)
      case Proceed => AwaitJob(w1, cfg, luck, p, c, sync)
  }

  function AwaitJob(w: World, cfg: Config, luck: Luck, p: CR, c: Conn, sync: Sync): (World, CR, bool) {
    var k := JobKey(cfg, sync);
    if !luck.fate(GetJob(sync)).Fine? || k !in w.store.objects || !w.store.objects[k].body.Job? then (w, p, false)
    else
      var job := w.store.objects[k].body.jobStatus;
      if job.failed > 0 then (Report(w, luck, p, Reason(sync, "Failed")), p, false)
      else if job.succeeded == 0 then (Report(w, luck, p, Reason(sync, "InProgress")), p, false)
      else
        var done := WithHash(sync, p, HashOf(cfg, sync, c));
        (StoreSyncHash(w, luck, done, sync), done, luck.fate(StoreHash(sync)).Fine?)
  }

  function StoreSyncHash(w: World, luck: Luck, p: CR, sync: Sync): World {
    if luck.fate(StoreHash(sync)).Lost? then w
    else if sync.Password? then StoreStatus(w, p).(passwordAt := |w.observed| - 1)
    else StoreStatus(w, p)
  }

  function SyncPart(w: World, cfg: Config, luck: Luck, p: CR, c: Conn): World {
    var (w1, p1, go1) := SyncStage(w.(observed := w.observed + [c]), cfg, luck, p, c, Jwt);
    if !go1 then w1
    else
      var (w2, p2, go2) := SyncStage(w1, cfg, luck, p1, c, Password);
      if !go2 || luck.fate(StoreReady).Lost? then w2 else StoreStatus(w2, SetReady(p2, true, "ReconcileSucceeded"))
  }

  /** What a pass computes the hashes from, if it gets to them. */
  function PasswordPart(w: World, cfg: Config, luck: Luck, p: CR, db: Resolved): (World, Option<Conn>) {
    var password := PasswordAt(w.store, cfg.namespace, db.password);
    if luck.fate(ReadPassword).Dies? then (w, None)
    else if !luck.fate(ReadPassword).Fine? || password.None? then (Report(w, luck, p, "DBPasswordValueFailed"), None)
    else (w, Some(Conn(db, password.value, p.spec.jwtExpSec)))
  }

  function SecretsPart(w: World, cfg: Config, luck: Luck, p: CR, db: Resolved): (World, Option<Conn>) {
    var (w1, jwt) := EnsureAt(w, cfg, luck, EnsureJWTSecret, SecretCall(cfg, p, "-jwt", JWT_KEYS, luck.generated));
    if jwt.Ends? then (w1, None)
    else if jwt.Fails? then (Report(w1, luck, p, "JWTSecretFailed"), None)
    else
      var (w2, keys) := EnsureAt(w1, cfg, luck, EnsureKeysSecret, SecretCall(cfg, p, "-keys", KEYS_KEYS, luck.generated));
      if keys.Ends? then (w2, None)
      else if keys.Fails? then (Report(w2, luck, p, "KeysSecretFailed"), None)
      else PasswordPart(w2, cfg, luck, p, db)
  }

  /** Deletion of the first Migration ignores that it may be gone already. */
  function MigrationAt(w: World, cfg: Config, luck: Luck, p: CR): (World, Outcome) {
    if p.spec.migrationsEnabled == Some(false) then
      var store := DeleteFrom(w.store, MigrationKey(cfg), None).0;
      (if luck.fate(EnsureMigration).Lost? then w else w.(store := store),
       if luck.fate(EnsureMigration).Dies? then Ends else if luck.fate(EnsureMigration).Fine? then Proceed else Fails)
    else EnsureAt(w, cfg, luck, EnsureMigration, MigrationCall(cfg, p))
  }

  function MigrationPart(w: World, cfg: Config, luck: Luck, p: CR, db: Resolved): (World, Option<Conn>) {
    var (w1, migration) := MigrationAt(w, cfg, luck, p);
    if migration.Ends? then (w1, None)
    else if migration.Fails? then (Report(w1, luck, p, "MigrationFailed"), None)
    else if luck.fate(ListMigrations).Dies? then (w1, None)
    else if !luck.fate(ListMigrations).Fine? then (Report(w1, luck, p, "MigrationsListFailed"), None)
    else if !MigrationsReady(w1.store, cfg.namespace, p.spec.databaseRef)
    then (Report(w1, luck, p, "MigrationsNotReady"), None)
    else SecretsPart(w1, cfg, luck, p, db)
  }

  /** Everything before the hashes. */
  function Prepare(w: World, cfg: Config, luck: Luck): (World, Option<Conn>) {
    if w.proj.None? || luck.fate(ResolveDatabase).Dies? then (w, None)
    else
      var p := w.proj.value;
      var r := ResolveRef(w.databases, p.spec.databaseRef);
      if !luck.fate(ResolveDatabase).Fine? || r.Unsupported? then (Report(w, luck, p, "DatabaseResolutionFailed"), None)
      else if r.NotReady? then (Report(w, luck, p, "DatabaseNotReady"), None)
      else MigrationPart(w, cfg, luck, p, r.db)
  }

  function Pass(w: World, cfg: Config, luck: Luck): World {
    var (v, c) := Prepare(w, cfg, luck);
    if w.proj.None? || c.None? then v else SyncPart(v, cfg, luck, w.proj.value, c.value)
  }

  // ---- runs ----

  datatype Action =
    | RunPass(luck: Luck)
    | CreateProject(uid: string, spec: Spec)
    | EditProject(spec: Spec)
    | DeleteProject
    | SetDatabase(database: string, value: SingleDatabase)
    | RemoveDatabase(database: string)
    | JobEnds(sync: Sync, succeeds: bool)
    | OtherPut(obj: Object)
    | OtherDelete(key: Key)

  /** The value a variable gets when its pod starts, if it has one. */
  function ValueIn(s: Store, namespace: string, v: EnvVar): Option<string> {
    if v.valueFrom.None? then Some(v.value)
    else if v.valueFrom.value.secretKey.None? then None
    else PasswordAt(s, namespace, v.valueFrom.value.secretKey.value)
  }

  function JobEnv(b: Body): seq<EnvVar> {
    if b.Job? && b.job.template.spec.containers != [] then b.job.template.spec.containers[0].managed.env else []
  }

  /** The variables a pod starts with, by name; of two of one name the later counts. */
  function ValuesIn(s: Store, namespace: string, env: seq<EnvVar>): map<string, string> {
    if env == [] then map[]
    else
      var last := env[|env| - 1];
      ValuesIn(s, namespace, env[..|env| - 1])[last.name := ValueIn(s, namespace, last).GetOr("")]
  }

  function ConnOf(w: World, cfg: Config): Option<Conn> {
    if w.proj.None? then None
    else
      var ref := w.proj.value.spec.databaseRef;
      if ref.kind != "SingleDatabase" || ref.name !in w.databases || w.databases[ref.name].resolved.None? then None
      else
        var db := w.databases[ref.name].resolved.value;
        var password := PasswordAt(w.store, cfg.namespace, db.password);
        if password.None? then None else Some(Conn(db, password.value, w.proj.value.spec.jwtExpSec))
  }

  /** The Job controller: a run that ends well, once, or one that fails before that. */
  function EndJob(w: World, cfg: Config, sync: Sync, succeeds: bool): World {
    var k := JobKey(cfg, sync);
    if k !in w.store.objects || !w.store.objects[k].body.Job? || w.store.objects[k].body.jobStatus.succeeded > 0 then w
    else
      var o := w.store.objects[k];
      var counted := if succeeds then o.body.jobStatus.(succeeded := 1)
                     else o.body.jobStatus.(failed := o.body.jobStatus.failed + 1);
      var w1 := w.(store := PutIn(w.store, o.(body := o.body.(jobStatus := counted))));
      if succeeds
      then w1.(log := w.log + [Completed(sync, o.meta.incarnation, ValuesIn(w.store, cfg.namespace, JobEnv(o.body)),
                                         ConnOf(w, cfg))])
      else w1
  }

  function Step(w: World, cfg: Config, a: Action): World {
    match a
    case RunPass(luck) => Pass(w, cfg, luck)
    case CreateProject(uid, spec) =>
      if w.proj.Some? || uid == "" || uid in w.uids then w
      else w.(proj := Some(CR(uid, 1, spec, ProjectStatus([], "", ""))), uids := w.uids + {uid})
    case EditProject(spec) =>
      if w.proj.None? then w
      else w.(proj := Some(w.proj.value.(spec := spec, generation := w.proj.value.generation + 1)))
    case DeleteProject => w.(proj := None)
    case SetDatabase(d, value) => w.(databases := w.databases[d := value])
    case RemoveDatabase(d) => w.(databases := w.databases - {d})
    case JobEnds(sync, succeeds) => EndJob(w, cfg, sync, succeeds)
    case OtherPut(o) => w.(store := PutIn(w.store, o))
    case OtherDelete(k) => w.(store := DeleteFrom(w.store, k, None).0)
  }

  function Exec(w: World, cfg: Config, run: seq<Action>): World {
    if run == [] then w else Step(Exec(w, cfg, run[..|run| - 1]), cfg, run[|run| - 1])
  }
}
