/**
 A run in which a Project stores a JWTSyncHash that no Job ever earned: a pass starts the
 JWT Job, it succeeds, the password is edited, and the next pass takes the old Job for
 success with the new password.
 */
module ProjectExample {
  import opened Wrappers
  import opened Objects
  import opened Mutate
  import opened Store
  import opened Ensure
  import opened Status
  import opened Database
  import opened Project
  import opened ProjectChildren
  import opened ProjectReady
  import opened ProjectSync
  import opened ProjectLeftover

  // ---- the stage ----

  function TheSpec(database: string, exp: int): Spec {
    Spec(exp, DatabaseRef("SingleDatabase", database), Some(false), UNSET)
  }

  function TheDatabase(db: Resolved): SingleDatabase {
    SingleDatabase([Condition(READY, true, "", "", 0)], Some(db))
  }

  function PasswordSecret(cfg: Config, ref: KeyRef, password: string): Object {
    Object(Meta(cfg.namespace, ref.name, 0, 0, false, {}, [], map[], map[]), Secret(Some(map[ref.key := password])))
  }

  function Empty(): World { World(None, {}, map[], Store(map[], 0), [], [], -1) }

  /** The Secret is not there yet, or is as a pass leaves it. */
  predicate SecretFits(s: Store, cfg: Config, p: CR, suffix: string, keys: seq<string>) {
    SecretKey(cfg, suffix) in s.objects ==>
      && HoldsKeys(s, SecretKey(cfg, suffix), keys)
      && IsControlledBy(s.objects[SecretKey(cfg, suffix)], OwnerOf(cfg, p).value)
  }

  function PasswordKey(cfg: Config, c: Conn): Key { Key(KindSecret, cfg.namespace, c.db.password.name) }

  /** The password is in a Secret of its own, which is not being deleted. */
  predicate PasswordStands(s: Store, cfg: Config, c: Conn) {
    && PasswordKey(cfg, c) != JWTSecretKey(cfg) && PasswordKey(cfg, c) != KeysSecretKey(cfg)
    && PasswordKey(cfg, c) in s.objects && !s.objects[PasswordKey(cfg, c)].meta.deleting
  }

  /** The database is ready, no Migration is wanted or there, and `c` is in force. */
  ghost predicate Scene(w: World, cfg: Config, database: string, c: Conn) {
    && Valid(w.store) && PasswordStands(w.store, cfg, c) && w.proj.Some? && w.proj.value.spec == TheSpec(database, c.exp)
    && ResolveRef(w.databases, DatabaseRef("SingleDatabase", database)) == Ready(c.db)
    && PasswordAt(w.store, cfg.namespace, c.db.password) == Some(c.password)
    && (forall k: Key :: k.kind == KindMigration ==> k !in w.store.objects)
    && SecretFits(w.store, cfg, w.proj.value, "-jwt", JWT_KEYS) && SecretFits(w.store, cfg, w.proj.value, "-keys", KEYS_KEYS)
  }

  // ---- before the hashes ----

  lemma CreatedSecret(s: Store, cfg: Config, p: CR, suffix: string, keys: seq<string>, generated: string -> string)
    requires Valid(s) && Faithful(cfg.server) && keys != [] && SecretKey(cfg, suffix) !in s.objects
    ensures var (t, r) := EnsureNow(s, cfg.server, SecretCall(cfg, p, suffix, keys, generated));
      && r.Created? && SecretKey(cfg, suffix) in t.objects
      && IsControlledBy(t.objects[SecretKey(cfg, suffix)], OwnerOf(cfg, p).value)
  {
    hide Labels;
    var call := SecretCall(cfg, p, suffix, keys, generated);
    WithOwnerControls(call);
    var d := WithOwner(call).value;
    assert Apply(MutateSecret(keys), d, d).Done?;
  }

  lemma SecretStage(w: World, cfg: Config, luck: Luck, at: Point, p: CR, suffix: string, keys: seq<string>)
    requires Valid(w.store) && Faithful(cfg.server) && keys != [] && AllFine(luck) && SecretFits(w.store, cfg, p, suffix, keys)
    ensures var (t, outcome) := EnsureAt(w, cfg, luck, at, SecretCall(cfg, p, suffix, keys, luck.generated));
      outcome.Proceed? && SecretFits(t.store, cfg, p, suffix, keys)
  {
    SecretAtFrame(w, cfg, luck, at, p, suffix, keys);
    if SecretKey(cfg, suffix) in w.store.objects {
      SecretHeldAt(w, cfg, luck, at, p, suffix, keys);
    } else {
      CreatedSecret(w.store, cfg, p, suffix, keys, luck.generated);
    }
    hide EnsureNow, SecretCall, HoldsKeys, Valid, Faithful, Mild, Untouched, IsControlledBy;
  }

  lemma MigrationStage(w: World, cfg: Config, luck: Luck, p: CR)
    requires AllFine(luck) && p.spec.migrationsEnabled == Some(false) && MigrationKey(cfg) !in w.store.objects
    ensures MigrationAt(w, cfg, luck, p) == (w, Proceed)
  {
    hide MigrationCall, EnsureAt, MigrationKey;
    assert w.(store := w.store) == w;
  }

  lemma FitsStays(s: Store, t: Store, cfg: Config, p: CR, q: CR, suffix: string, keys: seq<string>, mine: Key)
    requires SecretFits(s, cfg, p, suffix, keys) && Untouched(s, t, mine) && mine != SecretKey(cfg, suffix) && q.uid == p.uid
    ensures SecretFits(t, cfg, q, suffix, keys)
  {
    hide IsControlledBy;
  }

  lemma NoMigrations(s: Store, namespace: string, ref: DatabaseRef)
    requires Valid(s) && forall k: Key :: k.kind == KindMigration ==> k !in s.objects
    ensures MigrationsReady(s, namespace, ref)
  {
    forall k | k in s.objects ensures !IsPending(s.objects[k], namespace, ref) {
      KindAt(s, k);
    }
  }

  /** The pass gets to the hashes, and the scene and the Jobs stay. */
  lemma ScenePrepares(w: World, cfg: Config, luck: Luck, database: string, c: Conn)
    requires Scene(w, cfg, database, c) && Faithful(cfg.server) && AllFine(luck)
    ensures var (v, d) := Prepare(w, cfg, luck);
      d == Some(c) && v == w.(store := v.store) && Scene(v, cfg, database, c) && Mild(w.store, v.store, cfg.namespace)
  {
    var p := w.proj.value;
    MigrationStage(w, cfg, luck, p);
    NoMigrations(w.store, cfg.namespace, p.spec.databaseRef);
    SceneSecrets(w, cfg, luck, database, c);
    hide EnsureAt, SecretCall, MigrationAt, MigrationsReady, SecretsPart, Report, ResolveRef, Mild, Valid, PasswordAt, SecretFits;
  }

  lemma SceneSecret(w: World, cfg: Config, luck: Luck, database: string, c: Conn, jwt: bool)
    requires Scene(w, cfg, database, c) && Faithful(cfg.server) && AllFine(luck)
    ensures var (at, suffix, keys) := if jwt then (EnsureJWTSecret, "-jwt", JWT_KEYS) else (EnsureKeysSecret, "-keys", KEYS_KEYS);
      var (t, outcome) := EnsureAt(w, cfg, luck, at, SecretCall(cfg, w.proj.value, suffix, keys, luck.generated));
      outcome.Proceed? && t == w.(store := t.store) && Scene(t, cfg, database, c) && Mild(w.store, t.store, cfg.namespace)
  {
    var p := w.proj.value;
    var (at, suffix, keys) := if jwt then (EnsureJWTSecret, "-jwt", JWT_KEYS) else (EnsureKeysSecret, "-keys", KEYS_KEYS);
    SecretKeysDiffer(cfg);
    hide EnsureAt, SecretCall, ResolveRef, Faithful, PasswordAt, Untouched, SecretFits, HoldsKeys, Mild, Valid;
    SecretStage(w, cfg, luck, at, p, suffix, keys);
    SecretAtFrame(w, cfg, luck, at, p, suffix, keys);
    var t := EnsureAt(w, cfg, luck, at, SecretCall(cfg, p, suffix, keys, luck.generated)).0;
    MildValid(w.store, t.store, cfg.namespace);
    StandsStays(w.store, t.store, cfg, c, SecretKey(cfg, suffix));
    hide PasswordStands;
    if jwt {
      FitsStays(w.store, t.store, cfg, p, p, "-keys", KEYS_KEYS, JWTSecretKey(cfg));
    } else {
      FitsStays(w.store, t.store, cfg, p, p, "-jwt", JWT_KEYS, KeysSecretKey(cfg));
    }
  }

  lemma StandsStays(s: Store, t: Store, cfg: Config, c: Conn, mine: Key)
    requires PasswordStands(s, cfg, c) && Untouched(s, t, mine) && mine != PasswordKey(cfg, c) && mine.kind != KindMigration
    ensures PasswordStands(t, cfg, c)
    ensures (forall k: Key :: k.kind == KindMigration ==> k !in s.objects) ==>
              forall k: Key :: k.kind == KindMigration ==> k !in t.objects
  {
  }

  lemma SceneSecrets(w: World, cfg: Config, luck: Luck, database: string, c: Conn)
    requires Scene(w, cfg, database, c) && Faithful(cfg.server) && AllFine(luck)
    ensures var (v, d) := SecretsPart(w, cfg, luck, w.proj.value, c.db);
      d == Some(c) && v == w.(store := v.store) && Scene(v, cfg, database, c) && Mild(w.store, v.store, cfg.namespace)
  {
    var p := w.proj.value;
    hide EnsureAt, SecretCall, Report, Faithful, Mild, Scene, PasswordAt;
    SceneSecret(w, cfg, luck, database, c, true);
    var w1 := EnsureAt(w, cfg, luck, EnsureJWTSecret, SecretCall(cfg, p, "-jwt", JWT_KEYS, luck.generated)).0;
    SceneSecret(w1, cfg, luck, database, c, false);
    var w2 := EnsureAt(w1, cfg, luck, EnsureKeysSecret, SecretCall(cfg, p, "-keys", KEYS_KEYS, luck.generated)).0;
    MildTwice(w.store, w1.store, w2.store, cfg.namespace);
    ScenePassword(w2, cfg, database, c);
  }

  lemma ScenePassword(w: World, cfg: Config, database: string, c: Conn)
    requires Scene(w, cfg, database, c)
    ensures PasswordAt(w.store, cfg.namespace, c.db.password) == Some(c.password) && w.proj.value.spec.jwtExpSec == c.exp
  {
  }

  lemma MildValid(s: Store, t: Store, namespace: string)
    requires Mild(s, t, namespace)
    ensures Valid(t) && PasswordsKept(s, t, namespace)
  {
  }

  // ---- the Job ----

  ghost predicate Plain(server: Server) { forall b :: server(b) == b }

  lemma PlainFaithful(server: Server)
    requires Plain(server)
    ensures Faithful(server)
  {
  }

  /** The Job as a pass builds it for `c`, which is as for any other password. */
  predicate BuiltJob(s: Store, cfg: Config, p: CR, c: Conn) {
    var k := JobKey(cfg, Jwt);
    && k in s.objects && s.objects[k].body.Job? && s.objects[k].body.job == JobCall(cfg, p, Jwt, c).desired.body.job
    && s.objects[k].meta.labels == Labels(cfg) && s.objects[k].meta.annotations == map[]
    && IsControlledBy(s.objects[k], OwnerOf(cfg, p).value)
  }

  /** The sync Job refers to the password by name, so it does not depend on its value. */
  lemma JobIgnoresPassword(cfg: Config, p: CR, sync: Sync, c: Conn, password: string)
    ensures JobCall(cfg, p, sync, c.(password := password)) == JobCall(cfg, p, sync, c)
  {
    hide Labels;
    assert Env(sync, c.(password := password)) == Env(sync, c);
  }

  lemma JobOwned(cfg: Config, p: CR, c: Conn)
    ensures var call := JobCall(cfg, p, Jwt, c);
      && WithOwner(call).Some? && WithOwner(call).value.meta.labels == Labels(cfg)
      && call.desired.body.job.template.labels == Labels(cfg)
      && IsControlledBy(WithOwner(call).value, OwnerOf(cfg, p).value)
  {
    hide Env, Labels;
    WithOwnerControls(JobCall(cfg, p, Jwt, c));
  }

  /** A Job is left alone that differs from the one built only in its status. */
  lemma MergedJob(e: Object, d: Object)
    requires e.body.Job? && d.body.Job? && e.body.job == d.body.job && e.meta.labels == d.meta.labels
    requires e.meta.annotations == map[] && d.meta.annotations == map[] && d.body.job.template.labels == d.meta.labels
    ensures Apply(MutateJob, e, d) == Done(e)
  {
    assert e.meta.annotations + d.meta.annotations == e.meta.annotations;
    assert e.body.job.template.labels + d.body.job.template.labels == d.body.job.template.labels;
  }

  lemma BuiltJobStays(s: Store, cfg: Config, p: CR, c: Conn)
    requires Valid(s) && BuiltJob(s, cfg, p, c)
    ensures EnsureNow(s, cfg.server, JobCall(cfg, p, Jwt, c)) == (s, Unchanged)
  {
    var call := JobCall(cfg, p, Jwt, c);
    JobOwned(cfg, p, c);
    JobCallBody(cfg, p, Jwt, c);
    hide JobCall, Labels, Env, JobEnv;
    OwnedBody(call);
    MergedJob(s.objects[JobKey(cfg, Jwt)], WithOwner(call).value);
    hide WithOwner, Apply, IsControlledBy;
  }

  lemma JobBuilt(s: Store, cfg: Config, p: CR, c: Conn)
    requires Valid(s) && Plain(cfg.server) && JobKey(cfg, Jwt) !in s.objects
    ensures var (t, r) := EnsureNow(s, cfg.server, JobCall(cfg, p, Jwt, c));
      r.Created? && BuiltJob(t, cfg, p, c) && t.objects[JobKey(cfg, Jwt)].body.jobStatus == JobStatus(0, 0)
  {
    var call := JobCall(cfg, p, Jwt, c);
    JobOwned(cfg, p, c);
    JobCallBody(cfg, p, Jwt, c);
    hide JobCall, Labels, Env, JobEnv, IsControlledBy;
    OwnedBody(call);
    var d := WithOwner(call).value;
    MergedJob(d, d);
    hide WithOwner, Apply;
    BuiltControlled(d, d.(meta := d.meta.(incarnation := s.next, version := s.next, deleting := false)), OwnerOf(cfg, p).value);
  }

  lemma BuiltControlled(a: Object, b: Object, owner: Owner)
    requires IsControlledBy(a, owner) && b.meta.owners == a.meta.owners
    ensures IsControlledBy(b, owner)
  {
  }

  // ---- the two passes ----

  /** The scene with the Job there, this often succeeded and never failed, and no hash stored yet. */
  ghost predicate Waits(w: World, cfg: Config, database: string, c: Conn, succeeded: nat) {
    && Scene(w, cfg, database, c) && BuiltJob(w.store, cfg, w.proj.value, c)
    && w.store.objects[JobKey(cfg, Jwt)].body.jobStatus == JobStatus(succeeded, 0)
    && w.proj.value.status.jwtSyncHash == ""
  }

  /** What is outside the Jobs stays a scene. */
  lemma SceneStays(w: World, t: World, cfg: Config, database: string, c: Conn)
    requires Scene(w, cfg, database, c) && Valid(t.store) && Untouched(w.store, t.store, JobKey(cfg, Jwt))
    requires t.proj.Some? && t.proj.value.spec == w.proj.value.spec && t.proj.value.uid == w.proj.value.uid
    requires t.databases == w.databases
    ensures Scene(t, cfg, database, c)
  {
    FitsStays(w.store, t.store, cfg, w.proj.value, t.proj.value, "-jwt", JWT_KEYS, JobKey(cfg, Jwt));
    FitsStays(w.store, t.store, cfg, w.proj.value, t.proj.value, "-keys", KEYS_KEYS, JobKey(cfg, Jwt));
    StandsStays(w.store, t.store, cfg, c, JobKey(cfg, Jwt));
    hide ResolveRef, HoldsKeys, SecretFits, Valid, PasswordStands;
  }

  /** The first pass builds the Job and waits for it. */
  lemma FirstPass(w: World, cfg: Config, luck: Luck, database: string, c: Conn)
    requires Scene(w, cfg, database, c) && Plain(cfg.server) && AllFine(luck) && JobKey(cfg, Jwt) !in w.store.objects
    requires w.proj.value.status.jwtSyncHash == "" != HashOf(cfg, Jwt, c)
    ensures Waits(Pass(w, cfg, luck), cfg, database, c, 0)
  {
    PlainFaithful(cfg.server);
    ScenePrepares(w, cfg, luck, database, c);
    var v, p := Prepare(w, cfg, luck).0, w.proj.value;
    assert JobKey(cfg, Jwt) !in v.store.objects && Valid(v.store) by {
      hide Prepare, Scene, PasswordsKept, Valid, HashOf;
    }
    hide Prepare, HashOf, Scene, Mild, Faithful, Plain, Valid, JobKey, EnsureNow, JobCall, SyncPart, BuiltJob;
    JobBuilt(v.store, cfg, p, c);
    FirstSync(v, cfg, luck, database, c);
  }

  lemma FirstSync(v: World, cfg: Config, luck: Luck, database: string, c: Conn)
    requires Scene(v, cfg, database, c) && Faithful(cfg.server) && AllFine(luck) && Valid(v.store)
    requires v.proj.Some? && v.proj.value.status.jwtSyncHash == "" != HashOf(cfg, Jwt, c)
    requires var (t, r) := EnsureNow(v.store, cfg.server, JobCall(cfg, v.proj.value, Jwt, c));
      r.Created? && BuiltJob(t, cfg, v.proj.value, c) && t.objects[JobKey(cfg, Jwt)].body.jobStatus == JobStatus(0, 0)
    ensures Waits(SyncPart(v, cfg, luck, v.proj.value, c), cfg, database, c, 0)
  {
    var p := v.proj.value;
    var u := v.(observed := v.observed + [c]);
    var call := JobCall(cfg, p, Jwt, c);
    FaithfulKind(cfg.server);
    JobCallBody(cfg, p, Jwt, c);
    hide HashOf, Scene, Faithful, KeepsKind, EnsureNow, JobCall, Valid, BuiltJob, Report, Untouched, JobKey, SyncStage;
    EnsureFrame(v.store, cfg.server, call);
    var w1 := u.(store := EnsureNow(v.store, cfg.server, call).0);
    BuiltIsJob(w1.store, cfg, p, c);
    FreshStage(u, cfg, luck, p, c);
    var t := Report(w1, luck, p, Reason(Jwt, "InProgress"));
    assert SyncPart(v, cfg, luck, p, c) == t;
    ReportKeepsAll(w1, luck, p, Reason(Jwt, "InProgress"));
    hide SyncPart;
    SceneStays(v, t, cfg, database, c);
    SameBuilt(t.store, cfg, p, t.proj.value, c);
  }

  lemma ReportKeepsAll(w: World, luck: Luck, p: CR, reason: string)
    requires w.proj == Some(p)
    ensures var t := Report(w, luck, p, reason);
      && t.store == w.store && t.databases == w.databases && t.proj.Some? && t.proj.value.spec == p.spec
      && t.proj.value.uid == p.uid && t.proj.value.status.jwtSyncHash == p.status.jwtSyncHash
  {
    hide SetCondition;
  }

  lemma FreshStage(u: World, cfg: Config, luck: Luck, p: CR, c: Conn)
    requires AllFine(luck) && u.proj == Some(p) && p.status.jwtSyncHash != HashOf(cfg, Jwt, c)
    requires var (t, r) := EnsureNow(u.store, cfg.server, JobCall(cfg, p, Jwt, c));
      && r.Created? && JobKey(cfg, Jwt) in t.objects && t.objects[JobKey(cfg, Jwt)].body.Job?
      && t.objects[JobKey(cfg, Jwt)].body.jobStatus == JobStatus(0, 0)
    ensures SyncStage(u, cfg, luck, p, c, Jwt)
         == (Report(u.(store := EnsureNow(u.store, cfg.server, JobCall(cfg, p, Jwt, c)).0), luck, p, Reason(Jwt, "InProgress")), p, false)
  {
    hide HashOf, EnsureNow, JobCall, JobKey, Report;
  }

  lemma BuiltIsJob(s: Store, cfg: Config, p: CR, c: Conn)
    requires BuiltJob(s, cfg, p, c)
    ensures JobKey(cfg, Jwt) in s.objects && s.objects[JobKey(cfg, Jwt)].body.Job?
  {
  }

  /** The Job depends on the identity of the Project only, and not on the password. */
  lemma SameBuilt(s: Store, cfg: Config, p: CR, q: CR, c: Conn)
    requires BuiltJob(s, cfg, p, c) && q.uid == p.uid
    ensures BuiltJob(s, cfg, q, c) && forall password :: BuiltJob(s, cfg, q, c.(password := password))
  {
    assert JobCall(cfg, q, Jwt, c).desired == JobCall(cfg, p, Jwt, c).desired by {
      hide Env, Labels;
    }
    forall password ensures BuiltJob(s, cfg, q, c.(password := password)) {
      JobIgnoresPassword(cfg, q, Jwt, c, password);
      hide JobCall;
    }
  }

  lemma JobSucceeds(w: World, cfg: Config, database: string, c: Conn)
    requires Waits(w, cfg, database, c, 0)
    ensures var t := EndJob(w, cfg, Jwt, true);
      && Waits(t, cfg, database, c, 1) && |t.log| == |w.log| + 1 && t.log[..|w.log|] == w.log
      && t.log[|w.log|].Completed? && t.log[|w.log|].conn == Some(c)
  {
    var t := EndJob(w, cfg, Jwt, true);
    EndJobFrame(w, cfg, Jwt, true);
    SceneConn(w, cfg, database, c);
    SceneStays(w, t, cfg, database, c);
    assert KeyOf(w.store.objects[JobKey(cfg, Jwt)]) == JobKey(cfg, Jwt);
    hide Scene, ValuesIn, JobCall, ConnOf, Labels;
    assert w.store.objects[JobKey(cfg, Jwt)].meta.deleting ==> w.store.objects[JobKey(cfg, Jwt)].meta.finalizers != {};
  }

  lemma SceneConn(w: World, cfg: Config, database: string, c: Conn)
    requires Scene(w, cfg, database, c)
    ensures ConnOf(w, cfg) == Some(c)
  {
    hide SecretFits, Valid;
  }

  /** Somebody edits the password. */
  lemma PasswordEdited(w: World, cfg: Config, database: string, c: Conn, password: string)
    requires Waits(w, cfg, database, c, 1)
    ensures var t := w.(store := PutIn(w.store, PasswordSecret(cfg, c.db.password, password)));
      Waits(t, cfg, database, c.(password := password), 1)
  {
    var t := w.(store := PutIn(w.store, PasswordSecret(cfg, c.db.password, password)));
    var p, d := w.proj.value, c.(password := password);
    SameBuilt(w.store, cfg, p, p, c);
    hide JobCall, ResolveRef, HoldsKeys, IsControlledBy;
    assert Valid(t.store) && Untouched(w.store, t.store, PasswordKey(cfg, c)) && PasswordStands(t.store, cfg, d);
    assert PasswordAt(t.store, cfg.namespace, d.db.password) == Some(password);
    assert BuiltJob(w.store, cfg, p, d);
    hide PutIn, Valid, PasswordAt, PasswordStands;
    FitsStays(w.store, t.store, cfg, p, p, "-jwt", JWT_KEYS, PasswordKey(cfg, c));
    FitsStays(w.store, t.store, cfg, p, p, "-keys", KEYS_KEYS, PasswordKey(cfg, c));
    hide SecretFits;
  }

  /** The second pass takes the old Job for success and stores the hash of the new data. */
  lemma SecondPass(w: World, cfg: Config, luck: Luck, database: string, c: Conn)
    requires Waits(w, cfg, database, c, 1) && Faithful(cfg.server) && AllFine(luck) && HashOf(cfg, Jwt, c) != ""
    ensures var t := Pass(w, cfg, luck);
      t.proj.Some? && t.proj.value.status.jwtSyncHash == HashOf(cfg, Jwt, c)
  {
    ScenePrepares(w, cfg, luck, database, c);
    var v, p := Prepare(w, cfg, luck).0, w.proj.value;
    assert Valid(v.store);
    assert BuiltJob(v.store, cfg, p, c) && v.store.objects[JobKey(cfg, Jwt)] == w.store.objects[JobKey(cfg, Jwt)] by {
      hide JobCall, Scene, Prepare, PasswordsKept, Valid, IsControlledBy, HashOf;
    }
    hide Prepare, HashOf, Scene, Mild, Faithful, Valid;
    BuiltJobStays(v.store, cfg, p, c);
    hide BuiltJob;
    SecondSync(v, cfg, luck, p, c);
  }

  lemma SecondSync(v: World, cfg: Config, luck: Luck, p: CR, c: Conn)
    requires Valid(v.store) && Faithful(cfg.server) && AllFine(luck) && v.proj == Some(p)
    requires p.status.jwtSyncHash == "" != HashOf(cfg, Jwt, c)
    requires EnsureNow(v.store, cfg.server, JobCall(cfg, p, Jwt, c)) == (v.store, Unchanged) && CleanJob(v.store, JobKey(cfg, Jwt))
    ensures var t := SyncPart(v, cfg, luck, p, c);
      t.proj.Some? && t.proj.value.status.jwtSyncHash == HashOf(cfg, Jwt, c)
  {
    var u, q := v.(observed := v.observed + [c]), WithHash(Jwt, p, HashOf(cfg, Jwt, c));
    FaithfulKind(cfg.server);
    CleanStage(u, cfg, luck, p, c);
    var w1 := StoreStatus(u, q);
    hide HashOf, EnsureNow, JobCall, Valid, Faithful, KeepsKind, JobKey, SyncStage, SetCondition;
    StageMoves(w1, cfg, luck, q, c, Password);
  }

  lemma CleanStage(u: World, cfg: Config, luck: Luck, p: CR, c: Conn)
    requires AllFine(luck) && u.proj == Some(p) && p.status.jwtSyncHash != HashOf(cfg, Jwt, c)
    requires EnsureNow(u.store, cfg.server, JobCall(cfg, p, Jwt, c)) == (u.store, Unchanged) && CleanJob(u.store, JobKey(cfg, Jwt))
    ensures var q := WithHash(Jwt, p, HashOf(cfg, Jwt, c));
      SyncStage(u, cfg, luck, p, c, Jwt) == (StoreStatus(u, q), q, true)
  {
    hide HashOf, EnsureNow, JobCall, JobKey, StoreStatus, Report;
    assert u.(store := u.store) == u;
  }

  // ---- the run ----

  /** The pass, the end of the Job, the edit of the password, the pass. */
  function TheRun(cfg: Config, luck: Luck, uid: string, database: string, c: Conn, password: string): seq<Action> {
    [CreateProject(uid, TheSpec(database, c.exp)), SetDatabase(database, TheDatabase(c.db)),
     OtherPut(PasswordSecret(cfg, c.db.password, c.password)), RunPass(luck), JobEnds(Jwt, true),
     OtherPut(PasswordSecret(cfg, c.db.password, password)), RunPass(luck)]
  }

  lemma OneMore(w: World, cfg: Config, run: seq<Action>, a: Action)
    ensures Exec(w, cfg, run + [a]) == Step(Exec(w, cfg, run), cfg, a)
  {
    assert (run + [a])[..|run|] == run;
  }

  lemma RunUnfolds(w: World, cfg: Config, a: Action, b: Action, c: Action, d: Action, e: Action, f: Action, g: Action)
    ensures var u := Step(Step(Step(w, cfg, a), cfg, b), cfg, c);
      Exec(w, cfg, [a, b, c, d, e, f, g]) == Step(Step(Step(Step(u, cfg, d), cfg, e), cfg, f), cfg, g)
  {
    hide Step;
    assert Exec(w, cfg, []) == w;
    OneMore(w, cfg, [], a);
    OneMore(w, cfg, [a], b);
    OneMore(w, cfg, [a, b], c);
    OneMore(w, cfg, [a, b, c], d);
    OneMore(w, cfg, [a, b, c, d], e);
    OneMore(w, cfg, [a, b, c, d, e], f);
    OneMore(w, cfg, [a, b, c, d, e, f], g);
    assert [] + [a] == [a] && [a] + [b] == [a, b] && [a, b] + [c] == [a, b, c] && [a, b, c] + [d] == [a, b, c, d];
    assert [a, b, c, d] + [e] == [a, b, c, d, e] && [a, b, c, d, e] + [f] == [a, b, c, d, e, f];
    assert [a, b, c, d, e, f] + [g] == [a, b, c, d, e, f, g];
  }

  lemma Opening(cfg: Config, uid: string, database: string, c: Conn)
    requires uid != "" && c.db.password.name != cfg.name + "-jwt" && c.db.password.name != cfg.name + "-keys"
    ensures var w := Step(Step(Step(Empty(), cfg, CreateProject(uid, TheSpec(database, c.exp))), cfg,
                               SetDatabase(database, TheDatabase(c.db))), cfg, OtherPut(PasswordSecret(cfg, c.db.password, c.password)));
      && Scene(w, cfg, database, c) && JobKey(cfg, Jwt) !in w.store.objects && w.log == []
      && w.proj.value.status.jwtSyncHash == ""
  {
    hide Pass, EndJob;
  }

  /** With one completion in the log, only the hash of its data is proven. */
  lemma OneCompletion(log: seq<Event>, cfg: Config, i: nat, c: Conn, hash: string)
    requires i < |log| && log[i].Completed? && log[i].conn == Some(c)
    requires forall j :: 0 <= j < |log| && j != i ==> !log[j].Completed?
    requires hash != HashOf(cfg, Jwt, c)
    ensures !Proven(log, cfg, Jwt, hash)
  {
    hide HashOf, Values;
    forall d | Ran(log, Jwt, d) ensures hash != HashOf(cfg, Jwt, d) {
      var incarnation :| RanAs(log, Jwt, incarnation, d);
      var j :| 0 <= j < |log| && log[j] == Completed(Jwt, incarnation, Values(Jwt, d), Some(d));
    }
  }

  lemma StoredOnly(w: World, t: World, cfg: Config)
    requires Follows(w, t, cfg)
    ensures |w.log| <= |t.log|
    ensures forall j :: 0 <= j < |w.log| ==> t.log[j] == w.log[j]
    ensures forall j :: |w.log| <= j < |t.log| ==> t.log[j].Stored?
  {
    assert forall j :: 0 <= j < |w.log| ==> t.log[..|w.log|][j] == t.log[j];
  }

  lemma WaitsValid(w: World, cfg: Config, database: string, c: Conn, succeeded: nat)
    requires Waits(w, cfg, database, c, succeeded)
    ensures Valid(w.store)
  {
  }

  /** The four steps after the opening. */
  function Rest(w: World, cfg: Config, luck: Luck, c: Conn, password: string): World {
    var u := EndJob(Pass(w, cfg, luck), cfg, Jwt, true);
    Pass(u.(store := PutIn(u.store, PasswordSecret(cfg, c.db.password, password))), cfg, luck)
  }

  lemma LoggedOnce(u: World, v: World, cfg: Config, luck: Luck, c: Conn)
    requires Valid(v.store) && Faithful(cfg.server) && |v.log| == |u.log| + 1 && v.log[..|u.log|] == u.log
    requires (forall j :: 0 <= j < |u.log| ==> u.log[j].Stored?) && v.log[|u.log|].Completed? && v.log[|u.log|].conn == Some(c)
    ensures var t := Pass(v, cfg, luck);
      && |u.log| < |t.log| && t.log[|u.log|].Completed? && t.log[|u.log|].conn == Some(c)
      && forall j :: 0 <= j < |t.log| && j != |u.log| ==> !t.log[j].Completed?
  {
    PassFollows(v, cfg, luck);
    hide Pass, Follows, Valid, Faithful;
    StoredOnly(v, Pass(v, cfg, luck), cfg);
    assert forall j :: 0 <= j < |u.log| ==> v.log[..|u.log|][j] == v.log[j];
  }

  lemma RestUnproven(w: World, cfg: Config, luck: Luck, database: string, c: Conn, password: string)
    requires Plain(cfg.server) && AllFine(luck) && Scene(w, cfg, database, c) && JobKey(cfg, Jwt) !in w.store.objects
    requires w.log == [] && w.proj.value.status.jwtSyncHash == "" && HashOf(cfg, Jwt, c) != ""
    requires HashOf(cfg, Jwt, c.(password := password)) != "" && HashOf(cfg, Jwt, c) != HashOf(cfg, Jwt, c.(password := password))
    ensures var t := Rest(w, cfg, luck, c, password);
      && t.proj.Some? && t.proj.value.status.jwtSyncHash == HashOf(cfg, Jwt, c.(password := password))
      && !Proven(t.log, cfg, Jwt, t.proj.value.status.jwtSyncHash)
  {
    PlainFaithful(cfg.server);
    assert Valid(w.store);
    var d := c.(password := password);
    hide Scene, Faithful, Plain, HashOf, Pass, EndJob, PutIn, PasswordSecret, Follows, Waits, Valid, JobKey, Proven;
    FirstPass(w, cfg, luck, database, c);
    PassFollows(w, cfg, luck);
    var u := Pass(w, cfg, luck);
    StoredOnly(w, u, cfg);
    JobSucceeds(u, cfg, database, c);
    var v := EndJob(u, cfg, Jwt, true);
    PasswordEdited(v, cfg, database, c, password);
    var x := v.(store := PutIn(v.store, PasswordSecret(cfg, c.db.password, password)));
    SecondPass(x, cfg, luck, database, d);
    WaitsValid(x, cfg, database, d, 1);
    LoggedOnce(u, x, cfg, luck, c);
    OneCompletion(Pass(x, cfg, luck).log, cfg, |u.log|, c, HashOf(cfg, Jwt, d));
  }

  /**
   From an empty cluster, with no call failing: the hash stored at the end is that of the
   new password, and no Job has ever completed with data of that hash. All it takes is
   that the two passwords hash differently.
   */
  lemma UnprovenHash(cfg: Config, luck: Luck, uid: string, database: string, c: Conn, password: string)
    requires Plain(cfg.server) && AllFine(luck) && uid != ""
    requires c.db.password.name != cfg.name + "-jwt" && c.db.password.name != cfg.name + "-keys"
    requires HashOf(cfg, Jwt, c) != "" && HashOf(cfg, Jwt, c.(password := password)) != ""
    requires HashOf(cfg, Jwt, c) != HashOf(cfg, Jwt, c.(password := password))
    ensures var t := Exec(Empty(), cfg, TheRun(cfg, luck, uid, database, c, password));
      && t.proj.Some? && t.proj.value.status.jwtSyncHash == HashOf(cfg, Jwt, c.(password := password))
      && !Proven(t.log, cfg, Jwt, t.proj.value.status.jwtSyncHash)
  {
    Opening(cfg, uid, database, c);
    RunUnfolds(Empty(), cfg, CreateProject(uid, TheSpec(database, c.exp)), SetDatabase(database, TheDatabase(c.db)),
               OtherPut(PasswordSecret(cfg, c.db.password, c.password)), RunPass(luck), JobEnds(Jwt, true),
               OtherPut(PasswordSecret(cfg, c.db.password, password)), RunPass(luck));
    var w := Step(Step(Step(Empty(), cfg, CreateProject(uid, TheSpec(database, c.exp))), cfg,
                       SetDatabase(database, TheDatabase(c.db))), cfg, OtherPut(PasswordSecret(cfg, c.db.password, c.password)));
    LastSteps(w, cfg, luck, c, password);
    hide Scene, Plain, HashOf, Rest, JobKey, TheSpec, TheDatabase, Empty, Exec, Proven, Step, PasswordSecret;
    RestUnproven(w, cfg, luck, database, c, password);
  }

  lemma LastSteps(w: World, cfg: Config, luck: Luck, c: Conn, password: string)
    ensures Step(Step(Step(Step(w, cfg, RunPass(luck)), cfg, JobEnds(Jwt, true)), cfg,
                      OtherPut(PasswordSecret(cfg, c.db.password, password))), cfg, RunPass(luck))
         == Rest(w, cfg, luck, c, password)
  {
    hide Pass, EndJob, PutIn, PasswordSecret;
  }
}
