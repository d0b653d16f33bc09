/**
 When a Project pass says Ready: only with the database, the Migrations, the Secrets and
 both sync hashes in place, but for one write, and exactly then.
 */
module ProjectReady {
  import opened Wrappers
  import opened Objects
  import opened Store
  import opened Ensure
  import opened Status
  import opened Database
  import opened Project
  import opened ProjectChildren

  /** Everything Ready stands for, but the hashes. */
  predicate Prepared(w: World, cfg: Config, c: Conn) {
    && w.proj.Some?
    && ResolveRef(w.databases, w.proj.value.spec.databaseRef) == Ready(c.db)
    && ConnOf(w, cfg) == Some(c)
    && MigrationsReady(w.store, cfg.namespace, w.proj.value.spec.databaseRef)
    && HoldsKeys(w.store, JWTSecretKey(cfg), JWT_KEYS) && HoldsKeys(w.store, KeysSecretKey(cfg), KEYS_KEYS)
  }

  predicate HashesOf(status: ProjectStatus, cfg: Config, c: Conn) {
    status.jwtSyncHash == HashOf(cfg, Jwt, c) && status.passwordSyncHash == HashOf(cfg, Password, c)
  }

  predicate Gates(w: World, cfg: Config) {
    && w.proj.Some? && ConnOf(w, cfg).Some?
    && Prepared(w, cfg, ConnOf(w, cfg).value) && HashesOf(w.proj.value.status, cfg, ConnOf(w, cfg).value)
  }

  predicate SaysReady(e: Event) { e.Stored? && IsTrue(e.status.conditions, READY) }

  predicate IsReady(w: World) { w.proj.Some? && IsTrue(w.proj.value.status.conditions, READY) }

  /** A status that carries over Ready and the PasswordSyncHash the pass from `w` found. */
  predicate CarriesOver(w: World, status: ProjectStatus) {
    IsReady(w) && status.passwordSyncHash == w.proj.value.status.passwordSyncHash
  }

  /**
   What stands behind a Ready=True that a pass from `w` to `t` wrote: all gates as they are
   in `t`, where only the PasswordSyncHash may be left over, and only if Ready is too.
   */
  ghost predicate Behind(w: World, t: World, cfg: Config, status: ProjectStatus) {
    exists c :: Prepared(t, cfg, c) && Justifies(w, cfg, c, true, status)
  }

  /** `carries` tells whether a write may carry anything over. */
  predicate Justifies(w: World, cfg: Config, c: Conn, carries: bool, status: ProjectStatus) {
    && status.jwtSyncHash == HashOf(cfg, Jwt, c)
    && (status.passwordSyncHash == HashOf(cfg, Password, c) || (carries && CarriesOver(w, status)))
  }

  /** The stored status is the one last written. */
  predicate LastWrite(w: World, t: World) {
    w.proj.Some? && |w.log| <= |t.log| ==>
      && t.proj.Some?
      && if |t.log| == |w.log| then t.proj.value.status == w.proj.value.status
         else t.log[|t.log| - 1] == Stored(t.proj.value.status)
  }

  ghost predicate Grows(w: World, t: World) {
    |w.log| <= |t.log| && t.log[..|w.log|] == w.log
  }

  /** What a pass from `w` may have logged when it ends in `t`. */
  ghost predicate PassEnds(w: World, t: World, cfg: Config) {
    && Grows(w, t) && LastWrite(w, t)
    && forall i :: |w.log| <= i < |t.log| && SaysReady(t.log[i]) ==> Behind(w, t, cfg, t.log[i].status)
  }

  lemma NotReadyNow(p: CR, ready: bool, reason: string)
    ensures IsTrue(SetReady(p, ready, reason).status.conditions, READY) <==> ready
  {
    SetConditionFinds(p.status.conditions, Condition(READY, ready, reason, reason, p.generation), READY);
  }

  // ---- the stages before the hashes ----

  ghost predicate AllFine(luck: Luck) { forall at :: luck.fate(at).Fine? }

  /** Only the store has changed, or a report that the Project is not ready was due. */
  ghost predicate Reported(w: World, v: World, luck: Luck) {
    || (v == w.(store := v.store) && !AllFine(luck))
    || exists reason :: w.proj.Some? && v == Report(w.(store := v.store), luck, w.proj.value, reason)
  }

  /** A pass that got to the hashes has everything else prepared, and has changed only the store. */
  ghost predicate Prepares(w: World, v: World, c: Option<Conn>, cfg: Config, luck: Luck) {
    && w.proj.Some? && Mild(w.store, v.store, cfg.namespace)
    && if c.Some? then v == w.(store := v.store) && Prepared(v, cfg, c.value) else Reported(w, v, luck)
  }

  lemma StopPrepares(w: World, v: World, cfg: Config, luck: Luck, reason: string)
    requires w.proj.Some? && v == w.(store := v.store) && Mild(w.store, v.store, cfg.namespace)
    ensures AllFine(luck) || Prepares(w, v, None, cfg, luck)
    ensures Prepares(w, Report(v, luck, w.proj.value, reason), None, cfg, luck)
  {
    hide SetReady, Mild;
    var u := Report(v, luck, w.proj.value, reason);
    assert w.(store := u.store) == v;
  }

  lemma PasswordPartPrepares(w: World, v: World, cfg: Config, luck: Luck, db: Resolved)
    requires w.proj.Some? && v == w.(store := v.store) && Mild(w.store, v.store, cfg.namespace)
    requires ResolveRef(w.databases, w.proj.value.spec.databaseRef) == Ready(db)
    requires MigrationsReady(v.store, cfg.namespace, w.proj.value.spec.databaseRef)
    requires HoldsKeys(v.store, JWTSecretKey(cfg), JWT_KEYS) && HoldsKeys(v.store, KeysSecretKey(cfg), KEYS_KEYS)
    ensures var (u, c) := PasswordPart(v, cfg, luck, w.proj.value, db);
      Prepares(w, u, c, cfg, luck)
  {
    StopPrepares(w, v, cfg, luck, "DBPasswordValueFailed");
    hide Report, MigrationsReady, HoldsKeys, PasswordAt, Mild, Reported;
  }

  lemma SecretsPartPrepares(w: World, v: World, cfg: Config, luck: Luck, db: Resolved)
    requires w.proj.Some? && v == w.(store := v.store) && Mild(w.store, v.store, cfg.namespace) && Faithful(cfg.server)
    requires ResolveRef(w.databases, w.proj.value.spec.databaseRef) == Ready(db)
    requires MigrationsReady(v.store, cfg.namespace, w.proj.value.spec.databaseRef)
    ensures var (u, c) := SecretsPart(v, cfg, luck, w.proj.value, db);
      Prepares(w, u, c, cfg, luck)
  {
    hide Report, PasswordPart, MigrationsReady, EnsureAt, SecretCall, Faithful, Valid, HoldsKeys, ResolveRef, PasswordsKept,
      Prepares;
    var p := w.proj.value;
    SecretAtFrame(v, cfg, luck, EnsureJWTSecret, p, "-jwt", JWT_KEYS);
    var (w1, jwt) := EnsureAt(v, cfg, luck, EnsureJWTSecret, SecretCall(cfg, p, "-jwt", JWT_KEYS, luck.generated));
    hide Untouched;
    MildTwice(w.store, v.store, w1.store, cfg.namespace);
    StopPrepares(w, w1, cfg, luck, "JWTSecretFailed");
    SecretAtFrame(w1, cfg, luck, EnsureKeysSecret, p, "-keys", KEYS_KEYS);
    var (w2, keys) := EnsureAt(w1, cfg, luck, EnsureKeysSecret, SecretCall(cfg, p, "-keys", KEYS_KEYS, luck.generated));
    MildTwice(w.store, w1.store, w2.store, cfg.namespace);
    StopPrepares(w, w2, cfg, luck, "KeysSecretFailed");
    ReadyMigrationsStay(v.store, w1.store, cfg.namespace, p.spec.databaseRef);
    ReadyMigrationsStay(w1.store, w2.store, cfg.namespace, p.spec.databaseRef);
    if jwt.Proceed? && keys.Proceed? {
      SecretKeysDiffer(cfg);
      HeldKeysStay(w1.store, w2.store, JWTSecretKey(cfg), JWT_KEYS);
      PasswordPartPrepares(w, w2, cfg, luck, db);
    }
  }

  lemma MigrationPartPrepares(w: World, cfg: Config, luck: Luck, db: Resolved)
    requires w.proj.Some? && Valid(w.store) && Faithful(cfg.server)
    requires ResolveRef(w.databases, w.proj.value.spec.databaseRef) == Ready(db)
    ensures var (u, c) := MigrationPart(w, cfg, luck, w.proj.value, db);
      Prepares(w, u, c, cfg, luck)
  {
    var p := w.proj.value;
    FaithfulKind(cfg.server);
    MigrationAtFrame(w, cfg, luck, p);
    hide MigrationAt, Faithful, Report, SecretsPart, Mild, Untouched, MigrationsReady, ResolveRef, Prepares;
    var w1 := MigrationAt(w, cfg, luck, p).0;
    StopPrepares(w, w1, cfg, luck, "MigrationFailed");
    StopPrepares(w, w1, cfg, luck, "MigrationsListFailed");
    StopPrepares(w, w1, cfg, luck, "MigrationsNotReady");
    if MigrationsReady(w1.store, cfg.namespace, p.spec.databaseRef) {
      SecretsPartPrepares(w, w1, cfg, luck, db);
    }
  }

  lemma PreparePrepares(w: World, cfg: Config, luck: Luck)
    requires w.proj.Some? && Valid(w.store) && Faithful(cfg.server)
    ensures var (v, c) := Prepare(w, cfg, luck);
      Prepares(w, v, c, cfg, luck)
  {
    hide MigrationPart, Report, ResolveRef, Prepares, Valid, Faithful;
    var p := w.proj.value;
    StopPrepares(w, w, cfg, luck, "DatabaseResolutionFailed");
    StopPrepares(w, w, cfg, luck, "DatabaseNotReady");
    var r := ResolveRef(w.databases, p.spec.databaseRef);
    if r.Ready? {
      MigrationPartPrepares(w, cfg, luck, r.db);
    }
  }

  /** A pass that stopped before the hashes has said nothing of Ready. */
  lemma ReportedEnds(w: World, v: World, cfg: Config, luck: Luck)
    requires w.proj.Some? && Reported(w, v, luck)
    ensures PassEnds(w, v, cfg)
  {
    hide Behind, IsTrue, SetReady;
    if v != w.(store := v.store) {
      var reason :| v == Report(w.(store := v.store), luck, w.proj.value, reason);
      NotReadyNow(w.proj.value, false, reason);
    }
  }

  // ---- the sync stages ----

  /** Steps that touch only Jobs, the hashes and the log leave everything prepared. */
  lemma PreparedStays(w: World, t: World, cfg: Config, c: Conn, sync: Sync)
    requires Prepared(w, cfg, c) && t.proj.Some? && t.proj.value.spec == w.proj.value.spec && t.databases == w.databases
    requires Untouched(w.store, t.store, JobKey(cfg, sync)) && Valid(w.store) && Valid(t.store)
    ensures Prepared(t, cfg, c)
  {
    ReadyMigrationsStay(w.store, t.store, cfg.namespace, w.proj.value.spec.databaseRef);
    hide ResolveRef, MigrationsReady, Valid;
  }

  /** In or at the end of the sync stages of a pass from `w0`: what was logged is justified by `c`. */
  ghost predicate Ends(w0: World, w: World, cfg: Config, c: Conn, carries: bool) {
    && w0.proj.Some? && w.proj.Some? && Prepared(w, cfg, c) && Valid(w.store) && w.proj.value.spec == w0.proj.value.spec
    && Grows(w0, w) && LastWrite(w0, w)
    && forall i :: |w0.log| <= i < |w.log| && SaysReady(w.log[i]) ==> Justifies(w0, cfg, c, carries, w.log[i].status)
  }

  /** In the middle: `p` is the object in memory, and it is the stored one. */
  ghost predicate Mid(w0: World, w: World, cfg: Config, p: CR, c: Conn, carries: bool) {
    && Ends(w0, w, cfg, c, carries) && w.proj == Some(p)
    && p.status.conditions == w0.proj.value.status.conditions
  }

  /** A status write: its Ready, if it says so, must be justified. */
  lemma WriteEnds(w0: World, w: World, cfg: Config, p: CR, q: CR, c: Conn, carries: bool)
    requires Mid(w0, w, cfg, p, c, carries) && q == p.(status := q.status)
    requires IsTrue(q.status.conditions, READY) ==> Justifies(w0, cfg, c, carries, q.status)
    ensures var t := StoreStatus(w, q);
      && Ends(w0, t, cfg, c, carries) && t.proj == Some(q) && t.store == w.store && Grows(w, t)
      && (q.status != p.status ==> t.log == w.log + [Stored(q.status)])
  {
    var t := StoreStatus(w, q);
    hide Justifies, IsTrue;
    assert Prepared(t, cfg, c) by {
      hide MigrationsReady, HoldsKeys, PasswordAt, Valid, ResolveRef;
    }
    hide Prepared, Valid;
    assert t.log == w.log || t.log == w.log + [Stored(q.status)];
    forall i | |w0.log| <= i < |t.log| && SaysReady(t.log[i]) ensures Justifies(w0, cfg, c, carries, t.log[i].status) {
      if i < |w.log| {
        assert t.log[i] == w.log[i];
      }
    }
  }

  lemma MarkEnds(w0: World, w: World, cfg: Config, c: Conn, carries: bool, at: int)
    requires Ends(w0, w, cfg, c, carries)
    ensures Ends(w0, w.(passwordAt := at), cfg, c, carries)
  {
    hide MigrationsReady, HoldsKeys, PasswordAt, Valid, ResolveRef, Justifies, IsTrue;
  }

  lemma ReportEnds(w0: World, w: World, cfg: Config, luck: Luck, p: CR, c: Conn, carries: bool, reason: string)
    requires Mid(w0, w, cfg, p, c, carries)
    ensures var t := Report(w, luck, p, reason);
      Ends(w0, t, cfg, c, carries) && Grows(w, t) && t.proj.Some? && StatusKept(w, t)
      && (luck.fate(StoreReport).Fine? ==> !IsReady(t))
  {
    NotReadyNow(p, false, reason);
    hide SetCondition, Ends, Justifies, IsTrue, StoreStatus;
    WriteEnds(w0, w, cfg, p, SetReady(p, false, reason), c, carries);
  }

  /** Both hashes are what they were. */
  predicate StatusKept(w: World, t: World) {
    && w.proj.Some? && t.proj.Some?
    && t.proj.value.status.jwtSyncHash == w.proj.value.status.jwtSyncHash
    && t.proj.value.status.passwordSyncHash == w.proj.value.status.passwordSyncHash
  }

  /** The write that stores a sync hash. Only that of the JWTSyncHash can carry over a stale PasswordSyncHash. */
  lemma StoreHashEnds(w0: World, w: World, cfg: Config, luck: Luck, p: CR, c: Conn, carries: bool, sync: Sync)
    requires Mid(w0, w, cfg, p, c, carries) && Staged(w0, cfg, p, c, sync)
    requires carries || sync.Password? || HashOf(cfg, Password, c) == p.status.passwordSyncHash
             || luck.fate(StoreHash(sync)).Lost?
    requires StatusHash(sync, p) != HashOf(cfg, sync, c)
    ensures var q := WithHash(sync, p, HashOf(cfg, sync, c));
      var t := StoreSyncHash(w, luck, q, sync);
      && Ends(w0, t, cfg, c, carries) && t.store == w.store && Grows(w, t)
      && if luck.fate(StoreHash(sync)).Lost? then t == w
         else Mid(w0, t, cfg, q, c, carries) && t.log == w.log + [Stored(q.status)]
  {
    var q := WithHash(sync, p, HashOf(cfg, sync, c));
    hide HashOf, Prepared, IsTrue, StoreStatus, Valid;
    if !luck.fate(StoreHash(sync)).Lost? {
      WriteEnds(w0, w, cfg, p, q, c, carries);
      MarkEnds(w0, StoreStatus(w, q), cfg, c, carries, |w.observed| - 1);
    }
  }

  /** What the earlier stages have left in the object in memory. */
  predicate Staged(w0: World, cfg: Config, p: CR, c: Conn, sync: Sync) {
    && w0.proj.Some?
    && if sync.Jwt? then p.status.passwordSyncHash == w0.proj.value.status.passwordSyncHash
       else p.status.jwtSyncHash == HashOf(cfg, Jwt, c)
  }

  /** The stage ensures its Job, sees it succeeded without failures, and its hash write is carried out. */
  predicate StageWrites(w: World, cfg: Config, luck: Luck, p: CR, c: Conn, sync: Sync) {
    var (v, ensured) := EnsureAt(w, cfg, luck, EnsureJob(sync), JobCall(cfg, p, sync, c));
    && HashOf(cfg, sync, c) != StatusHash(sync, p)
    && ensured.Proceed? && luck.fate(GetJob(sync)).Fine? && CleanJob(v.store, JobKey(cfg, sync))
    && !luck.fate(StoreHash(sync)).Lost?
  }

  /** How a stage ends. `go` means its hash is current, and without failing calls not to go means to say not ready. */
  ghost predicate StageEnds(w0: World, w: World, t: World, cfg: Config, luck: Luck, p: CR, q: CR, c: Conn, go: bool,
                            carries: bool, sync: Sync)
  {
    && Ends(w0, t, cfg, c, carries) && Grows(w, t)
    && (go ==> Mid(w0, t, cfg, q, c, carries) && q == WithHash(sync, p, HashOf(cfg, sync, c)))
    && (AllFine(luck) && !go ==> !IsReady(t) && StatusKept(w, t) && HashOf(cfg, sync, c) != StatusHash(sync, p))
  }

  lemma CleanEnds(w0: World, w: World, cfg: Config, luck: Luck, p: CR, c: Conn, carries: bool, sync: Sync)
    requires Mid(w0, w, cfg, p, c, carries) && Staged(w0, cfg, p, c, sync)
    requires StatusHash(sync, p) != HashOf(cfg, sync, c)
    requires luck.fate(GetJob(sync)).Fine? && CleanJob(w.store, JobKey(cfg, sync))
    requires carries || sync.Password? || HashOf(cfg, Password, c) == p.status.passwordSyncHash
             || luck.fate(StoreHash(sync)).Lost?
    ensures var (t, q, go) := AwaitJob(w, cfg, luck, p, c, sync);
      StageEnds(w0, w, t, cfg, luck, p, q, c, go, carries, sync)
      && (!luck.fate(StoreHash(sync)).Lost? ==> t.log == w.log + [Stored(WithHash(sync, p, HashOf(cfg, sync, c)).status)])
  {
    hide HashOf, Report, Ends, StoreSyncHash, IsReady, Reason, StatusHash, Staged, JobKey, WithHash, Grows;
    StoreHashEnds(w0, w, cfg, luck, p, c, carries, sync);
  }

  lemma UncleanEnds(w0: World, w: World, cfg: Config, luck: Luck, p: CR, c: Conn, carries: bool, sync: Sync)
    requires Mid(w0, w, cfg, p, c, carries) && StatusHash(sync, p) != HashOf(cfg, sync, c)
    requires AllFine(luck) ==> JobKey(cfg, sync) in w.store.objects && w.store.objects[JobKey(cfg, sync)].body.Job?
    requires !luck.fate(GetJob(sync)).Fine? || !CleanJob(w.store, JobKey(cfg, sync))
    ensures var (t, q, go) := AwaitJob(w, cfg, luck, p, c, sync);
      StageEnds(w0, w, t, cfg, luck, p, q, c, go, carries, sync)
  {
    hide HashOf, Report, Ends, StoreSyncHash, IsReady, Reason, StatusHash, JobKey, WithHash;
    ReportEnds(w0, w, cfg, luck, p, c, carries, Reason(sync, "Failed"));
    ReportEnds(w0, w, cfg, luck, p, c, carries, Reason(sync, "InProgress"));
  }

  lemma AwaitEnds(w0: World, w: World, cfg: Config, luck: Luck, p: CR, c: Conn, carries: bool, sync: Sync)
    requires Mid(w0, w, cfg, p, c, carries) && Staged(w0, cfg, p, c, sync)
    requires StatusHash(sync, p) != HashOf(cfg, sync, c)
    requires AllFine(luck) ==> JobKey(cfg, sync) in w.store.objects && w.store.objects[JobKey(cfg, sync)].body.Job?
    requires luck.fate(GetJob(sync)).Fine? && CleanJob(w.store, JobKey(cfg, sync)) ==>
               carries || sync.Password? || HashOf(cfg, Password, c) == p.status.passwordSyncHash
               || luck.fate(StoreHash(sync)).Lost?
    ensures var (t, q, go) := AwaitJob(w, cfg, luck, p, c, sync);
      StageEnds(w0, w, t, cfg, luck, p, q, c, go, carries, sync)
      && (luck.fate(GetJob(sync)).Fine? && CleanJob(w.store, JobKey(cfg, sync)) && !luck.fate(StoreHash(sync)).Lost? ==>
            t.log == w.log + [Stored(WithHash(sync, p, HashOf(cfg, sync, c)).status)])
  {
    hide HashOf, Ends, StoreSyncHash, IsReady, StatusHash, Staged, JobKey, WithHash, StageEnds, Mid, AwaitJob;
    if luck.fate(GetJob(sync)).Fine? && CleanJob(w.store, JobKey(cfg, sync)) {
      CleanEnds(w0, w, cfg, luck, p, c, carries, sync);
    } else {
      UncleanEnds(w0, w, cfg, luck, p, c, carries, sync);
    }
  }

  lemma EnsuredEnds(w0: World, w: World, w1: World, cfg: Config, p: CR, c: Conn, carries: bool, sync: Sync)
    requires Mid(w0, w, cfg, p, c, carries) && w1 == w.(store := w1.store)
    requires Untouched(w.store, w1.store, JobKey(cfg, sync)) && Valid(w1.store)
    ensures Mid(w0, w1, cfg, p, c, carries)
  {
    PreparedStays(w, w1, cfg, c, sync);
    hide Prepared, Justifies, IsTrue, Valid, Untouched;
  }

  lemma StageSkipped(w0: World, w: World, cfg: Config, luck: Luck, p: CR, c: Conn, carries: bool, sync: Sync)
    requires Mid(w0, w, cfg, p, c, carries) && HashOf(cfg, sync, c) == StatusHash(sync, p)
    ensures StageEnds(w0, w, w, cfg, luck, p, p, c, true, carries, sync)
  {
    hide Ends, HashOf;
  }

  lemma StageAfter(w0: World, w: World, w1: World, t: World, cfg: Config, luck: Luck, p: CR, q: CR, c: Conn, go: bool,
                   carries: bool, sync: Sync)
    requires StageEnds(w0, w1, t, cfg, luck, p, q, c, go, carries, sync) && w1 == w.(store := w1.store)
    ensures StageEnds(w0, w, t, cfg, luck, p, q, c, go, carries, sync)
  {
    hide Ends, HashOf, IsReady;
  }

  /** The Job a stage has ensured. */
  lemma StageEnsures(w: World, cfg: Config, luck: Luck, p: CR, c: Conn, sync: Sync)
    requires Valid(w.store) && Faithful(cfg.server)
    ensures var (v, ensured) := EnsureAt(w, cfg, luck, EnsureJob(sync), JobCall(cfg, p, sync, c));
      && v == w.(store := v.store) && Valid(v.store) && Untouched(w.store, v.store, JobKey(cfg, sync))
      && (ensured.Proceed? ==> JobKey(cfg, sync) in v.store.objects && v.store.objects[JobKey(cfg, sync)].body.Job?)
      && (ensured.Ends? ==> luck.fate(EnsureJob(sync)).Dies?)
  {
    hide JobCall, Faithful, EnsureNow, Untouched, JobWritten, Env, JobKey, KeepsKind;
    FaithfulKind(cfg.server);
    JobCallBody(cfg, p, sync, c);
    var call := JobCall(cfg, p, sync, c);
    EnsureAtFrame(w, cfg, luck, EnsureJob(sync), call);
    EnsuredJob(w.store, cfg.server, call);
    KindAt(EnsureAt(w, cfg, luck, EnsureJob(sync), call).0.store, JobKey(cfg, sync));
    hide Valid;
  }

  lemma KindAt(s: Store, k: Key)
    requires Valid(s)
    ensures k in s.objects ==> KindOf(s.objects[k].body) == k.kind
  {
  }

  lemma SyncStageEnds(w0: World, w: World, cfg: Config, luck: Luck, p: CR, c: Conn, carries: bool, sync: Sync)
    requires Mid(w0, w, cfg, p, c, carries) && Faithful(cfg.server) && Staged(w0, cfg, p, c, sync)
    requires StageWrites(w, cfg, luck, p, c, sync) ==>
               carries || sync.Password? || HashOf(cfg, Password, c) == p.status.passwordSyncHash
    ensures var (t, q, go) := SyncStage(w, cfg, luck, p, c, sync);
      StageEnds(w0, w, t, cfg, luck, p, q, c, go, carries, sync)
      && (StageWrites(w, cfg, luck, p, c, sync) ==>
            t.log == w.log + [Stored(WithHash(sync, p, HashOf(cfg, sync, c)).status)])
  {
    hide HashOf, Report, AwaitJob, EnsureAt, JobCall, Faithful, Untouched, Reason, StatusHash, StageEnds, Prepared, IsReady, Valid,
      Justifies, SaysReady, LastWrite, CleanJob, Staged;
    if HashOf(cfg, sync, c) == StatusHash(sync, p) {
      StageSkipped(w0, w, cfg, luck, p, c, carries, sync);
    } else {
      StageEnsures(w, cfg, luck, p, c, sync);
      var (w1, ensured) := EnsureAt(w, cfg, luck, EnsureJob(sync), JobCall(cfg, p, sync, c));
      EnsuredEnds(w0, w, w1, cfg, p, c, carries, sync);
      var (t, q, go) := SyncStage(w, cfg, luck, p, c, sync);
      if ensured.Proceed? {
        AwaitEnds(w0, w1, cfg, luck, p, c, carries, sync);
      } else {
        StageFails(w0, w1, cfg, luck, p, c, carries, sync, ensured);
      }
      StageAfter(w0, w, w1, t, cfg, luck, p, q, c, go, carries, sync);
    }
  }

  lemma StageFails(w0: World, w: World, cfg: Config, luck: Luck, p: CR, c: Conn, carries: bool, sync: Sync,
                   ensured: Project.Outcome)
    requires Mid(w0, w, cfg, p, c, carries) && !ensured.Proceed? && HashOf(cfg, sync, c) != StatusHash(sync, p)
    requires ensured.Ends? ==> luck.fate(EnsureJob(sync)).Dies?
    ensures var t := if ensured.Ends? then w else Report(w, luck, p, Reason(sync, "Failed"));
      StageEnds(w0, w, t, cfg, luck, p, p, c, false, carries, sync)
  {
    ReportEnds(w0, w, cfg, luck, p, c, carries, Reason(sync, "Failed"));
    hide HashOf, Report, Ends, IsReady, StatusHash;
  }

  // ---- a whole pass ----

  lemma ObservedEnds(w0: World, w: World, cfg: Config, p: CR, c: Conn, carries: bool)
    requires w0.proj == Some(p) && w == w0.(store := w.store) && Prepared(w, cfg, c) && Valid(w.store)
    ensures Mid(w0, w.(observed := w.observed + [c]), cfg, p, c, carries)
  {
    hide MigrationsReady, HoldsKeys, PasswordAt, Valid, ResolveRef, Justifies, IsTrue;
  }

  lemma ReadyEnds(w0: World, w: World, cfg: Config, p: CR, c: Conn, carries: bool)
    requires Mid(w0, w, cfg, p, c, carries) && HashesOf(p.status, cfg, c)
    ensures var t := StoreStatus(w, SetReady(p, true, "ReconcileSucceeded"));
      Ends(w0, t, cfg, c, carries) && Grows(w, t) && t.proj.Some? && HashesOf(t.proj.value.status, cfg, c) && IsReady(t)
  {
    NotReadyNow(p, true, "ReconcileSucceeded");
    hide HashOf, Ends, StoreStatus, IsTrue, SetCondition;
    WriteEnds(w0, w, cfg, p, SetReady(p, true, "ReconcileSucceeded"), c, carries);
  }

  /** The pass can carry Ready over past a stale PasswordSyncHash. */
  predicate CarriesPast(w: World, cfg: Config, luck: Luck, p: CR, c: Conn) {
    HashOf(cfg, Password, c) != p.status.passwordSyncHash && StageWrites(w, cfg, luck, p, c, Jwt)
  }

  /** The event with which the JWT stage stores its hash. */
  function HashEvent(cfg: Config, p: CR, c: Conn): Event { Stored(WithHash(Jwt, p, HashOf(cfg, Jwt, c)).status) }

  lemma JwtStageEnds(w0: World, w: World, cfg: Config, luck: Luck, p: CR, c: Conn)
    requires w0.proj == Some(p) && w == w0.(store := w.store) && Prepared(w, cfg, c) && Valid(w.store) && Faithful(cfg.server)
    ensures var v := w.(observed := w.observed + [c]);
      var (t, q, go) := SyncStage(v, cfg, luck, p, c, Jwt);
      StageEnds(w0, v, t, cfg, luck, p, q, c, go, CarriesPast(w, cfg, luck, p, c), Jwt)
      && (StageWrites(w, cfg, luck, p, c, Jwt) ==> t.log == w.log + [HashEvent(cfg, p, c)])
  {
    hide HashOf, EnsureNow, JobCall, SyncStage, Prepared, Faithful, StageEnds, CleanJob, Valid, WithHash;
    var v, carries := w.(observed := w.observed + [c]), CarriesPast(w, cfg, luck, p, c);
    ObservedEnds(w0, w, cfg, p, c, carries);
    assert StageWrites(v, cfg, luck, p, c, Jwt) == StageWrites(w, cfg, luck, p, c, Jwt);
    hide StageWrites, Mid;
    SyncStageEnds(w0, v, cfg, luck, p, c, carries, Jwt);
  }

  lemma PasswordStageEnds(w0: World, w: World, cfg: Config, luck: Luck, p: CR, c: Conn, carries: bool)
    requires Mid(w0, w, cfg, p, c, carries) && p.status.jwtSyncHash == HashOf(cfg, Jwt, c) && Faithful(cfg.server)
    ensures var (v, q, go) := SyncStage(w, cfg, luck, p, c, Password);
      var t := if !go || luck.fate(StoreReady).Lost? then v else StoreStatus(v, SetReady(q, true, "ReconcileSucceeded"));
      && Ends(w0, t, cfg, c, carries) && Grows(w, t) && t.proj.Some?
      && (AllFine(luck) ==> (IsReady(t) <==> HashesOf(t.proj.value.status, cfg, c)))
  {
    hide SyncStage, HashOf, Faithful, Prepared, IsReady, SetReady, StoreStatus, Justifies, SaysReady, Valid, LastWrite, StageWrites;
    SyncStageEnds(w0, w, cfg, luck, p, c, carries, Password);
    var (v, q, go) := SyncStage(w, cfg, luck, p, c, Password);
    if go {
      hide Grows;
      assert HashesOf(q.status, cfg, c);
      ReadyEnds(w0, v, cfg, q, c, carries);
      GrowsOn(w, v, StoreStatus(v, SetReady(q, true, "ReconcileSucceeded")));
    }
  }

  lemma GrowsOn(u: World, v: World, w: World)
    requires Grows(u, v) && Grows(v, w)
    ensures Grows(u, w)
    ensures forall i :: 0 <= i < |v.log| ==> w.log[i] == v.log[i]
  {
    assert forall i :: 0 <= i < |v.log| ==> w.log[..|v.log|][i] == w.log[i];
  }

  lemma SyncPartEnds(w0: World, w: World, cfg: Config, luck: Luck, p: CR, c: Conn)
    requires w0.proj == Some(p) && w == w0.(store := w.store) && Prepared(w, cfg, c) && Valid(w.store) && Faithful(cfg.server)
    ensures var t := SyncPart(w, cfg, luck, p, c);
      && Ends(w0, t, cfg, c, CarriesPast(w, cfg, luck, p, c)) && t.proj.Some?
      && (StageWrites(w, cfg, luck, p, c, Jwt) ==> |w.log| < |t.log| && t.log[|w.log|] == HashEvent(cfg, p, c))
      && (AllFine(luck) ==> (IsReady(t) <==> HashesOf(t.proj.value.status, cfg, c)))
  {
    var v, carries := w.(observed := w.observed + [c]), CarriesPast(w, cfg, luck, p, c);
    hide SyncStage, HashOf, Faithful, Prepared, CarriesPast, StageWrites, IsReady, SetReady, StoreStatus, Justifies, SaysReady, Valid,
      LastWrite, HashEvent, Ends, Grows;
    JwtStageEnds(w0, w, cfg, luck, p, c);
    var (w1, p1, go1) := SyncStage(v, cfg, luck, p, c, Jwt);
    if go1 {
      assert p1.status.jwtSyncHash == HashOf(cfg, Jwt, c);
      PasswordStageEnds(w0, w1, cfg, luck, p1, c, carries);
      GrowsOn(w1, w1, SyncPart(w, cfg, luck, p, c));
    } else {
      SomeProj(w0, w1, cfg, c, carries);
    }
  }

  lemma SomeProj(w0: World, w: World, cfg: Config, c: Conn, carries: bool)
    requires Ends(w0, w, cfg, c, carries)
    ensures w.proj.Some?
  {
  }

  /**
   Ready stands for all gates. Whatever the world and whatever goes wrong: behind every
   Ready=True that a pass writes the database is ready and resolved, every Migration with
   its reference is Ready, both Secrets hold all their keys, and the JWTSyncHash is that
   of the data that is there. So is the PasswordSyncHash, unless it is the one the pass
   found, together with Ready.
   */
  lemma ReadyOnlyBehindGates(w: World, cfg: Config, luck: Luck)
    requires Valid(w.store) && Faithful(cfg.server)
    ensures PassEnds(w, Pass(w, cfg, luck), cfg)
  {
    if w.proj.Some? {
      PreparePrepares(w, cfg, luck);
      var (v, c) := Prepare(w, cfg, luck);
      hide Prepare, SyncPart, Prepared, Faithful, HashOf, Reported, PassEnds, CarriesPast, IsTrue, Valid;
      if c.Some? {
        SyncPartEnds(w, v, cfg, luck, w.proj.value, c.value);
        EndsPass(w, Pass(w, cfg, luck), cfg, c.value, CarriesPast(v, cfg, luck, w.proj.value, c.value));
      } else {
        ReportedEnds(w, v, cfg, luck);
      }
    }
  }

  lemma EndsPass(w: World, t: World, cfg: Config, c: Conn, carries: bool)
    requires Ends(w, t, cfg, c, carries)
    ensures PassEnds(w, t, cfg)
  {
    hide Prepared, HashOf, CarriesOver;
  }

  /** So a Project that was not Ready becomes Ready only behind all gates. */
  lemma BecomesReadyBehindGates(w: World, cfg: Config, luck: Luck)
    requires Valid(w.store) && Faithful(cfg.server) && w.proj.Some? && !IsReady(w) && IsReady(Pass(w, cfg, luck))
    ensures Gates(Pass(w, cfg, luck), cfg)
  {
    ReadyOnlyBehindGates(w, cfg, luck);
    hide Pass, Prepared, HashOf, IsTrue, ConnOf;
    LastReady(w, Pass(w, cfg, luck), cfg);
  }

  lemma LastReady(w: World, t: World, cfg: Config)
    requires PassEnds(w, t, cfg) && w.proj.Some? && !IsReady(w) && IsReady(t)
    ensures Gates(t, cfg)
  {
    hide Prepared, HashOf, IsTrue, ConnOf;
    assert SaysReady(t.log[|t.log| - 1]);
    var c :| Prepared(t, cfg, c) && Justifies(w, cfg, c, true, t.proj.value.status);
    InForce(t, cfg, c);
  }

  lemma InForce(t: World, cfg: Config, c: Conn)
    requires Prepared(t, cfg, c)
    ensures t.proj.Some? && ConnOf(t, cfg) == Some(c)
  {
  }

  // ---- the write that is off the gates ----

  /** A status written while the Project and the data were as in `t`: all gates, both hashes included. */
  predicate OnGates(t: World, cfg: Config, status: ProjectStatus) {
    && t.proj.Some? && ConnOf(t, cfg).Some?
    && Prepared(t, cfg, ConnOf(t, cfg).value) && HashesOf(status, cfg, ConnOf(t, cfg).value)
  }

  /**
   Ready and both hashes are left over from before, the hashes of other data; and the pass
   gets to the JWT Job, ensures it, finds it succeeded without failures, and its write of
   the JWTSyncHash is carried out.
   */
  predicate CarriesReady(w: World, cfg: Config, luck: Luck) {
    && IsReady(w)
    && var (v, c) := Prepare(w, cfg, luck);
    && c.Some? && CarriesPast(v, cfg, luck, w.proj.value, c.value)
  }

  /** What the hashes are computed from is the data that was in force before the pass, if there was any. */
  lemma PreparesInForce(w: World, cfg: Config, luck: Luck)
    requires Valid(w.store) && Faithful(cfg.server) && ConnOf(w, cfg).Some?
    ensures Prepare(w, cfg, luck).1.Some? ==> Prepare(w, cfg, luck).1 == ConnOf(w, cfg)
  {
    PreparePrepares(w, cfg, luck);
    hide Prepare, MigrationsReady, HoldsKeys, PasswordAt, ResolveRef, Faithful, Valid;
  }

  /**
   Exactly then is Ready=True stored with a gate missing: what is missing is the
   PasswordSyncHash, and the next stage of the same pass is the one to bring it.
   */
  lemma ReadyOffGates(w: World, cfg: Config, luck: Luck)
    requires Valid(w.store) && Faithful(cfg.server)
    ensures var t := Pass(w, cfg, luck);
      && |w.log| <= |t.log|
      && ((exists i :: |w.log| <= i < |t.log| && SaysReady(t.log[i]) && !OnGates(t, cfg, t.log[i].status))
          <==> CarriesReady(w, cfg, luck))
  {
    if w.proj.Some? {
      PreparePrepares(w, cfg, luck);
      var (v, c) := Prepare(w, cfg, luck);
      hide Prepare, SyncPart, Prepared, Faithful, HashOf, Reported, CarriesPast, IsTrue, Valid, ConnOf, OnGates;
      if c.Some? {
        SyncPartOffGates(w, v, cfg, luck, w.proj.value, c.value);
      } else {
        ReportedEnds(w, v, cfg, luck);
        ReportedSilent(w, v, luck);
      }
    }
  }

  lemma ReportedSilent(w: World, v: World, luck: Luck)
    requires w.proj.Some? && Reported(w, v, luck)
    ensures |w.log| <= |v.log| && forall i :: |w.log| <= i < |v.log| ==> !SaysReady(v.log[i])
    ensures AllFine(luck) ==> !IsReady(v)
  {
    hide IsTrue, SetReady;
    if v != w.(store := v.store) || AllFine(luck) {
      var reason :| v == Report(w.(store := v.store), luck, w.proj.value, reason);
      NotReadyNow(w.proj.value, false, reason);
    }
  }

  lemma SyncPartOffGates(w: World, v: World, cfg: Config, luck: Luck, p: CR, c: Conn)
    requires w.proj == Some(p) && v == w.(store := v.store) && Prepared(v, cfg, c) && Valid(v.store) && Faithful(cfg.server)
    ensures var t := SyncPart(v, cfg, luck, p, c);
      && |w.log| <= |t.log|
      && ((exists i :: |w.log| <= i < |t.log| && SaysReady(t.log[i]) && !OnGates(t, cfg, t.log[i].status))
          <==> IsReady(w) && CarriesPast(v, cfg, luck, p, c))
  {
    var t, carries := SyncPart(v, cfg, luck, p, c), CarriesPast(v, cfg, luck, p, c);
    SyncPartEnds(w, v, cfg, luck, p, c);
    InForce(t, cfg, c);
    hide SyncPart, Prepared, Faithful, HashOf, IsTrue, Valid, ConnOf, StageWrites;
    forall i | |w.log| <= i < |t.log| && SaysReady(t.log[i])
      ensures !OnGates(t, cfg, t.log[i].status) ==> IsReady(w) && carries
    {
      assert Justifies(w, cfg, c, carries, t.log[i].status);
    }
    if IsReady(w) && carries {
      assert SaysReady(t.log[|w.log|]) && !OnGates(t, cfg, t.log[|w.log|].status);
    }
  }

  // ---- when a pass is Ready ----

  /** The Migration and both Secrets get ensured. */
  predicate ChildrenOk(w: World, cfg: Config, luck: Luck)
    requires w.proj.Some?
  {
    var p := w.proj.value;
    var (w1, migration) := MigrationAt(w, cfg, luck, p);
    var (w2, jwt) := EnsureAt(w1, cfg, luck, EnsureJWTSecret, SecretCall(cfg, p, "-jwt", JWT_KEYS, luck.generated));
    var (_, keys) := EnsureAt(w2, cfg, luck, EnsureKeysSecret, SecretCall(cfg, p, "-keys", KEYS_KEYS, luck.generated));
    migration.Proceed? && jwt.Proceed? && keys.Proceed?
  }

  lemma ReachedChildren(w: World, cfg: Config, luck: Luck)
    requires w.proj.Some? && Prepare(w, cfg, luck).1.Some?
    ensures ChildrenOk(w, cfg, luck)
  {
    hide EnsureAt, SecretCall, MigrationAt, Report, MigrationsReady, PasswordPart, ResolveRef;
    var p := w.proj.value;
    var (w1, migration) := MigrationAt(w, cfg, luck, p);
    var (w2, jwt) := EnsureAt(w1, cfg, luck, EnsureJWTSecret, SecretCall(cfg, p, "-jwt", JWT_KEYS, luck.generated));
    var (_, keys) := EnsureAt(w2, cfg, luck, EnsureKeysSecret, SecretCall(cfg, p, "-keys", KEYS_KEYS, luck.generated));
    assert migration.Proceed? && jwt.Proceed? && keys.Proceed?;
  }

  lemma ReportKeeps(w: World, luck: Luck, p: CR, reason: string, cfg: Config)
    requires w.proj == Some(p)
    ensures var t := Report(w, luck, p, reason);
      t.store == w.store && t.databases == w.databases && t.proj.Some? && t.proj.value.spec == p.spec
      && ConnOf(t, cfg) == ConnOf(w, cfg)
  {
    hide PasswordAt, SetCondition;
  }

  /** With the Secrets ensured and nothing failing, only a missing password keeps a pass from the hashes. */
  lemma PasswordMissing(w: World, cfg: Config, luck: Luck, p: CR, db: Resolved)
    requires w.proj == Some(p) && AllFine(luck) && SecretsPart(w, cfg, luck, p, db).1.None?
    requires ResolveRef(w.databases, p.spec.databaseRef) == Ready(db) && Valid(w.store) && Faithful(cfg.server)
    requires var (w1, jwt) := EnsureAt(w, cfg, luck, EnsureJWTSecret, SecretCall(cfg, p, "-jwt", JWT_KEYS, luck.generated));
      var (_, keys) := EnsureAt(w1, cfg, luck, EnsureKeysSecret, SecretCall(cfg, p, "-keys", KEYS_KEYS, luck.generated));
      jwt.Proceed? && keys.Proceed?
    ensures ConnOf(SecretsPart(w, cfg, luck, p, db).0, cfg).None?
  {
    hide EnsureAt, SecretCall, Report, Faithful, Valid, PasswordAt, Untouched, HoldsKeys, PasswordsKept;
    SecretAtFrame(w, cfg, luck, EnsureJWTSecret, p, "-jwt", JWT_KEYS);
    var w1 := EnsureAt(w, cfg, luck, EnsureJWTSecret, SecretCall(cfg, p, "-jwt", JWT_KEYS, luck.generated)).0;
    SecretAtFrame(w1, cfg, luck, EnsureKeysSecret, p, "-keys", KEYS_KEYS);
    var w2 := EnsureAt(w1, cfg, luck, EnsureKeysSecret, SecretCall(cfg, p, "-keys", KEYS_KEYS, luck.generated)).0;
    ReportKeeps(w2, luck, p, "DBPasswordValueFailed", cfg);
  }

  /** With the children ensured and nothing failing, only a missing gate keeps a pass from the hashes. */
  lemma GatesReached(w: World, cfg: Config, luck: Luck)
    requires w.proj.Some? && AllFine(luck) && ChildrenOk(w, cfg, luck) && Prepare(w, cfg, luck).1.None?
    requires Valid(w.store) && Faithful(cfg.server)
    ensures !Gates(Prepare(w, cfg, luck).0, cfg)
  {
    var p := w.proj.value;
    FaithfulKind(cfg.server);
    hide EnsureAt, SecretCall, MigrationAt, Report, MigrationsReady, Faithful, Valid, Untouched, HoldsKeys, KeepsKind,
      HashesOf, ResolveRef, SecretsPart, ConnOf;
    MigrationAtFrame(w, cfg, luck, p);
    var w1 := MigrationAt(w, cfg, luck, p).0;
    ReportKeeps(w, luck, p, "DatabaseResolutionFailed", cfg);
    ReportKeeps(w, luck, p, "DatabaseNotReady", cfg);
    ReportKeeps(w1, luck, p, "MigrationsNotReady", cfg);
    var r := ResolveRef(w.databases, p.spec.databaseRef);
    if r.Ready? && MigrationsReady(w1.store, cfg.namespace, p.spec.databaseRef) {
      PasswordMissing(w1, cfg, luck, p, r.db);
    }
  }

  /**
   The exact condition. A pass with no failing call leaves the Project Ready if and only
   if the Migration and both Secrets got ensured and all gates hold when it ends.
   */
  lemma ReadyIffGates(w: World, cfg: Config, luck: Luck)
    requires Valid(w.store) && Faithful(cfg.server) && w.proj.Some? && AllFine(luck)
    ensures IsReady(Pass(w, cfg, luck)) <==> ChildrenOk(w, cfg, luck) && Gates(Pass(w, cfg, luck), cfg)
  {
    PreparePrepares(w, cfg, luck);
    var (v, c) := Prepare(w, cfg, luck);
    if c.Some? {
      ReachedChildren(w, cfg, luck);
      hide Prepare, SyncPart, Prepared, Faithful, HashOf, IsTrue, Valid, ConnOf, ChildrenOk, CarriesPast, StageWrites;
      SyncPartEnds(w, v, cfg, luck, w.proj.value, c.value);
      InForce(Pass(w, cfg, luck), cfg, c.value);
    } else {
      hide Prepare, SyncPart, Prepared, Faithful, HashOf, IsTrue, Valid, ConnOf, ChildrenOk, Gates, Reported;
      ReportedSilent(w, v, luck);
      if ChildrenOk(w, cfg, luck) {
        GatesReached(w, cfg, luck);
      }
    }
  }

  // ---- a pass that finds its children as they should be ----

  /** No call fails, and the Migration and both Secrets are there and the Project's own. */
  ghost predicate Settled(w: World, cfg: Config, luck: Luck) {
    && AllFine(luck) && w.proj.Some? && MigrationAt(w, cfg, luck, w.proj.value) == (w, Proceed)
    && (forall suffix | suffix in ["-jwt", "-keys"] ::
          && SecretKey(cfg, suffix) in w.store.objects
          && IsControlledBy(w.store.objects[SecretKey(cfg, suffix)], OwnerOf(cfg, w.proj.value).value))
  }

  lemma SecretHeldAt(w: World, cfg: Config, luck: Luck, at: Point, p: CR, suffix: string, keys: seq<string>)
    requires Valid(w.store) && HoldsKeys(w.store, SecretKey(cfg, suffix), keys) && AllFine(luck)
    requires IsControlledBy(w.store.objects[SecretKey(cfg, suffix)], OwnerOf(cfg, p).value)
    ensures EnsureAt(w, cfg, luck, at, SecretCall(cfg, p, suffix, keys, luck.generated)) == (w, Proceed)
  {
    HeldSecretUnchanged(w.store, cfg, p, suffix, keys, luck.generated);
    hide EnsureNow, SecretCall, HoldsKeys, Valid;
    assert w.(store := w.store) == w;
  }

  lemma SettledPrepares(w: World, cfg: Config, luck: Luck, c: Conn)
    requires Valid(w.store) && Prepared(w, cfg, c) && Settled(w, cfg, luck)
    ensures Prepare(w, cfg, luck) == (w, Some(c))
  {
    var p := w.proj.value;
    assert "-jwt" in ["-jwt", "-keys"] && "-keys" in ["-jwt", "-keys"];
    SecretHeldAt(w, cfg, luck, EnsureJWTSecret, p, "-jwt", JWT_KEYS);
    SecretHeldAt(w, cfg, luck, EnsureKeysSecret, p, "-keys", KEYS_KEYS);
    hide EnsureAt, SecretCall, MigrationAt, Report, MigrationsReady, Valid, HoldsKeys, PasswordAt, ResolveRef, IsControlledBy;
    assert SecretsPart(w, cfg, luck, p, c.db) == PasswordPart(w, cfg, luck, p, c.db) by {
      hide PasswordPart;
    }
    assert PasswordPart(w, cfg, luck, p, c.db) == (w, Some(c));
    hide SecretsPart;
  }

  /** When all gates hold already, a pass says Ready, writes no child object and keeps both hashes. */
  lemma GatesMakeReady(w: World, cfg: Config, luck: Luck)
    requires Valid(w.store) && Gates(w, cfg) && Settled(w, cfg, luck)
    ensures var t := Pass(w, cfg, luck);
      && t.store == w.store && t.proj == Some(SetReady(w.proj.value, true, "ReconcileSucceeded")) && IsReady(t)
  {
    SettledPrepares(w, cfg, luck, ConnOf(w, cfg).value);
    NotReadyNow(w.proj.value, true, "ReconcileSucceeded");
    hide HashOf, Prepare, Prepared, SetReady, ConnOf, Settled, Valid, EnsureAt, JobCall, AwaitJob, IsTrue;
  }

  /**
   The write off the gates is a real one: a Project that is Ready, with everything settled
   and both hashes of other data, and a JWT Job that ends up succeeded without failures.
   */
  lemma ReadyCarriedOver(w: World, cfg: Config, luck: Luck, c: Conn)
    requires Valid(w.store) && Prepared(w, cfg, c) && Settled(w, cfg, luck) && IsReady(w)
    requires w.proj.value.status.jwtSyncHash != HashOf(cfg, Jwt, c)
    requires w.proj.value.status.passwordSyncHash != HashOf(cfg, Password, c)
    requires var (s, r) := EnsureNow(w.store, cfg.server, JobCall(cfg, w.proj.value, Jwt, c));
      !r.Failed? && CleanJob(s, JobKey(cfg, Jwt))
    ensures CarriesReady(w, cfg, luck)
  {
    SettledPrepares(w, cfg, luck, c);
    hide HashOf, Prepare, Prepared, Valid, EnsureNow, JobCall, CleanJob, IsReady, JobKey, MigrationAt, ConnOf;
    assert StageWrites(w, cfg, luck, w.proj.value, c, Jwt);
    hide StageWrites;
  }

  /**
   The gates alone are not enough: with all of them in place, a first Migration that
   belongs to someone else, though it is Ready, keeps the Project from being Ready.
   */
  lemma ForeignMigrationBlocks(w: World, cfg: Config, luck: Luck)
    requires Valid(w.store) && Gates(w, cfg) && AllFine(luck)
    requires w.proj.value.spec.migrationsEnabled != Some(false) && MigrationKey(cfg) in w.store.objects
    requires !MayWrite(OwnerOf(cfg, w.proj.value).value, w.store.objects[MigrationKey(cfg)])
    ensures var t := Pass(w, cfg, luck);
      Gates(t, cfg) && !IsReady(t)
  {
    var p := w.proj.value;
    ForeignMigrationKept(w.store, cfg, p);
    NotReadyNow(p, false, "MigrationFailed");
    hide MigrationCall, EnsureNow, HashOf, SetCondition, MigrationsReady, HoldsKeys, PasswordAt, IsTrue, SecretsPart;
    assert w.(store := w.store) == w;
    assert Pass(w, cfg, luck) == Report(w, luck, p, "MigrationFailed");
    ReportKeeps(w, luck, p, "MigrationFailed", cfg);
  }

  lemma ForeignMigrationKept(s: Store, cfg: Config, p: CR)
    requires MigrationKey(cfg) in s.objects && !MayWrite(OwnerOf(cfg, p).value, s.objects[MigrationKey(cfg)])
    ensures EnsureNow(s, cfg.server, MigrationCall(cfg, p)).0 == s
    ensures EnsureNow(s, cfg.server, MigrationCall(cfg, p)).1.Failed?
  {
    MigrationCallKey(cfg, p);
    hide Labels;
  }
}
