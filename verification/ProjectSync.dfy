/**
 Where the stored sync hashes come from: in every run in which the data the sync Jobs of
 a Project depend on changes only while it has none, each is the hash of data a Job of
 that name really completed with.
 */
module ProjectSync {
  import opened Wrappers
  import opened Objects
  import opened Store
  import opened Ensure
  import opened Status
  import opened Project
  import Preimage
  import opened ProjectChildren
  import opened ProjectReady

  // ---- what Jobs ran with ----

  /** What a sync Job for `c` must be given: the login, and the expiry or the coordinates of the pooler's database. */
  function Values(sync: Sync, c: Conn): map<string, string> {
    map["PGHOST" := c.db.host, "PGPORT" := Preimage.Itoa(c.db.port), "PGUSER" := c.db.user, "PGPASSWORD" := c.password]
    + match sync
      case Jwt => map["PGDATABASE" := c.db.dbName, "JWT_EXP" := Preimage.Itoa(c.exp)]
      case Password => map["PGDATABASE" := "_supabase", "DB_ADMIN_USER" := c.db.user, "DB_SRV_NAME" := c.db.host,
                           "DB_SRV_PORT" := Preimage.Itoa(c.db.port)]
  }

  /** This very Job completed with the data of `c`, which was in force. */
  ghost predicate RanAs(log: seq<Event>, sync: Sync, incarnation: nat, c: Conn) {
    Completed(sync, incarnation, Values(sync, c), Some(c)) in log
  }

  ghost predicate Ran(log: seq<Event>, sync: Sync, c: Conn) {
    exists incarnation :: RanAs(log, sync, incarnation, c)
  }

  /** The stored hash is that of data a Job of this name completed with. */
  ghost predicate Proven(log: seq<Event>, cfg: Config, sync: Sync, hash: string) {
    exists c :: Ran(log, sync, c) && hash == HashOf(cfg, sync, c)
  }

  // ---- the invariant ----

  /** A sync Job that the Project of this UID controls. */
  predicate OwnJob(w: World, cfg: Config, sync: Sync) {
    && w.proj.Some? && JobKey(cfg, sync) in w.store.objects
    && IsControlledBy(w.store.objects[JobKey(cfg, sync)], OwnerOf(cfg, w.proj.value).value)
  }

  /** A leftover of an earlier Project may have run with anything; the Project's own is for the data in force. */
  ghost predicate JobOk(w: World, cfg: Config, sync: Sync) {
    var k := JobKey(cfg, sync);
    k in w.store.objects ==>
      && w.store.objects[k].body.Job? && OwnerUid(w.store.objects[k]) == ""
      && (ControllerOf(w.store.objects[k].meta.owners).Some? ==> ControllerOf(w.store.objects[k].meta.owners).value.uid in w.uids)
      && (OwnJob(w, cfg, sync) ==>
            && ConnOf(w, cfg).Some?
            && JobEnv(w.store.objects[k].body) == Env(sync, ConnOf(w, cfg).value)
            && (w.store.objects[k].body.jobStatus.succeeded > 0 ==> Ran(w.log, sync, ConnOf(w, cfg).value)))
  }

  ghost predicate HashesOk(log: seq<Event>, cfg: Config, status: ProjectStatus) {
    && (status.jwtSyncHash != "" ==> Proven(log, cfg, Jwt, status.jwtSyncHash))
    && (status.passwordSyncHash != "" ==> Proven(log, cfg, Password, status.passwordSyncHash))
  }

  /** The PasswordSyncHash is of data a pass observed, the JWTSyncHash of the same or later data. */
  ghost predicate InOrder(w: World, cfg: Config, status: ProjectStatus) {
    status.passwordSyncHash != "" ==>
      && 0 <= w.passwordAt < |w.observed|
      && status.passwordSyncHash == HashOf(cfg, Password, w.observed[w.passwordAt])
      && exists j :: w.passwordAt <= j < |w.observed| && status.jwtSyncHash == HashOf(cfg, Jwt, w.observed[j])
  }

  ghost predicate Inv(w: World, cfg: Config) {
    && Valid(w.store) && JobOk(w, cfg, Jwt) && JobOk(w, cfg, Password)
    && (w.proj.Some? ==>
          && w.proj.value.uid in w.uids && w.proj.value.uid != ""
          && HashesOk(w.log, cfg, w.proj.value.status) && InOrder(w, cfg, w.proj.value.status))
  }

  // ---- logs grow ----

  lemma RanStays(w: World, t: World, sync: Sync, c: Conn)
    requires Grows(w, t) && Ran(w.log, sync, c)
    ensures Ran(t.log, sync, c)
  {
    hide Values;
    var incarnation :| RanAs(w.log, sync, incarnation, c);
    var e := Completed(sync, incarnation, Values(sync, c), Some(c));
    assert e in t.log[..|w.log|];
    assert RanAs(t.log, sync, incarnation, c);
  }

  lemma ProvenStays(w: World, t: World, cfg: Config, sync: Sync, hash: string)
    requires Grows(w, t) && Proven(w.log, cfg, sync, hash)
    ensures Proven(t.log, cfg, sync, hash)
  {
    hide HashOf, Ran;
    var c :| Ran(w.log, sync, c) && hash == HashOf(cfg, sync, c);
    RanStays(w, t, sync, c);
  }

  lemma HashesStay(w: World, t: World, cfg: Config, status: ProjectStatus)
    requires Grows(w, t) && HashesOk(w.log, cfg, status)
    ensures HashesOk(t.log, cfg, status)
  {
    hide Proven;
    if status.jwtSyncHash != "" { ProvenStays(w, t, cfg, Jwt, status.jwtSyncHash); }
    if status.passwordSyncHash != "" { ProvenStays(w, t, cfg, Password, status.passwordSyncHash); }
  }

  // ---- changes elsewhere ----

  /**
   `t` has no sync Job that `w` has not, but for being deleted they are the same, and what
   the Project's own depend on is the same too.
   */
  ghost predicate JobsKept(w: World, t: World, cfg: Config) {
    && w.uids <= t.uids
    && forall sync :: JobKey(cfg, sync) in t.store.objects ==>
         && JobKey(cfg, sync) in w.store.objects
         && SameJob(w.store.objects[JobKey(cfg, sync)], t.store.objects[JobKey(cfg, sync)])
         && (OwnJob(t, cfg, sync) ==> OwnJob(w, cfg, sync) && ConnOf(t, cfg) == ConnOf(w, cfg))
  }

  predicate SameJob(a: Object, b: Object) {
    b.body == a.body && b.meta.owners == a.meta.owners && b.meta.annotations == a.meta.annotations
  }

  lemma JobsKeptOk(w: World, t: World, cfg: Config, sync: Sync)
    requires JobOk(w, cfg, sync) && JobsKept(w, t, cfg) && Grows(w, t)
    ensures JobOk(t, cfg, sync)
  {
    var k := JobKey(cfg, sync);
    hide ConnOf, JobKey, Env, Ran, JobEnv, OwnJob, ControllerOf, Grows;
    if k in t.store.objects {
      if OwnJob(t, cfg, sync) && Ran(w.log, sync, ConnOf(w, cfg).value) { RanStays(w, t, sync, ConnOf(w, cfg).value); }
    }
  }

  lemma KeptInv(w: World, t: World, cfg: Config)
    requires Inv(w, cfg) && JobsKept(w, t, cfg) && Valid(t.store)
    requires t.log == w.log && t.observed == w.observed && t.passwordAt == w.passwordAt
    requires t.proj.Some? ==>
               if w.proj.Some? then t.proj.value.status == w.proj.value.status && t.proj.value.uid == w.proj.value.uid
               else t.proj.value.status == ProjectStatus([], "", "") && t.proj.value.uid in t.uids && t.proj.value.uid != ""
    ensures Inv(t, cfg)
  {
    hide JobOk, HashOf, Proven;
    assert w.uids <= t.uids;
    hide JobsKept;
    JobsKeptOk(w, t, cfg, Jwt);
    JobsKeptOk(w, t, cfg, Password);
  }

  lemma StoreFrame(w: World, cfg: Config, q: CR)
    requires Inv(w, cfg) && w.proj.Some?
    ensures var t := StoreStatus(w, q);
      && t == w.(proj := Some(w.proj.value.(status := q.status)), log := t.log) && Grows(w, t)
      && JobOk(t, cfg, Jwt) && JobOk(t, cfg, Password) && ConnOf(t, cfg) == ConnOf(w, cfg)
  {
    var t := StoreStatus(w, q);
    assert ConnOf(t, cfg) == ConnOf(w, cfg);
    assert JobsKept(w, t, cfg) by {
      hide JobKey, ConnOf, ControllerOf;
    }
    hide JobOk, JobsKept, ConnOf;
    JobsKeptOk(w, t, cfg, Jwt);
    JobsKeptOk(w, t, cfg, Password);
  }

  /** A status write of the pass. */
  lemma StatusInv(w: World, cfg: Config, q: CR)
    requires Inv(w, cfg) && w.proj.Some? && HashesOk(w.log, cfg, q.status) && InOrder(w, cfg, q.status)
    ensures Inv(StoreStatus(w, q), cfg) && Grows(w, StoreStatus(w, q)) && StoreStatus(w, q).store == w.store
    ensures ConnOf(StoreStatus(w, q), cfg) == ConnOf(w, cfg)
  {
    StoreFrame(w, cfg, q);
    var t := StoreStatus(w, q);
    hide JobOk, Proven, HashOf, ConnOf, StoreStatus;
    HashesStay(w, t, cfg, q.status);
  }

  lemma SetReadyInv(w: World, cfg: Config, p: CR, ready: bool, reason: string)
    requires Inv(w, cfg) && w.proj == Some(p)
    ensures Inv(StoreStatus(w, SetReady(p, ready, reason)), cfg)
  {
    hide Inv, HashOf, Proven, StoreStatus, SetCondition;
    StoredOk(w, cfg, p);
    StatusInv(w, cfg, SetReady(p, ready, reason));
  }

  lemma ReportInv(w: World, cfg: Config, luck: Luck, p: CR, reason: string)
    requires Inv(w, cfg) && w.proj == Some(p)
    ensures Inv(Report(w, luck, p, reason), cfg)
  {
    hide Inv, StoreStatus, SetReady;
    SetReadyInv(w, cfg, p, false, reason);
  }

  lemma StoredOk(w: World, cfg: Config, p: CR)
    requires Inv(w, cfg) && w.proj == Some(p)
    ensures HashesOk(w.log, cfg, p.status) && InOrder(w, cfg, p.status)
  {
  }

  // ---- the stages before the hashes ----

  lemma MildInv(w: World, t: World, cfg: Config)
    requires Inv(w, cfg) && t == w.(store := t.store) && Mild(w.store, t.store, cfg.namespace)
    ensures Inv(t, cfg)
  {
    assert JobsKept(w, t, cfg) by {
      assert ConnOf(w, cfg).Some? ==> ConnOf(t, cfg) == ConnOf(w, cfg) by {
        hide PasswordAt, Valid, Inv;
      }
      assert JobOk(w, cfg, Jwt) && JobOk(w, cfg, Password);
      hide ConnOf, Inv, PasswordsKept, Valid, ControllerOf, Env, Ran, JobEnv;
    }
    hide Inv, JobsKept, ConnOf;
    KeptInv(w, t, cfg);
  }

  /** Before the hashes the invariant holds; at them the data the pass observed is in force. */
  lemma PrepareInv(w: World, cfg: Config, luck: Luck)
    requires Inv(w, cfg) && w.proj.Some? && Faithful(cfg.server)
    ensures var (v, c) := Prepare(w, cfg, luck);
      Inv(v, cfg) && (c.Some? ==> v.proj == w.proj && ConnOf(v, cfg) == c)
  {
    assert Valid(w.store);
    PreparePrepares(w, cfg, luck);
    var (v, c) := Prepare(w, cfg, luck);
    hide Inv, Prepare, Report, Faithful, Mild;
    MildInv(w, w.(store := v.store), cfg);
    if c.Some? {
      InForce(v, cfg, c.value);
    } else if v != w.(store := v.store) {
      var reason :| v == Report(w.(store := v.store), luck, w.proj.value, reason);
      ReportInv(w.(store := v.store), cfg, luck, w.proj.value, reason);
    }
    hide Prepared, ConnOf;
  }

  // ---- the Job a pass ensures ----

  lemma ConnStays(w: World, t: World, cfg: Config, sync: Sync)
    requires t == w.(store := t.store) && Untouched(w.store, t.store, JobKey(cfg, sync))
    ensures ConnOf(t, cfg) == ConnOf(w, cfg)
  {
  }

  /** The Job at its key afterwards: unless it was left alone, it has the variables for the data in force. */
  lemma WrittenOk(w: World, t: World, cfg: Config, sync: Sync, p: CR, c: Conn)
    requires Valid(w.store) && JobOk(w, cfg, sync) && w.proj == Some(p) && p.uid in w.uids
    requires t == w.(store := t.store) && ConnOf(w, cfg) == Some(c) && ConnOf(t, cfg) == Some(c)
    requires JobWritten(w.store, t.store, JobKey(cfg, sync), OwnerOf(cfg, p), Env(sync, c))
    ensures JobOk(t, cfg, sync)
  {
    hide ConnOf, Ran, Env, JobEnv;
    var k := JobKey(cfg, sync);
    if k in t.store.objects && !(k in w.store.objects && t.store.objects[k] == w.store.objects[k]) {
      assert Rewrites(w.store, k, t.store.objects[k], OwnerOf(cfg, p), Env(sync, c));
      assert k in w.store.objects ==> w.store.objects[k].body.Job?;
    }
  }

  lemma JobWrittenInv(w: World, t: World, cfg: Config, sync: Sync, p: CR, c: Conn)
    requires Inv(w, cfg) && ConnOf(w, cfg) == Some(c) && w.proj == Some(p)
    requires t == w.(store := t.store) && Valid(t.store) && Untouched(w.store, t.store, JobKey(cfg, sync))
    requires JobWritten(w.store, t.store, JobKey(cfg, sync), OwnerOf(cfg, p), Env(sync, c))
    ensures Inv(t, cfg) && ConnOf(t, cfg) == Some(c)
  {
    ConnStays(w, t, cfg, sync);
    hide ConnOf, HashesOk, InOrder, JobWritten;
    var other := if sync.Jwt? then Password else Jwt;
    JobKeysDiffer(cfg);
    assert JobOk(w, cfg, sync) && JobOk(w, cfg, other);
    assert JobOk(t, cfg, other) by {
      hide Ran, Env, JobEnv, ControllerOf, JobKey, Valid;
    }
    hide JobKey, JobOk, Valid;
    WrittenOk(w, t, cfg, sync, p, c);
  }

  /** A Job that a pass ensured is its Project's own. */
  lemma JobEnsureInv(w: World, cfg: Config, luck: Luck, p: CR, sync: Sync, c: Conn)
    requires Inv(w, cfg) && Faithful(cfg.server) && ConnOf(w, cfg) == Some(c) && w.proj == Some(p)
    ensures var (t, ensured) := EnsureAt(w, cfg, luck, EnsureJob(sync), JobCall(cfg, p, sync, c));
      Inv(t, cfg) && t == w.(store := t.store) && ConnOf(t, cfg) == Some(c) && (ensured.Proceed? ==> OwnJob(t, cfg, sync))
  {
    var call := JobCall(cfg, p, sync, c);
    FaithfulKind(cfg.server);
    JobCallBody(cfg, p, sync, c);
    assert JobOk(w, cfg, sync) && p.uid != "";
    hide JobCall, Faithful, Inv, ConnOf, JobEnv, Env, Ran, KeepsKind, ControllerOf;
    EnsuredJob(w.store, cfg.server, call);
    EnsureAtFrame(w, cfg, luck, EnsureJob(sync), call);
    var t := EnsureAt(w, cfg, luck, EnsureJob(sync), call).0;
    hide EnsureNow, Untouched, JobKey, IsControlledBy;
    assert JobWritten(w.store, t.store, JobKey(cfg, sync), call.owner, Env(sync, c)) by {
      hide Rewrites;
    }
    hide JobWritten;
    JobWrittenInv(w, t, cfg, sync, p, c);
  }

  // ---- the sync stages ----

  /** In the middle of a pass: `p` is the stored object, and `c` what this pass observed. */
  ghost predicate AtHashes(w: World, cfg: Config, p: CR, c: Conn) {
    && Inv(w, cfg) && w.proj == Some(p) && ConnOf(w, cfg) == Some(c)
    && w.observed != [] && w.observed[|w.observed| - 1] == c
  }

  lemma HashProven(w: World, cfg: Config, p: CR, c: Conn, sync: Sync)
    requires HashesOk(w.log, cfg, p.status) && Ran(w.log, sync, c)
    ensures HashesOk(w.log, cfg, WithHash(sync, p, HashOf(cfg, sync, c)).status)
  {
    hide HashOf, Ran;
    assert Proven(w.log, cfg, sync, HashOf(cfg, sync, c));
  }

  lemma HashStored(w: World, cfg: Config, luck: Luck, p: CR, c: Conn, sync: Sync)
    requires AtHashes(w, cfg, p, c) && Ran(w.log, sync, c)
    requires sync.Password? ==> p.status.jwtSyncHash == HashOf(cfg, Jwt, c)
    ensures var q := WithHash(sync, p, HashOf(cfg, sync, c));
      var t := StoreSyncHash(w, luck, q, sync);
      Inv(t, cfg) && (!luck.fate(StoreHash(sync)).Lost? ==> AtHashes(t, cfg, q, c))
  {
    hide HashOf, Ran, Inv, AtHashes, ConnOf, StoreStatus;
    if sync.Jwt? {
      JwtStored(w, cfg, p, c);
    } else {
      PasswordStored(w, cfg, p, c);
    }
    FromHashes(w, cfg, p, c);
    FromHashes(StoreSyncHash(w, luck, WithHash(sync, p, HashOf(cfg, sync, c)), sync), cfg, WithHash(sync, p, HashOf(cfg, sync, c)), c);
  }

  lemma FromHashes(w: World, cfg: Config, p: CR, c: Conn)
    ensures AtHashes(w, cfg, p, c) ==> Inv(w, cfg) && w.proj == Some(p) && ConnOf(w, cfg) == Some(c)
  {
  }

  lemma JwtStored(w: World, cfg: Config, p: CR, c: Conn)
    requires AtHashes(w, cfg, p, c) && Ran(w.log, Jwt, c)
    ensures AtHashes(StoreStatus(w, WithHash(Jwt, p, HashOf(cfg, Jwt, c))), cfg, WithHash(Jwt, p, HashOf(cfg, Jwt, c)), c)
  {
    var q := WithHash(Jwt, p, HashOf(cfg, Jwt, c));
    StoredOk(w, cfg, p);
    HashProven(w, cfg, p, c, Jwt);
    StoreFrame(w, cfg, q);
    hide HashOf, Ran, ConnOf, HashesOk, Inv, StoreStatus;
    assert InOrder(w, cfg, q.status) by {
      assert w.observed[|w.observed| - 1] == c;
    }
    hide InOrder;
    StatusInv(w, cfg, q);
  }

  lemma PlaceMarked(w: World, cfg: Config, at: int)
    requires JobOk(w, cfg, Jwt) && JobOk(w, cfg, Password)
    ensures var t := w.(passwordAt := at);
      JobOk(t, cfg, Jwt) && JobOk(t, cfg, Password) && ConnOf(t, cfg) == ConnOf(w, cfg)
  {
    var t := w.(passwordAt := at);
    assert ConnOf(t, cfg) == ConnOf(w, cfg);
    hide ConnOf, JobKey, JobEnv, Env, Ran, ControllerOf;
  }

  lemma PasswordStored(w: World, cfg: Config, p: CR, c: Conn)
    requires AtHashes(w, cfg, p, c) && Ran(w.log, Password, c)
    requires p.status.jwtSyncHash == HashOf(cfg, Jwt, c)
    ensures var q := WithHash(Password, p, HashOf(cfg, Password, c));
      AtHashes(StoreStatus(w, q).(passwordAt := |w.observed| - 1), cfg, q, c)
  {
    var q := WithHash(Password, p, HashOf(cfg, Password, c));
    StoredOk(w, cfg, p);
    HashProven(w, cfg, p, c, Password);
    StoreFrame(w, cfg, q);
    var u := StoreStatus(w, q);
    hide JobOk, HashOf, ConnOf, Ran, StoreStatus, HashesOk;
    HashesStay(w, u, cfg, q.status);
    PlaceMarked(u, cfg, |w.observed| - 1);
    var t := u.(passwordAt := |w.observed| - 1);
    assert InOrder(t, cfg, q.status) by {
      assert t.observed[|t.observed| - 1] == c;
    }
  }

  lemma OwnJobRan(w: World, cfg: Config, sync: Sync, c: Conn)
    requires Inv(w, cfg) && OwnJob(w, cfg, sync) && ConnOf(w, cfg) == Some(c)
    ensures JobKey(cfg, sync) in w.store.objects && w.store.objects[JobKey(cfg, sync)].body.Job?
    ensures w.store.objects[JobKey(cfg, sync)].body.jobStatus.succeeded > 0 ==> Ran(w.log, sync, c)
  {
    hide ConnOf, Ran, JobKey, HashesOk, InOrder;
    assert JobOk(w, cfg, sync);
  }

  lemma AwaitInv(w: World, cfg: Config, luck: Luck, p: CR, c: Conn, sync: Sync)
    requires AtHashes(w, cfg, p, c) && OwnJob(w, cfg, sync)
    requires sync.Password? ==> p.status.jwtSyncHash == HashOf(cfg, Jwt, c)
    ensures var (t, q, go) := AwaitJob(w, cfg, luck, p, c, sync);
      Inv(t, cfg) && (go ==> AtHashes(t, cfg, q, c) && q == WithHash(sync, p, HashOf(cfg, sync, c)))
  {
    hide HashOf, Report, StoreSyncHash, WithHash, Ran, Reason, OwnJob, Inv, ConnOf, JobKey;
    ReportInv(w, cfg, luck, p, Reason(sync, "Failed"));
    ReportInv(w, cfg, luck, p, Reason(sync, "InProgress"));
    OwnJobRan(w, cfg, sync, c);
    if Ran(w.log, sync, c) {
      HashStored(w, cfg, luck, p, c, sync);
    }
  }

  lemma SyncStageInv(w: World, cfg: Config, luck: Luck, p: CR, c: Conn, sync: Sync)
    requires AtHashes(w, cfg, p, c) && Faithful(cfg.server)
    requires sync.Password? ==> p.status.jwtSyncHash == HashOf(cfg, Jwt, c)
    ensures var (t, q, go) := SyncStage(w, cfg, luck, p, c, sync);
      Inv(t, cfg) && (go ==> AtHashes(t, cfg, q, c) && q == WithHash(sync, p, HashOf(cfg, sync, c)))
  {
    hide HashOf, Report, AwaitJob, EnsureAt, JobCall, Faithful, Reason, Inv, ConnOf, OwnJob;
    if HashOf(cfg, sync, c) != StatusHash(sync, p) {
      JobEnsureInv(w, cfg, luck, p, sync, c);
      var (w1, ensured) := EnsureAt(w, cfg, luck, EnsureJob(sync), JobCall(cfg, p, sync, c));
      ReportInv(w1, cfg, luck, p, Reason(sync, "Failed"));
      if ensured.Proceed? {
        AwaitInv(w1, cfg, luck, p, c, sync);
      }
    }
  }

  lemma ObservedInv(w: World, cfg: Config, c: Conn)
    requires Inv(w, cfg)
    ensures Inv(w.(observed := w.observed + [c]), cfg) && ConnOf(w.(observed := w.observed + [c]), cfg) == ConnOf(w, cfg)
  {
    var t := w.(observed := w.observed + [c]);
    assert ConnOf(t, cfg) == ConnOf(w, cfg);
    hide ConnOf, HashOf, HashesOk, Ran, ControllerOf;
    assert forall i :: 0 <= i < |w.observed| ==> t.observed[i] == w.observed[i];
    assert JobOk(t, cfg, Jwt) && JobOk(t, cfg, Password);
  }

  lemma SyncPartInv(w: World, cfg: Config, luck: Luck, p: CR, c: Conn)
    requires Inv(w, cfg) && w.proj == Some(p) && ConnOf(w, cfg) == Some(c) && Faithful(cfg.server)
    ensures Inv(SyncPart(w, cfg, luck, p, c), cfg)
  {
    var v := w.(observed := w.observed + [c]);
    hide Inv, ConnOf, SyncStage, HashOf, Faithful, SetReady, StoreStatus;
    ObservedInv(w, cfg, c);
    SyncStageInv(v, cfg, luck, p, c, Jwt);
    var (w1, p1, go1) := SyncStage(v, cfg, luck, p, c, Jwt);
    if go1 {
      SyncStageInv(w1, cfg, luck, p1, c, Password);
      var (w2, p2, go2) := SyncStage(w1, cfg, luck, p1, c, Password);
      if go2 {
        SetReadyInv(w2, cfg, p2, true, "ReconcileSucceeded");
      }
    }
  }

  lemma PassInv(w: World, cfg: Config, luck: Luck)
    requires Inv(w, cfg) && Faithful(cfg.server)
    ensures Inv(Pass(w, cfg, luck), cfg)
  {
    hide Inv, Faithful, Prepare, SyncPart, ConnOf;
    if w.proj.Some? {
      PrepareInv(w, cfg, luck);
      var (v, c) := Prepare(w, cfg, luck);
      if c.Some? {
        SyncPartInv(v, cfg, luck, w.proj.value, c.value);
      }
    } else {
      assert Prepare(w, cfg, luck) == (w, None) by {
        NothingToPrepare(w, cfg, luck);
      }
    }
  }

  lemma NothingToPrepare(w: World, cfg: Config, luck: Luck)
    requires w.proj.None?
    ensures Prepare(w, cfg, luck) == (w, None)
  {
  }

  // ---- everybody else ----

  /**
   The guard. While a Project has a sync Job of its own, its password, connection data and
   expiry do not change, but it may go itself; and only the controller creates or edits
   the sync Jobs, though anyone may delete them.
   */
  ghost predicate Guarded(w: World, cfg: Config, a: Action) {
    && (!a.RunPass? && !a.DeleteProject? && (OwnJob(w, cfg, Jwt) || OwnJob(w, cfg, Password)) ==>
          ConnOf(Step(w, cfg, a), cfg) == ConnOf(w, cfg))
    && (a.OtherPut? ==> KeyOf(a.obj) != JobKey(cfg, Jwt) && KeyOf(a.obj) != JobKey(cfg, Password))
  }

  ghost predicate GuardedRun(w: World, cfg: Config, run: seq<Action>) {
    run != [] ==>
      GuardedRun(w, cfg, run[..|run| - 1]) && Guarded(Exec(w, cfg, run[..|run| - 1]), cfg, run[|run| - 1])
  }

  /** Nobody but the passes and the Job controller touches the Jobs, except to delete them. */
  lemma OtherSameJobs(w: World, cfg: Config, a: Action, sync: Sync)
    requires Valid(w.store) && !a.RunPass? && !a.JobEnds?
    requires a.OtherPut? ==> KeyOf(a.obj) != JobKey(cfg, sync)
    requires JobKey(cfg, sync) in Step(w, cfg, a).store.objects
    ensures var k := JobKey(cfg, sync);
      && k in w.store.objects && SameJob(w.store.objects[k], Step(w, cfg, a).store.objects[k])
      && Step(w, cfg, a).store.objects[k].meta.incarnation == w.store.objects[k].meta.incarnation
  {
    hide Pass, EndJob, JobKey;
  }

  /** A Project that was not there before owns none of the Jobs that are. */
  lemma OtherOwnJobs(w: World, cfg: Config, a: Action, sync: Sync)
    requires Inv(w, cfg) && !a.RunPass? && !a.JobEnds?
    requires a.OtherPut? ==> KeyOf(a.obj) != JobKey(cfg, sync)
    ensures OwnJob(Step(w, cfg, a), cfg, sync) ==> OwnJob(w, cfg, sync) && !a.DeleteProject?
  {
    assert JobOk(w, cfg, sync);
    if JobKey(cfg, sync) in Step(w, cfg, a).store.objects {
      OtherSameJobs(w, cfg, a, sync);
    }
    hide Pass, EndJob, JobKey, ConnOf, Env, Ran, Inv, PutIn, DeleteFrom, ControllerOf;
  }

  lemma OtherInv(w: World, cfg: Config, a: Action)
    requires Inv(w, cfg) && Guarded(w, cfg, a) && !a.RunPass? && !a.JobEnds?
    ensures Inv(Step(w, cfg, a), cfg)
  {
    var t := Step(w, cfg, a);
    assert Valid(w.store);
    assert w.uids <= t.uids by {
      hide Pass, EndJob, PutIn, DeleteFrom;
    }
    assert JobsKept(w, t, cfg) by {
      hide ConnOf, Inv, JobKey, Pass, EndJob, Step, OwnJob, SameJob;
      forall sync | JobKey(cfg, sync) in t.store.objects
        ensures JobKey(cfg, sync) in w.store.objects
                && SameJob(w.store.objects[JobKey(cfg, sync)], t.store.objects[JobKey(cfg, sync)])
                && (OwnJob(t, cfg, sync) ==> OwnJob(w, cfg, sync) && ConnOf(t, cfg) == ConnOf(w, cfg))
      {
        OtherSameJobs(w, cfg, a, sync);
        OtherOwnJobs(w, cfg, a, sync);
        assert sync.Jwt? || sync.Password?;
      }
    }
    StoreStaysValid(w, cfg, a);
    hide Inv, JobsKept, ConnOf, Guarded, Valid, Pass, EndJob, PutIn, DeleteFrom;
    KeptInv(w, t, cfg);
  }

  lemma StoreStaysValid(w: World, cfg: Config, a: Action)
    requires Valid(w.store) && !a.RunPass? && !a.JobEnds?
    ensures Valid(Step(w, cfg, a).store) && w.store.next <= Step(w, cfg, a).store.next
  {
    hide Pass, EndJob;
  }

  lemma OneValueMore(s: Store, namespace: string, env: seq<EnvVar>, v: EnvVar)
    ensures ValuesIn(s, namespace, env + [v]) == ValuesIn(s, namespace, env)[v.name := ValueIn(s, namespace, v).GetOr("")]
  {
    assert (env + [v])[..|env|] == env;
  }

  /** The login, which both kinds of Job get. */
  function LoginEnv(c: Conn): seq<EnvVar> {
    [Variable("PGHOST", c.db.host), Variable("PGPORT", Preimage.Itoa(c.db.port)), Variable("PGUSER", c.db.user),
     FromSecret("PGPASSWORD", c.db.password)]
  }

  lemma LoginValues(s: Store, namespace: string, c: Conn)
    requires PasswordAt(s, namespace, c.db.password) == Some(c.password)
    ensures ValuesIn(s, namespace, LoginEnv(c))
         == map["PGHOST" := c.db.host, "PGPORT" := Preimage.Itoa(c.db.port), "PGUSER" := c.db.user, "PGPASSWORD" := c.password]
  {
    var env := LoginEnv(c);
    hide PasswordAt;
    OneValueMore(s, namespace, [], env[0]);
    OneValueMore(s, namespace, [env[0]], env[1]);
    OneValueMore(s, namespace, [env[0], env[1]], env[2]);
    OneValueMore(s, namespace, [env[0], env[1], env[2]], env[3]);
    assert [] + [env[0]] == [env[0]] && [env[0]] + [env[1]] == [env[0], env[1]];
    assert [env[0], env[1]] + [env[2]] == [env[0], env[1], env[2]] && [env[0], env[1], env[2]] + [env[3]] == env;
  }

  lemma TwoMore(s: Store, namespace: string, env: seq<EnvVar>, a: EnvVar, b: EnvVar)
    requires a.valueFrom.None? && b.valueFrom.None?
    ensures ValuesIn(s, namespace, env + [a, b]) == ValuesIn(s, namespace, env)[a.name := a.value][b.name := b.value]
  {
    OneValueMore(s, namespace, env, a);
    OneValueMore(s, namespace, env + [a], b);
    hide ValuesIn;
    assert env + [a] + [b] == env + [a, b];
  }

  lemma JwtRunsWith(w: World, cfg: Config, c: Conn)
    requires ConnOf(w, cfg) == Some(c)
    ensures ValuesIn(w.store, cfg.namespace, Env(Jwt, c)) == Values(Jwt, c)
  {
    var a, b := Variable("PGDATABASE", c.db.dbName), Variable("JWT_EXP", Preimage.Itoa(c.exp));
    LoginValues(w.store, cfg.namespace, c);
    TwoMore(w.store, cfg.namespace, LoginEnv(c), a, b);
    assert Env(Jwt, c) == LoginEnv(c) + [a, b];
    hide ValuesIn, Env, LoginEnv, ConnOf, Preimage.Itoa;
  }

  lemma PasswordMap(c: Conn)
    ensures map["PGHOST" := c.db.host, "PGPORT" := Preimage.Itoa(c.db.port), "PGUSER" := c.db.user, "PGPASSWORD" := c.password]
            ["PGDATABASE" := "_supabase"]["DB_ADMIN_USER" := c.db.user]
            ["DB_SRV_NAME" := c.db.host]["DB_SRV_PORT" := Preimage.Itoa(c.db.port)]
         == Values(Password, c)
  {
    hide Preimage.Itoa;
  }

  lemma PasswordRunsWith(w: World, cfg: Config, c: Conn)
    requires ConnOf(w, cfg) == Some(c)
    ensures ValuesIn(w.store, cfg.namespace, Env(Password, c)) == Values(Password, c)
  {
    var a, b := Variable("PGDATABASE", "_supabase"), Variable("DB_ADMIN_USER", c.db.user);
    var d, e := Variable("DB_SRV_NAME", c.db.host), Variable("DB_SRV_PORT", Preimage.Itoa(c.db.port));
    LoginValues(w.store, cfg.namespace, c);
    TwoMore(w.store, cfg.namespace, LoginEnv(c), a, b);
    TwoMore(w.store, cfg.namespace, LoginEnv(c) + [a, b], d, e);
    assert Env(Password, c) == LoginEnv(c) + [a, b] + [d, e];
    PasswordMap(c);
    hide ValuesIn, Env, LoginEnv, ConnOf, Preimage.Itoa, Values;
  }

  /** A Job built for `c` that runs while `c` is in force has the values `c` asks for. */
  lemma RunsWith(w: World, cfg: Config, sync: Sync, c: Conn)
    requires ConnOf(w, cfg) == Some(c)
    ensures ValuesIn(w.store, cfg.namespace, Env(sync, c)) == Values(sync, c)
  {
    hide ValuesIn, Env, ConnOf, Values;
    match sync
    case Jwt => JwtRunsWith(w, cfg, c);
    case Password => PasswordRunsWith(w, cfg, c);
  }

  lemma JwtValues(c: Conn)
    ensures var v := Values(Jwt, c);
      && v.Keys == {"PGHOST", "PGPORT", "PGUSER", "PGPASSWORD", "PGDATABASE", "JWT_EXP"}
      && v["PGHOST"] == c.db.host && v["PGPORT"] == Preimage.Itoa(c.db.port) && v["PGUSER"] == c.db.user
      && v["PGPASSWORD"] == c.password && v["PGDATABASE"] == c.db.dbName && v["JWT_EXP"] == Preimage.Itoa(c.exp)
  {
    hide Preimage.Itoa;
  }

  lemma PasswordValues(c: Conn)
    ensures var v := Values(Password, c);
      && v.Keys == {"PGHOST", "PGPORT", "PGUSER", "PGPASSWORD", "PGDATABASE", "DB_ADMIN_USER", "DB_SRV_NAME", "DB_SRV_PORT"}
      && v["PGHOST"] == c.db.host && v["PGPORT"] == Preimage.Itoa(c.db.port) && v["PGUSER"] == c.db.user
      && v["PGPASSWORD"] == c.password && v["PGDATABASE"] == "_supabase" && v["DB_ADMIN_USER"] == c.db.user
      && v["DB_SRV_NAME"] == c.db.host && v["DB_SRV_PORT"] == Preimage.Itoa(c.db.port)
  {
    hide Preimage.Itoa;
  }

  /**
   Variable by variable: what the sync-jwt Job of the Project gets when its pod starts
   while `c` is in force, and what the sync-password Job gets.
   */
  lemma SyncJobsGet(w: World, cfg: Config, p: CR, c: Conn)
    requires ConnOf(w, cfg) == Some(c)
    ensures var v := ValuesIn(w.store, cfg.namespace, JobEnv(JobCall(cfg, p, Jwt, c).desired.body));
      && v.Keys == {"PGHOST", "PGPORT", "PGUSER", "PGPASSWORD", "PGDATABASE", "JWT_EXP"}
      && v["PGHOST"] == c.db.host && v["PGPORT"] == Preimage.Itoa(c.db.port) && v["PGUSER"] == c.db.user
      && v["PGPASSWORD"] == c.password && v["PGDATABASE"] == c.db.dbName && v["JWT_EXP"] == Preimage.Itoa(c.exp)
    ensures var v := ValuesIn(w.store, cfg.namespace, JobEnv(JobCall(cfg, p, Password, c).desired.body));
      && v.Keys == {"PGHOST", "PGPORT", "PGUSER", "PGPASSWORD", "PGDATABASE", "DB_ADMIN_USER", "DB_SRV_NAME", "DB_SRV_PORT"}
      && v["PGHOST"] == c.db.host && v["PGPORT"] == Preimage.Itoa(c.db.port) && v["PGUSER"] == c.db.user
      && v["PGPASSWORD"] == c.password && v["PGDATABASE"] == "_supabase" && v["DB_ADMIN_USER"] == c.db.user
      && v["DB_SRV_NAME"] == c.db.host && v["DB_SRV_PORT"] == Preimage.Itoa(c.db.port)
  {
    JobCallBody(cfg, p, Jwt, c);
    JobCallBody(cfg, p, Password, c);
    JwtRunsWith(w, cfg, c);
    PasswordRunsWith(w, cfg, c);
    hide JobCall, JobEnv, ValuesIn, Env, ConnOf, Preimage.Itoa, Values;
    JwtValues(c);
    PasswordValues(c);
  }

  /** Runs of the sync-jwt Job with the same values were with the same login and expiry. */
  lemma JwtValuesTell(c: Conn, d: Conn)
    requires Values(Jwt, c) == Values(Jwt, d)
    ensures LoginOf(c) == LoginOf(d) && c.exp == d.exp
  {
    var v, w := Values(Jwt, c), Values(Jwt, d);
    assert v["PGHOST"] == w["PGHOST"] && v["PGPORT"] == w["PGPORT"] && v["PGUSER"] == w["PGUSER"];
    assert v["PGPASSWORD"] == w["PGPASSWORD"] && v["PGDATABASE"] == w["PGDATABASE"] && v["JWT_EXP"] == w["JWT_EXP"];
    Preimage.ItoaInjective(c.db.port, d.db.port);
    Preimage.ItoaInjective(c.exp, d.exp);
  }

  /** Of the sync-password Job, with the same login but for the database, which is fixed. */
  lemma PasswordValuesTell(c: Conn, d: Conn)
    requires Values(Password, c) == Values(Password, d)
    ensures LoginOf(c).(dbName := "") == LoginOf(d).(dbName := "")
  {
    var v, w := Values(Password, c), Values(Password, d);
    assert v["PGHOST"] == w["PGHOST"] && v["PGPORT"] == w["PGPORT"] && v["PGUSER"] == w["PGUSER"];
    assert v["PGPASSWORD"] == w["PGPASSWORD"];
    Preimage.ItoaInjective(c.db.port, d.db.port);
  }

  /**
   A sync hash tells the data apart: with the first three fields free of NUL, equal hashes
   are of the same database, user, host, port and password, and for the JWTSyncHash of
   the same expiry, or else two different texts have one digest.
   */
  lemma HashTells(cfg: Config, size: nat, sync: Sync, c: Conn, d: Conn)
    requires forall x :: |cfg.digest(x)| == size
    requires Preimage.FieldsNulFree(LoginOf(c)) && Preimage.FieldsNulFree(LoginOf(d))
    requires HashOf(cfg, sync, c) == HashOf(cfg, sync, d)
    ensures || (&& c.db.dbName == d.db.dbName && c.db.user == d.db.user && c.db.host == d.db.host && c.db.port == d.db.port
                && c.password == d.password && (sync.Jwt? ==> c.exp == d.exp))
            || exists x, y :: Preimage.Collision(cfg.digest, x, y)
  {
    var a, b := LoginOf(c), LoginOf(d);
    if sync.Jwt? {
      Preimage.JWTSyncHashUnique(cfg.digest, size, a, c.exp, b, d.exp);
    } else {
      Preimage.PasswordTextUnique(a, b);
      assert a == b || Preimage.Collision(cfg.digest, Preimage.PasswordText(a), Preimage.PasswordText(b));
    }
    hide Preimage.PasswordText, Preimage.JwtText;
  }

  lemma EndJobFrame(w: World, cfg: Config, sync: Sync, succeeds: bool)
    requires Valid(w.store)
    ensures var t := EndJob(w, cfg, sync, succeeds);
      && t == w.(store := t.store, log := t.log) && Valid(t.store) && Grows(w, t) && w.store.next <= t.store.next
      && Untouched(w.store, t.store, JobKey(cfg, sync)) && ConnOf(t, cfg) == ConnOf(w, cfg)
  {
    hide ValuesIn, JobEnv;
    assert ConnOf(EndJob(w, cfg, sync, succeeds), cfg) == ConnOf(w, cfg) by {
      hide Valid, Untouched, Grows;
    }
    hide ConnOf;
  }

  /** The Job that ends, unless it had succeeded before. */
  lemma EndedJob(w: World, cfg: Config, sync: Sync, succeeds: bool)
    requires Valid(w.store) && JobKey(cfg, sync) in EndJob(w, cfg, sync, succeeds).store.objects
    ensures var k, t := JobKey(cfg, sync), EndJob(w, cfg, sync, succeeds);
      && k in w.store.objects
      && var o, u := w.store.objects[k], t.store.objects[k];
      && u.meta.owners == o.meta.owners && u.meta.annotations == o.meta.annotations
      && u.meta.incarnation == o.meta.incarnation && JobEnv(u.body) == JobEnv(o.body) && (o.body.Job? ==> u.body.Job?)
      && (o.body.Job? && u.body.jobStatus.succeeded > 0 ==>
            || (o.body.jobStatus.succeeded > 0 && t == w)
            || (succeeds && t.log == w.log + [Completed(sync, o.meta.incarnation,
                                                        ValuesIn(w.store, cfg.namespace, JobEnv(o.body)), ConnOf(w, cfg))]))
      && (o.body.Job? && u.body.jobStatus.succeeded == 0 ==> t.log == w.log)
  {
    hide ValuesIn, ConnOf;
  }

  lemma EndedOwnOk(w: World, cfg: Config, sync: Sync, succeeds: bool)
    requires Valid(w.store) && JobOk(w, cfg, sync)
    ensures JobOk(EndJob(w, cfg, sync, succeeds), cfg, sync)
  {
    var k, t := JobKey(cfg, sync), EndJob(w, cfg, sync, succeeds);
    EndJobFrame(w, cfg, sync, succeeds);
    if k in t.store.objects {
      EndedJob(w, cfg, sync, succeeds);
      hide EndJob, ConnOf, Values, ValuesIn, Env, JobKey, ControllerOf, JobEnv, Grows, Untouched;
      if OwnJob(w, cfg, sync) {
        var c := ConnOf(w, cfg).value;
        RunsWith(w, cfg, sync, c);
        if Ran(w.log, sync, c) { RanStays(w, t, sync, c); }
        hide Ran;
        if !Ran(w.log, sync, c) && t.store.objects[k].body.jobStatus.succeeded > 0 {
          RanNow(w.log, t.log, sync, w.store.objects[k].meta.incarnation, c);
        }
      }
    }
  }

  lemma RanNow(before: seq<Event>, after: seq<Event>, sync: Sync, incarnation: nat, c: Conn)
    requires after == before + [Completed(sync, incarnation, Values(sync, c), Some(c))]
    ensures Ran(after, sync, c)
  {
    hide Values;
    assert after[|before|] == Completed(sync, incarnation, Values(sync, c), Some(c));
    assert RanAs(after, sync, incarnation, c);
  }

  lemma EndJobInv(w: World, cfg: Config, sync: Sync, succeeds: bool)
    requires Inv(w, cfg)
    ensures Inv(EndJob(w, cfg, sync, succeeds), cfg)
  {
    var t := EndJob(w, cfg, sync, succeeds);
    var other := if sync.Jwt? then Password else Jwt;
    EndJobFrame(w, cfg, sync, succeeds);
    JobKeysDiffer(cfg);
    hide EndJob, HashesOk, HashOf, Valid, ConnOf, JobKey;
    EndedOwnOk(w, cfg, sync, succeeds);
    assert JobOk(w, cfg, other);
    OtherJobOk(w, t, cfg, other, JobKey(cfg, sync));
    hide JobOk, Untouched, Grows;
    if w.proj.Some? {
      HashesStay(w, t, cfg, w.proj.value.status);
    }
  }

  lemma OtherJobOk(w: World, t: World, cfg: Config, sync: Sync, mine: Key)
    requires JobOk(w, cfg, sync) && mine != JobKey(cfg, sync) && Untouched(w.store, t.store, mine) && Grows(w, t)
    requires t == w.(store := t.store, log := t.log) && ConnOf(t, cfg) == ConnOf(w, cfg)
    ensures JobOk(t, cfg, sync)
  {
    hide ConnOf, JobKey, Env, JobEnv, Ran, ControllerOf, Grows;
    if JobKey(cfg, sync) in t.store.objects && OwnJob(w, cfg, sync) && Ran(w.log, sync, ConnOf(w, cfg).value) {
      RanStays(w, t, sync, ConnOf(w, cfg).value);
    }
  }

  lemma StepInv(w: World, cfg: Config, a: Action)
    requires Inv(w, cfg) && Guarded(w, cfg, a) && Faithful(cfg.server)
    ensures Inv(Step(w, cfg, a), cfg)
  {
    hide Inv, Pass, EndJob, Guarded, Faithful;
    match a
    case RunPass(luck) => PassInv(w, cfg, luck);
    case JobEnds(sync, succeeds) => EndJobInv(w, cfg, sync, succeeds);
    case _ => OtherInv(w, cfg, a);
  }

  /** No Project yet, and nothing left of one. */
  predicate Fresh(w: World, cfg: Config) {
    w.proj.None? && JobKey(cfg, Jwt) !in w.store.objects && JobKey(cfg, Password) !in w.store.objects
  }

  lemma {:induction false} ExecInv(w: World, cfg: Config, run: seq<Action>)
    requires Inv(w, cfg) && GuardedRun(w, cfg, run) && Faithful(cfg.server)
    ensures Inv(Exec(w, cfg, run), cfg)
  {
    hide Inv, Step, Guarded, Faithful;
    if run != [] {
      ExecInv(w, cfg, run[..|run| - 1]);
      StepInv(Exec(w, cfg, run[..|run| - 1]), cfg, run[|run| - 1]);
    }
  }

  /**
   Provenance. In every run that keeps the guard, whatever fails or crashes, and however
   often the Project is deleted and created again with old Jobs still there: a stored
   JWTSyncHash or PasswordSyncHash is the hash of data that was in force when a Job of
   that name completed, which ran with exactly those values. And the PasswordSyncHash is
   of the data seen by the pass that stored it, the JWTSyncHash of that or later data.
   */
  lemma SyncHashProvenance(start: World, cfg: Config, run: seq<Action>)
    requires Valid(start.store) && Fresh(start, cfg) && GuardedRun(start, cfg, run) && Faithful(cfg.server)
    ensures var w := Exec(start, cfg, run);
      w.proj.Some? ==>
      var status := w.proj.value.status;
      && (status.jwtSyncHash != "" ==>
            exists c :: Ran(w.log, Jwt, c) && status.jwtSyncHash == HashOf(cfg, Jwt, c))
      && (status.passwordSyncHash != "" ==>
            exists c :: Ran(w.log, Password, c) && status.passwordSyncHash == HashOf(cfg, Password, c))
      && (status.passwordSyncHash != "" ==>
            && 0 <= w.passwordAt < |w.observed|
            && status.passwordSyncHash == HashOf(cfg, Password, w.observed[w.passwordAt])
            && exists j :: w.passwordAt <= j < |w.observed| && status.jwtSyncHash == HashOf(cfg, Jwt, w.observed[j]))
  {
    ExecInv(start, cfg, run);
    hide Ran, HashOf, JobOk, Exec, GuardedRun, Faithful;
    var w := Exec(start, cfg, run);
    assert w.proj.Some? ==> InOrder(w, cfg, w.proj.value.status);
  }
}
