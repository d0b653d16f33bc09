/**
 What becomes of the sync hashes without the guard of `ProjectSync`: each is still that of
 the data in force when it was stored, with the Job of its name there and succeeded. But
 that Job may be a leftover that ran with other data.
 */
module ProjectLeftover {
  import opened Wrappers
  import opened Objects
  import opened Store
  import opened Ensure
  import opened Status
  import opened Database
  import opened Project
  import opened ProjectChildren
  import opened ProjectReady
  import opened ProjectSync

  // ---- when a hash changes ----

  /** The stored hash is that of the data in force, and the Job of this name has succeeded and not failed. */
  predicate Earned(w: World, cfg: Config, sync: Sync) {
    && w.proj.Some? && ConnOf(w, cfg).Some? && StatusHash(sync, w.proj.value) == HashOf(cfg, sync, ConnOf(w, cfg).value)
    && CleanJob(w.store, JobKey(cfg, sync))
  }

  /** `t` keeps each hash of `w`, or has earned another. */
  ghost predicate Earns(w: World, t: World, cfg: Config) {
    && (w.proj.Some? <==> t.proj.Some?)
    && (w.proj.Some? ==>
          forall sync :: StatusHash(sync, t.proj.value) == StatusHash(sync, w.proj.value) || Earned(t, cfg, sync))
  }

  function Other(sync: Sync): Sync { if sync.Jwt? then Password else Jwt }

  /** Nothing moves but the stored status and the Job of `sync`; its hash is kept, or is that of `c` with a clean Job. */
  ghost predicate Moves(w: World, t: World, cfg: Config, p: CR, c: Conn, sync: Sync) {
    && t == w.(proj := t.proj, store := t.store, log := t.log, passwordAt := t.passwordAt)
    && t.proj.Some? && t.proj.value == p.(status := t.proj.value.status) && Valid(t.store)
    && Untouched(w.store, t.store, JobKey(cfg, sync))
    && StatusHash(Other(sync), t.proj.value) == StatusHash(Other(sync), p)
    && (StatusHash(sync, t.proj.value) == StatusHash(sync, p)
        || (StatusHash(sync, t.proj.value) == HashOf(cfg, sync, c) && CleanJob(t.store, JobKey(cfg, sync))))
  }

  lemma ReportMoves(w: World, cfg: Config, luck: Luck, p: CR, c: Conn, sync: Sync, reason: string)
    requires w.proj == Some(p) && Valid(w.store)
    ensures Moves(w, Report(w, luck, p, reason), cfg, p, c, sync)
  {
    hide SetCondition, HashOf, Valid, JobKey;
  }

  lemma AwaitMoves(w: World, cfg: Config, luck: Luck, p: CR, c: Conn, sync: Sync)
    requires w.proj == Some(p) && Valid(w.store)
    ensures var (t, q, go) := AwaitJob(w, cfg, luck, p, c, sync);
      Moves(w, t, cfg, p, c, sync) && (go ==> t.proj == Some(q))
  {
    ReportMoves(w, cfg, luck, p, c, sync, Reason(sync, "Failed"));
    ReportMoves(w, cfg, luck, p, c, sync, Reason(sync, "InProgress"));
    hide HashOf, Report, Reason, Valid, JobKey;
  }

  lemma MovesAfter(w: World, w1: World, t: World, cfg: Config, p: CR, c: Conn, sync: Sync)
    requires w1 == w.(store := w1.store) && Untouched(w.store, w1.store, JobKey(cfg, sync)) && Moves(w1, t, cfg, p, c, sync)
    ensures Moves(w, t, cfg, p, c, sync)
  {
    hide HashOf, Valid, JobKey;
  }

  lemma StageMoves(w: World, cfg: Config, luck: Luck, p: CR, c: Conn, sync: Sync)
    requires w.proj == Some(p) && Valid(w.store) && KeepsKind(cfg.server)
    ensures var (t, q, go) := SyncStage(w, cfg, luck, p, c, sync);
      Moves(w, t, cfg, p, c, sync) && (go ==> t.proj == Some(q))
  {
    assert HashOf(cfg, sync, c) == StatusHash(sync, p) ==> Moves(w, w, cfg, p, c, sync) by {
      hide HashOf, Valid, JobKey;
    }
    hide Moves, HashOf, EnsureAt, JobCall, Reason, Report, AwaitJob, Valid, KeepsKind, Untouched;
    if HashOf(cfg, sync, c) != StatusHash(sync, p) {
      EnsureAtFrame(w, cfg, luck, EnsureJob(sync), JobCall(cfg, p, sync, c));
      JobCallBody(cfg, p, sync, c);
      var w1 := EnsureAt(w, cfg, luck, EnsureJob(sync), JobCall(cfg, p, sync, c)).0;
      ReportMoves(w1, cfg, luck, p, c, sync, Reason(sync, "Failed"));
      StopMoves(w1, cfg, p, c, sync);
      AwaitMoves(w1, cfg, luck, p, c, sync);
      MovesAfter(w, w1, SyncStage(w, cfg, luck, p, c, sync).0, cfg, p, c, sync);
    }
  }

  lemma StopMoves(w: World, cfg: Config, p: CR, c: Conn, sync: Sync)
    requires w.proj == Some(p) && Valid(w.store)
    ensures Moves(w, w, cfg, p, c, sync)
  {
    hide HashOf, Valid, JobKey;
  }

  lemma MovesKeepConn(w: World, t: World, cfg: Config, p: CR, c: Conn, sync: Sync)
    requires Moves(w, t, cfg, p, c, sync) && w.proj == Some(p)
    ensures ConnOf(t, cfg) == ConnOf(w, cfg)
  {
    hide HashOf, Valid;
  }

  /** Each stage earns its hash, and the other stage leaves it and its Job alone. */
  lemma SyncPartEarns(w: World, cfg: Config, luck: Luck, p: CR, c: Conn)
    requires w.proj == Some(p) && ConnOf(w, cfg) == Some(c) && Valid(w.store) && KeepsKind(cfg.server)
    ensures Earns(w, SyncPart(w, cfg, luck, p, c), cfg)
  {
    var v := w.(observed := w.observed + [c]);
    assert ConnOf(v, cfg) == ConnOf(w, cfg);
    hide SyncStage, HashOf, KeepsKind, Earns, ConnOf, Moves, StoreStatus, SetReady;
    StageMoves(v, cfg, luck, p, c, Jwt);
    var (w1, p1, go1) := SyncStage(v, cfg, luck, p, c, Jwt);
    MovesKeepConn(v, w1, cfg, p, c, Jwt);
    if go1 {
      assert Valid(w1.store) by { MovesValid(v, w1, cfg, p, c, Jwt); }
      StageMoves(w1, cfg, luck, p1, c, Password);
      var (w2, p2, go2) := SyncStage(w1, cfg, luck, p1, c, Password);
      MovesKeepConn(w1, w2, cfg, p1, c, Password);
      TwoEarn(w, v, w1, w2, cfg, p, p1, c);
      if go2 {
        ReadyEarns(w, w2, cfg, p2);
      }
    } else {
      OneEarns(w, v, w1, cfg, p, c);
    }
  }

  lemma MovesValid(w: World, t: World, cfg: Config, p: CR, c: Conn, sync: Sync)
    requires Moves(w, t, cfg, p, c, sync)
    ensures Valid(t.store)
  {
  }

  lemma OneEarns(w: World, v: World, t: World, cfg: Config, p: CR, c: Conn)
    requires w.proj == Some(p) && Moves(v, t, cfg, p, c, Jwt) && ConnOf(t, cfg) == Some(c)
    ensures Earns(w, t, cfg)
  {
    hide HashOf, Valid, ConnOf, JobKey;
  }

  lemma TwoEarn(w: World, v: World, t: World, u: World, cfg: Config, p: CR, q: CR, c: Conn)
    requires w.proj == Some(p) && Moves(v, t, cfg, p, c, Jwt) && t.proj == Some(q) && Moves(t, u, cfg, q, c, Password)
    requires ConnOf(u, cfg) == Some(c)
    ensures Earns(w, u, cfg)
  {
    JobKeysDiffer(cfg);
    hide HashOf, Valid, ConnOf, JobKey;
  }

  lemma ReadyEarns(w: World, t: World, cfg: Config, p: CR)
    requires Earns(w, t, cfg) && t.proj == Some(p)
    ensures Earns(w, StoreStatus(t, SetReady(p, true, "ReconcileSucceeded")), cfg)
  {
    var u := StoreStatus(t, SetReady(p, true, "ReconcileSucceeded"));
    assert ConnOf(u, cfg) == ConnOf(t, cfg);
    hide SetCondition, HashOf, ConnOf, JobKey;
  }

  /** Before the hashes nothing but the store and the conditions changes; at them the data observed is in force. */
  ghost predicate Arrives(w: World, v: World, c: Option<Conn>, cfg: Config) {
    && w.proj.Some? && v.proj.Some? && Valid(v.store)
    && if c.Some? then v == w.(store := v.store) && ConnOf(v, cfg) == c else StatusKept(w, v)
  }

  lemma ReportArrives(w: World, v: World, cfg: Config, luck: Luck, reason: string)
    requires w.proj.Some? && v == w.(store := v.store) && Valid(v.store)
    ensures Arrives(w, v, None, cfg) && Arrives(w, Report(v, luck, w.proj.value, reason), None, cfg)
  {
    hide SetCondition, Valid, ConnOf;
  }

  lemma SecretsPartArrives(w: World, v: World, cfg: Config, luck: Luck, db: Resolved)
    requires w.proj.Some? && v == w.(store := v.store) && Valid(v.store) && KeepsKind(cfg.server)
    requires ResolveRef(w.databases, w.proj.value.spec.databaseRef) == Ready(db)
    ensures var (u, c) := SecretsPart(v, cfg, luck, w.proj.value, db);
      Arrives(w, u, c, cfg)
  {
    hide EnsureAt, SecretCall, Report, Valid, KeepsKind, PasswordAt, Arrives, PasswordPart;
    var p := w.proj.value;
    EnsureAtFrame(v, cfg, luck, EnsureJWTSecret, SecretCall(cfg, p, "-jwt", JWT_KEYS, luck.generated));
    var w1 := EnsureAt(v, cfg, luck, EnsureJWTSecret, SecretCall(cfg, p, "-jwt", JWT_KEYS, luck.generated)).0;
    EnsureAtFrame(w1, cfg, luck, EnsureKeysSecret, SecretCall(cfg, p, "-keys", KEYS_KEYS, luck.generated));
    var w2 := EnsureAt(w1, cfg, luck, EnsureKeysSecret, SecretCall(cfg, p, "-keys", KEYS_KEYS, luck.generated)).0;
    ReportArrives(w, w1, cfg, luck, "JWTSecretFailed");
    ReportArrives(w, w2, cfg, luck, "KeysSecretFailed");
    PasswordPartArrives(w, w2, cfg, luck, db);
  }

  lemma PasswordPartArrives(w: World, v: World, cfg: Config, luck: Luck, db: Resolved)
    requires w.proj.Some? && v == w.(store := v.store) && Valid(v.store)
    requires ResolveRef(w.databases, w.proj.value.spec.databaseRef) == Ready(db)
    ensures var (u, c) := PasswordPart(v, cfg, luck, w.proj.value, db);
      Arrives(w, u, c, cfg)
  {
    ReportArrives(w, v, cfg, luck, "DBPasswordValueFailed");
    hide Report, Valid, PasswordAt;
  }

  lemma MigrationStays(w: World, cfg: Config, luck: Luck, p: CR)
    requires Valid(w.store) && KeepsKind(cfg.server)
    ensures var v := MigrationAt(w, cfg, luck, p).0;
      v == w.(store := v.store) && Valid(v.store)
  {
    EnsureAtFrame(w, cfg, luck, EnsureMigration, MigrationCall(cfg, p));
    DeleteFrame(w.store, MigrationKey(cfg));
    hide EnsureAt, MigrationCall, DeleteFrom, Valid;
  }

  lemma PrepareArrives(w: World, cfg: Config, luck: Luck)
    requires w.proj.Some? && Valid(w.store) && KeepsKind(cfg.server)
    ensures var (v, c) := Prepare(w, cfg, luck);
      Arrives(w, v, c, cfg)
  {
    var p := w.proj.value;
    MigrationStays(w, cfg, luck, p);
    var w1 := MigrationAt(w, cfg, luck, p).0;
    hide MigrationAt, Report, SecretsPart, Valid, KeepsKind, ResolveRef, Arrives, MigrationsReady;
    ReportArrives(w, w, cfg, luck, "DatabaseResolutionFailed");
    ReportArrives(w, w, cfg, luck, "DatabaseNotReady");
    ReportArrives(w, w1, cfg, luck, "MigrationFailed");
    ReportArrives(w, w1, cfg, luck, "MigrationsListFailed");
    ReportArrives(w, w1, cfg, luck, "MigrationsNotReady");
    var r := ResolveRef(w.databases, p.spec.databaseRef);
    if r.Ready? {
      SecretsPartArrives(w, w1, cfg, luck, r.db);
    }
  }

  /**
   Whatever the world and whatever fails: a pass changes a sync hash only to that of the
   data in force, with the Job of that name there, succeeded and not failed.
   */
  lemma HashesEarned(w: World, cfg: Config, luck: Luck)
    requires Valid(w.store) && KeepsKind(cfg.server)
    ensures Earns(w, Pass(w, cfg, luck), cfg)
  {
    hide Prepare, SyncPart, Earned, HashOf, ConnOf, KeepsKind, Valid;
    if w.proj.Some? {
      PrepareArrives(w, cfg, luck);
      var (v, c) := Prepare(w, cfg, luck);
      if c.Some? {
        SyncPartEarns(v, cfg, luck, w.proj.value, c.value);
      }
    } else {
      NothingToPrepare(w, cfg, luck);
    }
  }

  // ---- which Job a completion belongs to ----

  ghost predicate CompletionAt(log: seq<Event>, sync: Sync, incarnation: nat, i: int) {
    0 <= i < |log| && log[i].Completed? && log[i].sync == sync && log[i].incarnation == incarnation
  }

  /** A Job has a completion in the log exactly if it has succeeded; no Job has two, and none is of a Job to come. */
  ghost predicate Tracked(w: World, cfg: Config) {
    && Valid(w.store)
    && (forall i :: 0 <= i < |w.log| && w.log[i].Completed? ==> w.log[i].incarnation < w.store.next)
    && (forall i, j :: 0 <= i < j < |w.log| && w.log[i].Completed? && w.log[j].Completed? && w.log[i].sync == w.log[j].sync ==>
          w.log[i].incarnation != w.log[j].incarnation)
    && forall sync :: JobTracked(w, cfg, sync)
  }

  ghost predicate JobTracked(w: World, cfg: Config, sync: Sync) {
    var k := JobKey(cfg, sync);
    k in w.store.objects ==>
      && w.store.objects[k].body.Job? && w.store.objects[k].meta.incarnation < w.store.next
      && (w.store.objects[k].body.jobStatus.succeeded > 0 <==>
            exists i :: CompletionAt(w.log, sync, w.store.objects[k].meta.incarnation, i))
  }

  /** The Job at `k` is the one that was there, with as many successes, or a new one with none. */
  ghost predicate JobFollows(s: Store, t: Store, k: Key) {
    k in t.objects ==>
      && t.objects[k].body.Job?
      && ((&& k in s.objects && s.objects[k].body.Job? && t.objects[k].meta.incarnation == s.objects[k].meta.incarnation
           && t.objects[k].body.jobStatus.succeeded == s.objects[k].body.jobStatus.succeeded)
          || (s.next <= t.objects[k].meta.incarnation < t.next && t.objects[k].body.jobStatus.succeeded == 0))
  }

  /** No Job ends between `w` and `t`. */
  ghost predicate Follows(w: World, t: World, cfg: Config) {
    && Grows(w, t) && (forall i :: |w.log| <= i < |t.log| ==> t.log[i].Stored?)
    && w.store.next <= t.store.next && Valid(t.store) && forall sync :: JobFollows(w.store, t.store, JobKey(cfg, sync))
  }

  lemma FollowsTwice(u: World, v: World, w: World, cfg: Config)
    requires Follows(u, v, cfg) && Follows(v, w, cfg)
    ensures Follows(u, w, cfg)
  {
    hide JobKey, Valid;
    assert forall i :: 0 <= i < |v.log| ==> w.log[..|v.log|][i] == w.log[i];
    forall sync ensures JobFollows(u.store, w.store, JobKey(cfg, sync)) {
      assert JobFollows(u.store, v.store, JobKey(cfg, sync)) && JobFollows(v.store, w.store, JobKey(cfg, sync));
    }
  }

  lemma TrackedFollows(w: World, t: World, cfg: Config)
    requires Tracked(w, cfg) && Follows(w, t, cfg)
    ensures Tracked(t, cfg)
  {
    hide JobKey, Valid;
    assert forall i :: 0 <= i < |w.log| ==> t.log[..|w.log|][i] == t.log[i];
    forall sync ensures JobTracked(t, cfg, sync) {
      assert JobTracked(w, cfg, sync) && JobFollows(w.store, t.store, JobKey(cfg, sync));
      var k := JobKey(cfg, sync);
      if k in t.store.objects {
        SameCompletions(w, t, cfg, sync, t.store.objects[k].meta.incarnation);
        hide Tracked;
      }
    }
  }

  lemma SameCompletions(w: World, t: World, cfg: Config, sync: Sync, incarnation: nat)
    requires Follows(w, t, cfg) && Tracked(w, cfg)
    ensures (exists i :: CompletionAt(t.log, sync, incarnation, i)) <==> (exists i :: CompletionAt(w.log, sync, incarnation, i))
    ensures incarnation >= w.store.next ==> !exists i :: CompletionAt(w.log, sync, incarnation, i)
  {
    hide JobKey, Valid, JobFollows, JobTracked;
    assert forall i :: 0 <= i < |w.log| ==> t.log[..|w.log|][i] == t.log[i];
    if i :| CompletionAt(t.log, sync, incarnation, i) {
      assert CompletionAt(w.log, sync, incarnation, i);
    }
    if i :| CompletionAt(w.log, sync, incarnation, i) {
      assert CompletionAt(t.log, sync, incarnation, i);
    }
  }

  // ---- passes end no Job ----

  /** Only the status and the place of the hash move. */
  lemma StatusFollows(w: World, t: World, cfg: Config)
    requires t == w.(proj := t.proj, log := t.log, observed := t.observed, passwordAt := t.passwordAt) && Valid(w.store)
    requires t.log == w.log || (|t.log| == |w.log| + 1 && t.log[..|w.log|] == w.log && t.log[|w.log|].Stored?)
    ensures Follows(w, t, cfg)
  {
    forall sync ensures JobFollows(w.store, t.store, JobKey(cfg, sync)) {
      KindAt(w.store, JobKey(cfg, sync));
    }
    hide JobFollows;
  }

  lemma ReportFollows(w: World, cfg: Config, luck: Luck, p: CR, reason: string)
    requires Valid(w.store)
    ensures Follows(w, Report(w, luck, p, reason), cfg)
  {
    hide Follows, SetReady, Valid;
    StatusFollows(w, Report(w, luck, p, reason), cfg);
  }

  lemma MildFollows(w: World, t: World, cfg: Config)
    requires t == w.(store := t.store) && Mild(w.store, t.store, cfg.namespace)
    ensures Follows(w, t, cfg)
  {
    forall sync ensures JobFollows(w.store, t.store, JobKey(cfg, sync)) {
      KindAt(t.store, JobKey(cfg, sync));
      hide Valid, PasswordsKept;
    }
    hide JobFollows, PasswordsKept, JobKey;
  }

  lemma EnsuredFollows(w: World, t: World, cfg: Config, sync: Sync, p: CR, c: Conn)
    requires t == w.(store := t.store) && Valid(w.store) && Valid(t.store) && w.store.next <= t.store.next
    requires Untouched(w.store, t.store, JobKey(cfg, sync))
    requires JobWritten(w.store, t.store, JobKey(cfg, sync), OwnerOf(cfg, p), Env(sync, c))
    ensures Follows(w, t, cfg)
  {
    JobKeysDiffer(cfg);
    forall any: Sync ensures JobFollows(w.store, t.store, JobKey(cfg, any)) {
      KindAt(w.store, JobKey(cfg, any));
      KindAt(t.store, JobKey(cfg, any));
      hide Valid, Env, JobEnv, IsControlledBy;
    }
    hide JobFollows, JobWritten, Untouched, JobKey, Env;
  }

  lemma JobEnsureFollows(w: World, cfg: Config, luck: Luck, p: CR, c: Conn, sync: Sync)
    requires Valid(w.store) && Faithful(cfg.server)
    ensures Follows(w, EnsureAt(w, cfg, luck, EnsureJob(sync), JobCall(cfg, p, sync, c)).0, cfg)
  {
    hide JobCall, Faithful, JobEnv, Env, KeepsKind, ControllerOf, JobKey, Follows, JobWritten, Untouched, EnsureNow;
    var call := JobCall(cfg, p, sync, c);
    FaithfulKind(cfg.server);
    JobCallBody(cfg, p, sync, c);
    EnsuredJob(w.store, cfg.server, call);
    EnsureAtFrame(w, cfg, luck, EnsureJob(sync), call);
    var t := EnsureAt(w, cfg, luck, EnsureJob(sync), call).0;
    if t.store == w.store {
      StatusFollows(w, t, cfg);
    } else {
      EnsuredFollows(w, t, cfg, sync, p, c);
    }
  }

  lemma AwaitFollows(w: World, cfg: Config, luck: Luck, p: CR, c: Conn, sync: Sync)
    requires Valid(w.store)
    ensures Follows(w, AwaitJob(w, cfg, luck, p, c, sync).0, cfg)
  {
    hide Follows, Report, HashOf, Valid, Reason, JobKey, WithHash;
    ReportFollows(w, cfg, luck, p, Reason(sync, "Failed"));
    ReportFollows(w, cfg, luck, p, Reason(sync, "InProgress"));
    StatusFollows(w, w, cfg);
    StatusFollows(w, StoreSyncHash(w, luck, WithHash(sync, p, HashOf(cfg, sync, c)), sync), cfg);
  }

  lemma StageFollows(w: World, cfg: Config, luck: Luck, p: CR, c: Conn, sync: Sync)
    requires Valid(w.store) && Faithful(cfg.server)
    ensures Follows(w, SyncStage(w, cfg, luck, p, c, sync).0, cfg)
  {
    hide Report, HashOf, Valid, Reason, AwaitJob, EnsureAt, JobCall, Faithful, StatusHash, Grows, JobFollows;
    var w1 := EnsureAt(w, cfg, luck, EnsureJob(sync), JobCall(cfg, p, sync, c)).0;
    JobEnsureFollows(w, cfg, luck, p, c, sync);
    assert Valid(w1.store);
    hide Follows;
    StatusFollows(w, w, cfg);
    ReportFollows(w1, cfg, luck, p, Reason(sync, "Failed"));
    AwaitFollows(w1, cfg, luck, p, c, sync);
    FollowsTwice(w, w1, Report(w1, luck, p, Reason(sync, "Failed")), cfg);
    FollowsTwice(w, w1, AwaitJob(w1, cfg, luck, p, c, sync).0, cfg);
  }

  lemma FollowsValid(w: World, t: World, cfg: Config)
    requires Follows(w, t, cfg)
    ensures Valid(t.store) && Grows(w, t)
  {
  }

  lemma SyncPartFollows(w: World, cfg: Config, luck: Luck, p: CR, c: Conn)
    requires Valid(w.store) && Faithful(cfg.server)
    ensures Follows(w, SyncPart(w, cfg, luck, p, c), cfg)
  {
    hide Valid, SyncStage, Faithful, Follows, SetReady, Grows;
    var v := w.(observed := w.observed + [c]);
    StatusFollows(w, v, cfg);
    StageFollows(v, cfg, luck, p, c, Jwt);
    var (w1, p1, _) := SyncStage(v, cfg, luck, p, c, Jwt);
    FollowsTwice(w, v, w1, cfg);
    FollowsValid(w, w1, cfg);
    StageFollows(w1, cfg, luck, p1, c, Password);
    var (w2, p2, _) := SyncStage(w1, cfg, luck, p1, c, Password);
    FollowsTwice(w, w1, w2, cfg);
    FollowsValid(w, w2, cfg);
    ReadyFollows(w2, cfg, p2);
    FollowsTwice(w, w2, StoreStatus(w2, SetReady(p2, true, "ReconcileSucceeded")), cfg);
  }

  lemma ReadyFollows(w: World, cfg: Config, p: CR)
    requires Valid(w.store)
    ensures Follows(w, StoreStatus(w, SetReady(p, true, "ReconcileSucceeded")), cfg)
  {
    hide Valid, Follows, SetReady;
    StatusFollows(w, StoreStatus(w, SetReady(p, true, "ReconcileSucceeded")), cfg);
  }

  /** A pass logs status writes only, and leaves every sync Job with the successes it had. */
  lemma PassFollows(w: World, cfg: Config, luck: Luck)
    requires Valid(w.store) && Faithful(cfg.server)
    ensures Follows(w, Pass(w, cfg, luck), cfg)
  {
    hide Prepare, SyncPart, Faithful, Follows, Mild, Prepared, Report;
    if w.proj.None? {
      NothingToPrepare(w, cfg, luck);
      StatusFollows(w, w, cfg);
    } else {
      PreparePrepares(w, cfg, luck);
      var (v, c) := Prepare(w, cfg, luck);
      var u := w.(store := v.store);
      MildFollows(w, u, cfg);
      FollowsValid(w, u, cfg);
      if c.Some? {
        SyncPartFollows(v, cfg, luck, w.proj.value, c.value);
        FollowsTwice(w, v, Pass(w, cfg, luck), cfg);
      } else if v != u {
        var reason :| v == Report(u, luck, w.proj.value, reason);
        ReportFollows(u, cfg, luck, w.proj.value, reason);
        FollowsTwice(w, u, v, cfg);
      }
    }
  }

  // ---- runs without the guard ----

  /** Only the controller creates or edits the sync Jobs, though anyone may delete them. */
  ghost predicate Untampered(cfg: Config, run: seq<Action>) {
    forall a | a in run :: a.OtherPut? ==> KeyOf(a.obj) != JobKey(cfg, Jwt) && KeyOf(a.obj) != JobKey(cfg, Password)
  }

  lemma OtherFollows(w: World, cfg: Config, a: Action)
    requires Valid(w.store) && !a.RunPass? && !a.JobEnds?
    requires a.OtherPut? ==> KeyOf(a.obj) != JobKey(cfg, Jwt) && KeyOf(a.obj) != JobKey(cfg, Password)
    ensures Follows(w, Step(w, cfg, a), cfg)
  {
    var t := Step(w, cfg, a);
    StoreStaysValid(w, cfg, a);
    assert t.log == w.log by {
      hide Pass, EndJob, PutIn, DeleteFrom;
    }
    forall sync ensures JobFollows(w.store, t.store, JobKey(cfg, sync)) {
      assert sync.Jwt? || sync.Password?;
      if JobKey(cfg, sync) in t.store.objects {
        OtherSameJobs(w, cfg, a, sync);
        KindAt(w.store, JobKey(cfg, sync));
        KindAt(t.store, JobKey(cfg, sync));
      }
      hide Step, JobKey, Valid;
    }
    hide JobFollows, Step, JobKey, Valid;
  }

  lemma CompletionNow(before: seq<Event>, after: seq<Event>, sync: Sync, incarnation: nat, e: Event)
    requires after == before + [e] && e.Completed?
    ensures (exists i :: CompletionAt(after, sync, incarnation, i))
        <==> (exists i :: CompletionAt(before, sync, incarnation, i)) || (e.sync == sync && e.incarnation == incarnation)
  {
    if e.sync == sync && e.incarnation == incarnation {
      assert CompletionAt(after, sync, incarnation, |before|);
    }
    if i :| CompletionAt(before, sync, incarnation, i) {
      assert CompletionAt(after, sync, incarnation, i);
    }
    if i :| CompletionAt(after, sync, incarnation, i) {
      assert i < |before| ==> CompletionAt(before, sync, incarnation, i);
    }
  }

  /** A Job that ends well had no completion before, and has one then. */
  lemma EndJobTracked(w: World, cfg: Config, sync: Sync, succeeds: bool)
    requires Tracked(w, cfg)
    ensures Tracked(EndJob(w, cfg, sync, succeeds), cfg)
  {
    var t := EndJob(w, cfg, sync, succeeds);
    hide Tracked, EndJob;
    TrackedValid(w, cfg);
    if t.log == w.log {
      EndJobFollows(w, cfg, sync, succeeds);
      TrackedFollows(w, t, cfg);
    } else {
      EndJobFrame(w, cfg, sync, succeeds);
      EndJobLogs(w, cfg, sync, succeeds);
      hide JobKey, Untouched, Valid;
      CompletionTracked(w, t, cfg, sync);
    }
  }

  lemma CompletionTracked(w: World, t: World, cfg: Config, sync: Sync)
    requires Tracked(w, cfg) && Valid(t.store) && w.store.next <= t.store.next
    requires Untouched(w.store, t.store, JobKey(cfg, sync))
    requires var k := JobKey(cfg, sync);
      && k in w.store.objects && w.store.objects[k].body.Job? && w.store.objects[k].body.jobStatus.succeeded == 0
      && |t.log| == |w.log| + 1 && t.log == w.log + [t.log[|w.log|]] && t.log[|w.log|].Completed?
      && t.log[|w.log|].sync == sync && t.log[|w.log|].incarnation == w.store.objects[k].meta.incarnation
      && (k in t.store.objects ==>
            t.store.objects[k].body.Job? && t.store.objects[k].meta.incarnation == w.store.objects[k].meta.incarnation
            && t.store.objects[k].body.jobStatus.succeeded == 1)
    ensures Tracked(t, cfg)
  {
    hide Valid;
    var k, k', e := JobKey(cfg, sync), JobKey(cfg, Other(sync)), t.log[|w.log|];
    JobKeysDiffer(cfg);
    assert JobTracked(w, cfg, sync) && JobTracked(w, cfg, Other(sync));
    var job := w.store.objects[k].meta.incarnation;
    CompletionNow(w.log, t.log, sync, job, e);
    forall i | 0 <= i < |w.log| && w.log[i].Completed? && w.log[i].sync == sync ensures w.log[i].incarnation != job {
      assert w.log[i].incarnation == job ==> CompletionAt(w.log, sync, job, i);
    }
    hide JobKey, CompletionAt;
    if k' in t.store.objects {
      CompletionNow(w.log, t.log, Other(sync), t.store.objects[k'].meta.incarnation, e);
    }
    forall any: Sync ensures JobTracked(t, cfg, any) {
      assert any == sync || any == Other(sync);
    }
    hide JobTracked, Untouched;
  }

  lemma EndJobLogs(w: World, cfg: Config, sync: Sync, succeeds: bool)
    requires Valid(w.store) && EndJob(w, cfg, sync, succeeds).log != w.log
    ensures var (k, t) := (JobKey(cfg, sync), EndJob(w, cfg, sync, succeeds));
      && k in w.store.objects && w.store.objects[k].body.Job? && w.store.objects[k].body.jobStatus.succeeded == 0
      && |t.log| == |w.log| + 1 && t.log == w.log + [t.log[|w.log|]] && t.log[|w.log|].Completed?
      && t.log[|w.log|].sync == sync && t.log[|w.log|].incarnation == w.store.objects[k].meta.incarnation
      && t.log[|w.log|].conn == ConnOf(w, cfg)
      && (k in t.store.objects ==>
            t.store.objects[k].body.Job? && t.store.objects[k].meta.incarnation == w.store.objects[k].meta.incarnation
            && t.store.objects[k].body.jobStatus.succeeded == 1)
  {
    hide ValuesIn, ConnOf;
  }

  lemma EndJobFollows(w: World, cfg: Config, sync: Sync, succeeds: bool)
    requires Valid(w.store) && EndJob(w, cfg, sync, succeeds).log == w.log
    ensures Follows(w, EndJob(w, cfg, sync, succeeds), cfg)
  {
    var t := EndJob(w, cfg, sync, succeeds);
    EndJobFrame(w, cfg, sync, succeeds);
    JobKeysDiffer(cfg);
    assert JobFollows(w.store, t.store, JobKey(cfg, sync)) by {
      hide ValuesIn, ConnOf;
    }
    hide EndJob, ConnOf;
    KindAt(t.store, JobKey(cfg, Other(sync)));
    assert JobFollows(w.store, t.store, JobKey(cfg, Other(sync))) by {
      hide Valid, JobKey;
    }
    hide JobFollows, JobKey, Valid, Untouched;
    forall any: Sync ensures JobFollows(w.store, t.store, JobKey(cfg, any)) {
      assert any == sync || any == Other(sync);
    }
  }

  lemma {:induction false} ExecTracked(w: World, cfg: Config, run: seq<Action>)
    requires Tracked(w, cfg) && Untampered(cfg, run) && Faithful(cfg.server)
    ensures Tracked(Exec(w, cfg, run), cfg)
  {
    hide Tracked, Pass, EndJob, Faithful, JobKey, PutIn, DeleteFrom;
    if run != [] {
      var v, a := Exec(w, cfg, run[..|run| - 1]), run[|run| - 1];
      assert a in run;
      ExecTracked(w, cfg, run[..|run| - 1]);
      TrackedValid(v, cfg);
      match a
      case RunPass(luck) =>
        PassFollows(v, cfg, luck);
        TrackedFollows(v, Pass(v, cfg, luck), cfg);
      case JobEnds(sync, succeeds) => EndJobTracked(v, cfg, sync, succeeds);
      case _ =>
        OtherFollows(v, cfg, a);
        TrackedFollows(v, Step(v, cfg, a), cfg);
    }
  }

  lemma TrackedValid(w: World, cfg: Config)
    requires Tracked(w, cfg)
    ensures Valid(w.store)
  {
  }

  /** The hash is that of data this very Job completed with. */
  ghost predicate ProvenBy(log: seq<Event>, cfg: Config, sync: Sync, incarnation: nat, hash: string) {
    exists c :: RanAs(log, sync, incarnation, c) && hash == HashOf(cfg, sync, c)
  }

  /** The completion is one with data of the hash of `c`, and with just the values that belong to it. */
  predicate CompletedFor(cfg: Config, e: Event, c: Conn) {
    && e.Completed? && e.conn.Some? && e.values == Values(e.sync, e.conn.value)
    && HashOf(cfg, e.sync, e.conn.value) == HashOf(cfg, e.sync, c)
  }

  /**
   Without the guard. In every run in which nobody else writes the sync Jobs: when a pass
   stores a hash, the Job of that name that it found has completed, once; and the hash is
   that of data that Job completed with if and only if this completion was with data of
   the same hash as the data in force now.
   */
  lemma StoredHashProven(start: World, cfg: Config, run: seq<Action>, luck: Luck, sync: Sync)
    requires Valid(start.store) && Fresh(start, cfg) && start.log == [] && Untampered(cfg, run) && Faithful(cfg.server)
    ensures var w := Exec(start, cfg, run);
      var t := Pass(w, cfg, luck);
      && (t.proj.Some? <==> w.proj.Some?)
      && (w.proj.Some? && StatusHash(sync, t.proj.value) != StatusHash(sync, w.proj.value) ==>
            && Earned(t, cfg, sync)
            && var job := t.store.objects[JobKey(cfg, sync)].meta.incarnation;
            exists i :: CompletionAt(t.log, sync, job, i) && (forall j :: CompletionAt(t.log, sync, job, j) ==> j == i)
              && (ProvenBy(t.log, cfg, sync, job, StatusHash(sync, t.proj.value)) <==>
                    CompletedFor(cfg, t.log[i], ConnOf(t, cfg).value)))
  {
    var w := Exec(start, cfg, run);
    var t := Pass(w, cfg, luck);
    assert Tracked(start, cfg) by {
      assert forall any :: JobTracked(start, cfg, any) by {
        forall any: Sync ensures JobTracked(start, cfg, any) {
          assert any.Jwt? || any.Password?;
        }
      }
    }
    ExecTracked(start, cfg, run);
    TrackedValid(w, cfg);
    FaithfulKind(cfg.server);
    PassFollows(w, cfg, luck);
    TrackedFollows(w, t, cfg);
    HashesEarned(w, cfg, luck);
    hide Exec, Pass, Faithful, Follows, HashOf, ConnOf, JobKey, Fresh, Untampered, KeepsKind, Tracked;
    if w.proj.Some? && StatusHash(sync, t.proj.value) != StatusHash(sync, w.proj.value) {
      assert Earned(t, cfg, sync);
      TheCompletion(t, cfg, sync);
    }
  }

  lemma TheCompletion(t: World, cfg: Config, sync: Sync)
    requires Tracked(t, cfg) && Earned(t, cfg, sync)
    ensures var job := t.store.objects[JobKey(cfg, sync)].meta.incarnation;
      exists i :: CompletionAt(t.log, sync, job, i) && (forall j :: CompletionAt(t.log, sync, job, j) ==> j == i)
        && (ProvenBy(t.log, cfg, sync, job, StatusHash(sync, t.proj.value)) <==>
              CompletedFor(cfg, t.log[i], ConnOf(t, cfg).value))
  {
    assert JobTracked(t, cfg, sync);
    hide ConnOf, HashOf, JobKey, Values;
    var job, c := t.store.objects[JobKey(cfg, sync)].meta.incarnation, ConnOf(t, cfg).value;
    var i :| CompletionAt(t.log, sync, job, i);
    assert forall j :: CompletionAt(t.log, sync, job, j) ==> j == i;
    if CompletedFor(cfg, t.log[i], c) {
      assert RanAs(t.log, sync, job, t.log[i].conn.value);
    }
    if ProvenBy(t.log, cfg, sync, job, StatusHash(sync, t.proj.value)) {
      var d :| RanAs(t.log, sync, job, d) && StatusHash(sync, t.proj.value) == HashOf(cfg, sync, d);
      var j :| 0 <= j < |t.log| && t.log[j] == Completed(sync, job, Values(sync, d), Some(d));
      assert CompletionAt(t.log, sync, job, j);
    }
  }
}
