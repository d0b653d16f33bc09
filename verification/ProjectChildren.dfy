/**
 What a Project pass does to its child objects: each call touches one object, a Secret
 that was ensured holds its keys, and a sync Job that was ensured is the Project's own.
 */
module ProjectChildren {
  import opened Wrappers
  import opened Objects
  import opened Mutate
  import opened Store
  import opened Ensure
  import opened Project
  import EnsureRuns
  import EnsureTakes

  /** Defaulting leaves the kind of an object alone, all of a Secret, and of a Job the variables and the status. */
  ghost predicate Faithful(server: Server) {
    && KeepsKind(server)
    && (forall b: Body :: b.Secret? ==> server(b) == b)
    && (forall b: Body :: b.Job? ==>
          server(b).Job? && server(b).jobStatus == b.jobStatus && JobEnv(server(b)) == JobEnv(b))
  }

  lemma FaithfulKind(server: Server)
    requires Faithful(server)
    ensures KeepsKind(server)
  {
  }

  /** The two stores differ at most at `mine`. */
  ghost predicate Untouched(s: Store, t: Store, mine: Key) {
    forall k :: k != mine ==> (k in t.objects <==> k in s.objects) && (k in s.objects ==> t.objects[k] == s.objects[k])
  }

  /** An Ensure call changes nothing but its object. */
  lemma EnsureFrame(s: Store, server: Server, c: Call)
    requires Valid(s) && KeepsKind(server)
    ensures var t := EnsureNow(s, server, c).0;
      Valid(t) && Untouched(s, t, KeyOf(c.desired)) && s.next <= t.next
  {
    BeginJustified(s, c);
    FinishValid(s, server, Begin(s, c));
    FinishFrame(s, server, Begin(s, c));
  }

  lemma EnsureAtFrame(w: World, cfg: Config, luck: Luck, at: Point, call: Call)
    requires Valid(w.store) && KeepsKind(cfg.server)
    ensures var (t, outcome) := EnsureAt(w, cfg, luck, at, call);
      && t == w.(store := t.store) && Valid(t.store) && Untouched(w.store, t.store, KeyOf(call.desired))
      && w.store.next <= t.store.next && (outcome.Ends? ==> luck.fate(at).Dies?)
  {
    EnsureFrame(w.store, cfg.server, call);
    hide EnsureNow;
  }

  /** Every password there was is still there. */
  ghost predicate PasswordsKept(s: Store, t: Store, namespace: string) {
    forall ref :: PasswordAt(s, namespace, ref).Some? ==> PasswordAt(t, namespace, ref) == PasswordAt(s, namespace, ref)
  }

  /** What a pass does to the store before it gets to the sync Jobs: Jobs and passwords stay. */
  ghost predicate Mild(s: Store, t: Store, namespace: string) {
    && Valid(t) && s.next <= t.next && PasswordsKept(s, t, namespace)
    && forall k: Key :: k.kind == KindJob ==>
         (k in t.objects <==> k in s.objects) && (k in s.objects ==> t.objects[k] == s.objects[k])
  }

  lemma MildTwice(s: Store, t: Store, u: Store, namespace: string)
    requires Mild(s, t, namespace) && Mild(t, u, namespace)
    ensures Mild(s, u, namespace)
  {
    hide PasswordAt, Valid;
  }

  lemma MildAt(s: Store, t: Store, mine: Key, namespace: string)
    requires Valid(t) && s.next <= t.next && mine.kind != KindJob && Untouched(s, t, mine)
    requires mine.kind == KindSecret ==> PasswordsKept(s, t, namespace)
    ensures Mild(s, t, namespace)
  {
    hide Valid;
  }

  // ---- the Migration ----

  lemma MigrationCallKey(cfg: Config, p: CR)
    ensures KeyOf(MigrationCall(cfg, p).desired) == MigrationKey(cfg)
  {
    hide Labels;
  }

  lemma DeleteFrame(s: Store, k: Key)
    requires Valid(s)
    ensures var t := DeleteFrom(s, k, None).0;
      Valid(t) && Untouched(s, t, k) && Untouched(s, s, k) && s.next <= t.next
  {
  }

  lemma MigrationAtFrame(w: World, cfg: Config, luck: Luck, p: CR)
    requires Valid(w.store) && KeepsKind(cfg.server)
    ensures var (t, outcome) := MigrationAt(w, cfg, luck, p);
      && t == w.(store := t.store) && Mild(w.store, t.store, cfg.namespace) && Untouched(w.store, t.store, MigrationKey(cfg))
      && (outcome.Ends? ==> luck.fate(EnsureMigration).Dies?)
  {
    hide Labels, EnsureAt, DeleteFrom, Untouched, Valid, KeepsKind;
    EnsureAtFrame(w, cfg, luck, EnsureMigration, MigrationCall(cfg, p));
    MigrationCallKey(cfg, p);
    hide MigrationCall;
    DeleteFrame(w.store, MigrationKey(cfg));
    MildAt(w.store, MigrationAt(w, cfg, luck, p).0.store, MigrationKey(cfg), cfg.namespace);
    hide Mild;
  }

  /** After a successful ensure the first Migration waits for the Project's database, with the built-in scripts. */
  lemma MigrationEnsured(s: Store, cfg: Config, p: CR)
    requires Valid(s) && forall b: Body :: b.Migration? ==> cfg.server(b) == b
    requires !EnsureNow(s, cfg.server, MigrationCall(cfg, p)).1.Failed?
    ensures var t := EnsureNow(s, cfg.server, MigrationCall(cfg, p)).0;
      && MigrationKey(cfg) in t.objects && t.objects[MigrationKey(cfg)].body.Migration?
      && var spec := t.objects[MigrationKey(cfg)].body.migration;
      spec.databaseRef == p.spec.databaseRef && spec.migrations == cfg.scripts && spec.pod == p.spec.migrationPod
  {
    MigrationCallKey(cfg, p);
    EnsureTakes.EnsureLeaves(s, cfg.server, MigrationCall(cfg, p));
    hide Labels, EnsureNow;
  }

  /** A Project that wants no migrations has the first Migration deleted, if only finalizers do not hold it. */
  lemma MigrationDeleted(w: World, cfg: Config, luck: Luck, p: CR)
    requires p.spec.migrationsEnabled == Some(false) && !luck.fate(EnsureMigration).Lost?
    ensures var t := MigrationAt(w, cfg, luck, p).0.store;
      MigrationKey(cfg) in t.objects ==>
        t.objects[MigrationKey(cfg)].meta.deleting && t.objects[MigrationKey(cfg)].meta.finalizers != {}
  {
  }

  lemma ReadyMigrationsStay(s: Store, t: Store, namespace: string, ref: DatabaseRef)
    requires Valid(s) && Valid(t)
    requires exists k: Key :: k.kind != KindMigration && Untouched(s, t, k)
    ensures MigrationsReady(s, namespace, ref) <==> MigrationsReady(t, namespace, ref)
  {
    var mine: Key :| mine.kind != KindMigration && Untouched(s, t, mine);
    forall k | k in t.objects && IsPending(t.objects[k], namespace, ref) ensures !MigrationsReady(s, namespace, ref) {
      assert k.kind == KindMigration;
      assert IsPending(s.objects[k], namespace, ref);
    }
    forall k | k in s.objects && IsPending(s.objects[k], namespace, ref) ensures !MigrationsReady(t, namespace, ref) {
      assert k.kind == KindMigration;
      assert IsPending(t.objects[k], namespace, ref);
    }
  }

  // ---- the Secrets ----

  predicate HasKeys(o: Object, keys: seq<string>) {
    o.body.Secret? && o.body.data.Some? && forall x | x in keys :: x in o.body.data.value
  }

  predicate HoldsKeys(s: Store, k: Key, keys: seq<string>) {
    k in s.objects && HasKeys(s.objects[k], keys)
  }

  function SecretKey(cfg: Config, suffix: string): Key { Key(KindSecret, cfg.namespace, cfg.name + suffix) }

  function JWTSecretKey(cfg: Config): Key { SecretKey(cfg, "-jwt") }

  function KeysSecretKey(cfg: Config): Key { SecretKey(cfg, "-keys") }

  lemma SecretKeysDiffer(cfg: Config)
    ensures JWTSecretKey(cfg) != KeysSecretKey(cfg)
  {
    assert |cfg.name + "-jwt"| != |cfg.name + "-keys"|;
  }

  lemma HeldKeysStay(s: Store, t: Store, k: Key, keys: seq<string>)
    requires HoldsKeys(s, k, keys)
    requires exists mine :: mine != k && Untouched(s, t, mine)
    ensures HoldsKeys(t, k, keys)
  {
  }

  /** What the call decides on has all the keys, and so has what it leaves alone. */
  lemma SecretPlanned(s: Store, cfg: Config, p: CR, suffix: string, keys: seq<string>, generated: string -> string)
    requires Valid(s) && keys != []
    ensures var a := Begin(s, SecretCall(cfg, p, suffix, keys, generated));
      if a.Finished? then a.result.Failed? || HoldsKeys(s, SecretKey(cfg, suffix), keys)
      else HasKeys(a.obj, keys) && KeyOf(a.obj) == SecretKey(cfg, suffix)
  {
    var call := SecretCall(cfg, p, suffix, keys, generated);
    hide Labels;
    BeginJustified(s, call);
    assert KeyOf(call.desired) == SecretKey(cfg, suffix);
    if WithOwner(call).Some? {
      var d := WithOwner(call).value;
      assert d.body == call.desired.body && KeyOf(d) == KeyOf(call.desired);
    }
    if KeyOf(call.desired) in s.objects {
      assert s.objects[KeyOf(call.desired)].body.Secret?;
    }
  }

  lemma SecretWritten(s: Store, server: Server, a: Attempt, keys: seq<string>)
    requires Faithful(server) && !a.Finished? && HasKeys(a.obj, keys) && !Finish(s, server, a).1.Failed?
    ensures HoldsKeys(Finish(s, server, a).0, KeyOf(a.obj), keys)
  {
  }

  /** After a successful Ensure the Secret holds its keys. */
  lemma SecretEnsured(s: Store, cfg: Config, p: CR, suffix: string, keys: seq<string>, generated: string -> string)
    requires Valid(s) && Faithful(cfg.server) && keys != []
    requires !EnsureNow(s, cfg.server, SecretCall(cfg, p, suffix, keys, generated)).1.Failed?
    ensures HoldsKeys(EnsureNow(s, cfg.server, SecretCall(cfg, p, suffix, keys, generated)).0,
                      SecretKey(cfg, suffix), keys)
  {
    SecretPlanned(s, cfg, p, suffix, keys, generated);
    var a := Begin(s, SecretCall(cfg, p, suffix, keys, generated));
    hide Begin, SecretCall, HasKeys, HoldsKeys, Faithful;
    if !a.Finished? {
      SecretWritten(s, cfg.server, a, keys);
    }
  }

  /** Each pass asks for a Secret with a fresh value for every one of its keys, the nine of the JWT Secret for one. */
  lemma SecretCallGenerates(cfg: Config, p: CR, suffix: string, keys: seq<string>, generated: string -> string,
                            generations: set<map<string, string>>)
    requires (map k | k in keys :: generated(k)) in generations
    ensures EnsureRuns.Generates(SecretCall(cfg, p, suffix, keys, generated), keys, generations)
    ensures |JWT_KEYS| == 9 && |KEYS_KEYS| == 4
  {
    hide Labels;
  }

  lemma SecretKeepsPassword(s: Store, cfg: Config, p: CR, suffix: string, keys: seq<string>, generated: string -> string,
                            ref: KeyRef)
    requires Valid(s) && Faithful(cfg.server)
    ensures var t := EnsureNow(s, cfg.server, SecretCall(cfg, p, suffix, keys, generated)).0;
      PasswordAt(s, cfg.namespace, ref).Some? ==> PasswordAt(t, cfg.namespace, ref) == PasswordAt(s, cfg.namespace, ref)
  {
    var call := SecretCall(cfg, p, suffix, keys, generated);
    hide Labels;
    EnsureFrame(s, cfg.server, call);
    if KeyOf(call.desired) in s.objects {
      BeginJustified(s, call);
    }
  }

  /** Whatever the fate of the call: only this Secret changes, passwords stay, and success means it has its keys. */
  lemma SecretAtFrame(w: World, cfg: Config, luck: Luck, at: Point, p: CR, suffix: string, keys: seq<string>)
    requires Valid(w.store) && Faithful(cfg.server) && keys != []
    ensures var (t, outcome) := EnsureAt(w, cfg, luck, at, SecretCall(cfg, p, suffix, keys, luck.generated));
      && t == w.(store := t.store) && Mild(w.store, t.store, cfg.namespace) && Untouched(w.store, t.store, SecretKey(cfg, suffix))
      && (outcome.Proceed? ==> HoldsKeys(t.store, SecretKey(cfg, suffix), keys)) && (outcome.Ends? ==> luck.fate(at).Dies?)
  {
    var call := SecretCall(cfg, p, suffix, keys, luck.generated);
    EnsureAtFrame(w, cfg, luck, at, call);
    if !EnsureNow(w.store, cfg.server, call).1.Failed? {
      SecretEnsured(w.store, cfg, p, suffix, keys, luck.generated);
    }
    forall ref | PasswordAt(w.store, cfg.namespace, ref).Some?
      ensures PasswordAt(EnsureNow(w.store, cfg.server, call).0, cfg.namespace, ref) == PasswordAt(w.store, cfg.namespace, ref)
    {
      SecretKeepsPassword(w.store, cfg, p, suffix, keys, luck.generated, ref);
    }
    assert KeyOf(call.desired) == SecretKey(cfg, suffix);
    hide EnsureNow, SecretCall, Untouched, Faithful, PasswordAt, HoldsKeys, Mild;
    MildAt(w.store, EnsureAt(w, cfg, luck, at, call).0.store, SecretKey(cfg, suffix), cfg.namespace);
  }

  /** A Secret that has its keys, and belongs to the Project, is left alone. */
  lemma HeldSecretUnchanged(s: Store, cfg: Config, p: CR, suffix: string, keys: seq<string>, generated: string -> string)
    requires Valid(s) && HoldsKeys(s, SecretKey(cfg, suffix), keys)
    requires IsControlledBy(s.objects[SecretKey(cfg, suffix)], OwnerOf(cfg, p).value)
    ensures EnsureNow(s, cfg.server, SecretCall(cfg, p, suffix, keys, generated)) == (s, Unchanged)
  {
    hide Labels;
    var call := SecretCall(cfg, p, suffix, keys, generated);
    var existing := s.objects[SecretKey(cfg, suffix)];
    var data := existing.body.data.value;
    assert CopyMissing(keys, data, call.desired.body.data) == data;
    assert WithOwner(call).Some?;
  }

  // ---- the sync Jobs ----

  /** A Job that has succeeded and not failed. */
  predicate CleanJob(s: Store, k: Key) {
    && k in s.objects && s.objects[k].body.Job?
    && s.objects[k].body.jobStatus.failed == 0 && s.objects[k].body.jobStatus.succeeded > 0
  }

  lemma JobKeysDiffer(cfg: Config)
    ensures JobKey(cfg, Jwt) != JobKey(cfg, Password)
  {
    assert |cfg.name + "-sync-jwt"| != |cfg.name + "-sync-password"|;
  }

  lemma JobCallBody(cfg: Config, p: CR, sync: Sync, c: Conn)
    ensures var call := JobCall(cfg, p, sync, c);
      && KeyOf(call.desired) == JobKey(cfg, sync) && call.mutator == MutateJob && call.owner == OwnerOf(cfg, p)
      && call.desired.body.Job? && JobEnv(call.desired.body) == Env(sync, c)
      && call.desired.body.jobStatus == JobStatus(0, 0) && call.desired.meta.annotations == map[]
  {
    hide Env, Labels;
  }

  lemma OwnedBody(call: Call)
    requires WithOwner(call).Some?
    ensures WithOwner(call).value.body == call.desired.body && KeyOf(WithOwner(call).value) == KeyOf(call.desired)
    ensures WithOwner(call).value.meta.annotations == call.desired.meta.annotations
  {
  }

  /** Mutating a Job sets the variables and keeps the status and the owners. */
  lemma MutatedJob(e: Object, d: Object)
    requires e.body.Job? && d.body.Job?
    ensures Apply(MutateJob, e, d).Done?
    ensures var o := Apply(MutateJob, e, d).value;
      && o.body.Job? && JobEnv(o.body) == JobEnv(d.body) && o.body.jobStatus == e.body.jobStatus
      && KeyOf(o) == KeyOf(e) && o.meta.owners == e.meta.owners
      && (d.meta.annotations == map[] ==> o.meta.annotations == e.meta.annotations)
  {
    assert e.meta.annotations + map[] == e.meta.annotations;
  }

  /** What a call for a Job with these variables writes over what was there: the status and the owners stay. */
  ghost predicate Rewrites(s: Store, k: Key, o: Object, owner: Option<Owner>, env: seq<EnvVar>) {
    && KeyOf(o) == k && o.body.Job? && JobEnv(o.body) == env
    && if k in s.objects && s.objects[k].body.Job?
       then && o.body.jobStatus == s.objects[k].body.jobStatus && o.meta.owners == s.objects[k].meta.owners
            && o.meta.annotations == s.objects[k].meta.annotations
       else && o.body.jobStatus == JobStatus(0, 0) && o.meta.annotations == map[]
            && (owner.Some? ==> IsControlledBy(o, owner.value))
  }

  /** What the call decides to write. */
  ghost predicate JobPlanned(s: Store, a: Attempt, k: Key, owner: Option<Owner>, env: seq<EnvVar>) {
    && (!a.Finished? ==> Rewrites(s, k, a.obj, owner, env))
    && (a.Finished? && !a.result.Failed? ==> k in s.objects)
    && (a.WillUpdate? ==> k in s.objects)
    && ((a.Finished? && !a.result.Failed?) || a.WillUpdate? ==> owner.Some? ==> MayWrite(owner.value, s.objects[k]))
  }

  lemma PlannedJob(s: Store, call: Call)
    requires Valid(s) && call.mutator == MutateJob && call.desired.body.Job?
    requires call.desired.body.jobStatus == JobStatus(0, 0) && call.desired.meta.annotations == map[]
    ensures JobPlanned(s, Begin(s, call), KeyOf(call.desired), call.owner, JobEnv(call.desired.body))
  {
    var k := KeyOf(call.desired);
    if WithOwner(call).Some? {
      var d := WithOwner(call).value;
      OwnedBody(call);
      MutatedJob(d, d);
      if call.owner.Some? {
        WithOwnerControls(call);
      }
      if k in s.objects {
        MutatedJob(s.objects[k], d);
      }
      hide WithOwner, JobEnv, Apply, MayWrite, ControllerOf;
    }
  }

  /** What a call for a Job leaves at its key. */
  ghost predicate JobWritten(s: Store, t: Store, k: Key, owner: Option<Owner>, env: seq<EnvVar>) {
    k in t.objects ==>
      || (k in s.objects && t.objects[k] == s.objects[k])
      || (&& Rewrites(s, k, t.objects[k], owner, env)
          && t.objects[k].meta.incarnation == (if k in s.objects then s.objects[k].meta.incarnation else s.next)
          && s.next < t.next)
  }

  lemma FinishedJob(s: Store, server: Server, a: Attempt, k: Key, owner: Option<Owner>, env: seq<EnvVar>)
    requires Valid(s) && Faithful(server) && JobPlanned(s, a, k, owner, env)
    ensures JobWritten(s, Finish(s, server, a).0, k, owner, env)
    ensures !Finish(s, server, a).1.Failed? ==>
      && k in Finish(s, server, a).0.objects
      && (owner.Some? ==> IsControlledBy(Finish(s, server, a).0.objects[k], owner.value)
                          || (k in s.objects && OwnerUid(s.objects[k]) == owner.value.uid))
  {
    hide JobEnv, TemplateChanged, ControllerOf;
  }

  /**
   A call for a Job leaves it as it was, or with the variables asked for and the status it
   had. If the call succeeds, the Job is there and the owner's, unless it was marked as
   retained for it.
   */
  lemma EnsuredJob(s: Store, server: Server, call: Call)
    requires Valid(s) && Faithful(server) && call.mutator == MutateJob && call.desired.body.Job?
    requires call.desired.body.jobStatus == JobStatus(0, 0) && call.desired.meta.annotations == map[]
    ensures JobWritten(s, EnsureNow(s, server, call).0, KeyOf(call.desired), call.owner, JobEnv(call.desired.body))
    ensures var (t, k) := (EnsureNow(s, server, call).0, KeyOf(call.desired));
      !EnsureNow(s, server, call).1.Failed? ==>
        && k in t.objects
        && (call.owner.Some? ==> IsControlledBy(t.objects[k], call.owner.value)
                                 || (k in s.objects && OwnerUid(s.objects[k]) == call.owner.value.uid))
  {
    PlannedJob(s, call);
    FinishedJob(s, server, Begin(s, call), KeyOf(call.desired), call.owner, JobEnv(call.desired.body));
    hide Begin, Finish, JobEnv, JobWritten, JobPlanned, Faithful, Valid, IsControlledBy, OwnerUid;
  }
}
