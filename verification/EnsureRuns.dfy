/**
 Any number of `EnsureResource` calls, interleaved with each other, with crashes and
 with arbitrary other clients.
 */
module EnsureRuns {
  import opened Wrappers
  import opened Objects
  import opened Mutate
  import opened Store
  import opened Ensure

  datatype System = System(store: Store, calls: map<nat, (Call, Attempt)>)

  datatype Action =
    | Get(id: nat, call: Call)
    | Write(id: nat)
    | Crash(id: nat)
    | OtherPut(obj: Object)
    | OtherDelete(key: Key)

  function Step(y: System, server: Server, a: Action): System {
    match a
    case Get(id, call) => if id in y.calls then y else y.(calls := y.calls[id := (call, Begin(y.store, call))])
    case Write(id) =>
      if id !in y.calls then y
      else System(Finish(y.store, server, y.calls[id].1).0, y.calls - {id})
    case Crash(id) => y.(calls := y.calls - {id})
    case OtherPut(o) => y.(store := PutIn(y.store, o))
    case OtherDelete(k) => y.(store := DeleteFrom(y.store, k, None).0)
  }

  function Exec(y: System, server: Server, run: seq<Action>): System {
    if run == [] then y else Step(Exec(y, server, run[..|run| - 1]), server, run[|run| - 1])
  }

  predicate StillAt(s: Store, seen: Object) {
    KeyOf(seen) in s.objects && s.objects[KeyOf(seen)].meta.version == seen.meta.version
  }

  /** A pending update that can still succeed will overwrite exactly the object it read and checked. */
  ghost predicate Inv(y: System) {
    && Valid(y.store)
    && forall id :: id in y.calls ==>
         var a := y.calls[id].1;
         && Justified(y.calls[id].0, a)
         && (a.WillUpdate? ==>
               && a.seen.meta.version < y.store.next
               && (StillAt(y.store, a.seen) ==> y.store.objects[KeyOf(a.seen)] == a.seen))
  }

  lemma StepInv(y: System, server: Server, a: Action)
    requires Inv(y) && KeepsKind(server)
    ensures Inv(Step(y, server, a))
  {
    hide Begin, Justified, KeepsKind;
    match a
    case Get(id, call) => BeginJustified(y.store, call);
    case Write(id) =>
      if id in y.calls {
        FinishValid(y.store, server, y.calls[id].1);
        FinishFrame(y.store, server, y.calls[id].1);
      }
    case _ =>
  }

  lemma {:induction false} ExecInv(y: System, server: Server, run: seq<Action>)
    requires Inv(y) && KeepsKind(server)
    ensures Inv(Exec(y, server, run))
  {
    if run != [] {
      ExecInv(y, server, run[..|run| - 1]);
      StepInv(Exec(y, server, run[..|run| - 1]), server, run[|run| - 1]);
    }
  }

  // ---- ownership ----

  /**
   Ownership safety. Start from any valid store with no call in flight and run any
   interleaving of reads, writes and crashes of any number of calls, and of arbitrary
   writes and deletions by other clients. Whenever a call then writes, it touches only
   the object it asked for; if that object existed and changes, a call with an owner was
   allowed to write the very object it overwrites, and the owner-uid annotation stays
   unless the call asked for it to be cleared.
   */
  lemma OwnershipSafety(start: Store, server: Server, run: seq<Action>, id: nat)
    requires Valid(start) && KeepsKind(server)
    requires id in Exec(System(start, map[]), server, run).calls
    ensures var y := Exec(System(start, map[]), server, run);
      var (c, a) := y.calls[id];
      var after := Step(y, server, Write(id)).store;
      forall k :: k in y.store.objects ==>
        && k in after.objects
        && (after.objects[k] != y.store.objects[k] ==>
              && a.WillUpdate? && k == KeyOf(c.desired) && y.store.objects[k] == a.seen
              && (c.owner.Some? ==> MayWrite(c.owner.value, y.store.objects[k]))
              && (!ClearsOwnerUid(c) ==> OwnerUid(after.objects[k]) == OwnerUid(y.store.objects[k])))
  {
    ExecInv(System(start, map[]), server, run);
    var y := Exec(System(start, map[]), server, run);
    FinishFrame(y.store, server, y.calls[id].1);
  }

  /** `owner` controls the object and no other owner's UID is written on it. */
  ghost predicate Held(s: Store, k: Key, owner: Owner) {
    && owner.uid != "" && k in s.objects
    && IsControlledBy(s.objects[k], owner)
    && (OwnerUid(s.objects[k]) == "" || OwnerUid(s.objects[k]) == owner.uid)
  }

  /** Only calls act, and each has an owner with a UID, as every object read from the server has. */
  ghost predicate OwnedCall(c: Call) { c.owner.Some? && c.owner.value.uid != "" }

  ghost predicate OwnedCalls(y: System) {
    forall id :: id in y.calls ==> OwnedCall(y.calls[id].0)
  }

  predicate OwnedAction(a: Action) {
    match a
    case Get(_, c) => c.owner.Some? && c.owner.value.uid != ""
    case Write(_) => true
    case Crash(_) => true
    case _ => false
  }

  lemma StepHeld(y: System, server: Server, a: Action, k: Key, owner: Owner)
    requires Inv(y) && KeepsKind(server) && OwnedCalls(y) && OwnedAction(a)
    requires Held(y.store, k, owner)
    ensures OwnedCalls(Step(y, server, a))
    ensures Held(Step(y, server, a).store, k, owner)
  {
    if a.Write? && a.id in y.calls {
      FinishFrame(y.store, server, y.calls[a.id].1);
    }
  }

  /**
   Control is never taken over: whatever calls, of whatever owners, are already in
   flight or start later, an object held by one owner exists and stays held by it.
   */
  lemma {:induction false} ControllerStable(y: System, server: Server, run: seq<Action>, k: Key, owner: Owner)
    requires Inv(y) && KeepsKind(server) && OwnedCalls(y)
    requires forall a :: a in run ==> OwnedAction(a)
    requires Held(y.store, k, owner)
    ensures OwnedCalls(Exec(y, server, run))
    ensures Held(Exec(y, server, run).store, k, owner)
  {
    if run != [] {
      var before := run[..|run| - 1];
      ControllerStable(y, server, before, k, owner);
      ExecInv(y, server, before);
      StepHeld(Exec(y, server, before), server, run[|run| - 1], k, owner);
    }
  }

  // ---- Secrets filled from random values ----

  ghost predicate KeepsSecrets(server: Server) {
    KeepsKind(server) && forall b: Body :: b.Secret? ==> server(b) == b
  }

  /** A `MutateSecret` write keeps every byte the stored Secret held, in every interleaving. */
  lemma SecretBytesNeverChange(start: Store, server: Server, run: seq<Action>, id: nat)
    requires Valid(start) && KeepsSecrets(server)
    requires id in Exec(System(start, map[]), server, run).calls
    requires Exec(System(start, map[]), server, run).calls[id].0.mutator.MutateSecret?
    ensures var y := Exec(System(start, map[]), server, run);
      var k := KeyOf(y.calls[id].0.desired);
      k in y.store.objects && y.store.objects[k].body.Secret? ==>
        KeepsBytes(y.store.objects[k].body, Step(y, server, Write(id)).store.objects[k].body)
  {
    ExecInv(System(start, map[]), server, run);
  }

  type Data = map<string, string>

  /** All listed keys come from one of the generated data sets. */
  ghost predicate OneGeneration(b: Body, keys: seq<string>, generations: set<Data>) {
    && b.Secret? && b.data.Some?
    && exists g :: g in generations && forall x :: x in keys ==>
         x in g && x in b.data.value && b.data.value[x] == g[x]
  }

  /** A pass for this Secret: fresh values for all the keys, none of them missing. */
  ghost predicate Generates(c: Call, keys: seq<string>, generations: set<Data>) {
    && c.mutator == MutateSecret(keys) && c.desired.body.Secret? && c.desired.body.data.Some?
    && c.desired.body.data.value in generations
    && forall x :: x in keys ==> x in c.desired.body.data.value
  }

  /** Others may delete the Secret, or write it without touching the listed keys. */
  ghost predicate Polite(y: System, a: Action, k: Key, keys: seq<string>, generations: set<Data>) {
    match a
    case Get(_, c) => KeyOf(c.desired) == k ==> Generates(c, keys, generations)
    case OtherPut(o) =>
      KeyOf(o) == k ==>
        && k in y.store.objects && y.store.objects[k].body.Secret? && y.store.objects[k].body.data.Some?
        && o.body.Secret? && o.body.data.Some?
        && forall x :: x in keys && x in y.store.objects[k].body.data.value ==>
             x in o.body.data.value && o.body.data.value[x] == y.store.objects[k].body.data.value[x]
    case _ => true
  }

  ghost predicate PoliteRun(y: System, server: Server, run: seq<Action>, k: Key, keys: seq<string>, generations: set<Data>) {
    forall n {:trigger run[n]} :: 0 <= n < |run| ==> Polite(Exec(y, server, run[..n]), run[n], k, keys, generations)
  }

  ghost predicate SecretInv(y: System, k: Key, keys: seq<string>, generations: set<Data>) {
    && (k in y.store.objects ==> OneGeneration(y.store.objects[k].body, keys, generations))
    && forall id :: id in y.calls && !y.calls[id].1.Finished? && KeyOf(y.calls[id].1.obj) == k ==>
         y.calls[id].1.WillCreate? && OneGeneration(y.calls[id].1.obj.body, keys, generations)
  }

  /** A Secret of one generation has nothing missing, so the call leaves it; an absent one is created whole. */
  lemma BeginOneGeneration(s: Store, c: Call, keys: seq<string>, generations: set<Data>)
    requires Valid(s) && Generates(c, keys, generations)
    requires KeyOf(c.desired) in s.objects ==> OneGeneration(s.objects[KeyOf(c.desired)].body, keys, generations)
    ensures var a := Begin(s, c);
      !a.Finished? ==> a.WillCreate? && OneGeneration(a.obj.body, keys, generations)
  {
    var g := c.desired.body.data.value;
    assert CopyMissing(keys, g, Some(g)) == g;
    if KeyOf(c.desired) in s.objects {
      var data := s.objects[KeyOf(c.desired)].body.data.value;
      assert CopyMissing(keys, data, Some(g)) == data;
    }
  }

  lemma StepSecretInv(y: System, server: Server, a: Action, k: Key, keys: seq<string>, generations: set<Data>)
    requires Inv(y) && KeepsSecrets(server)
    requires SecretInv(y, k, keys, generations) && Polite(y, a, k, keys, generations)
    ensures SecretInv(Step(y, server, a), k, keys, generations)
  {
    match a
    case Get(id, c) =>
      BeginJustified(y.store, c);
      if KeyOf(c.desired) == k {
        BeginOneGeneration(y.store, c, keys, generations);
      }
    case Write(id) =>
      if id in y.calls {
        FinishFrame(y.store, server, y.calls[id].1);
      }
    case OtherPut(o) =>
      if KeyOf(o) == k {
        var g :| g in generations && forall x :: x in keys ==>
          x in g && x in y.store.objects[k].body.data.value && y.store.objects[k].body.data.value[x] == g[x];
        assert forall x :: x in keys ==> x in o.body.data.value && o.body.data.value[x] == g[x];
      }
    case _ =>
  }

  /**
   One generation. However many passes run, each with its own random values, and
   however they interleave: if the keys are lost only with the whole Secret, then the
   listed keys of the stored Secret all come from a single pass.
   */
  lemma {:induction false} SecretOneGeneration(start: Store, server: Server, run: seq<Action>, k: Key,
                                               keys: seq<string>, generations: set<Data>)
    requires Valid(start) && KeepsSecrets(server) && k !in start.objects
    requires PoliteRun(System(start, map[]), server, run, k, keys, generations)
    ensures SecretInv(Exec(System(start, map[]), server, run), k, keys, generations)
  {
    if run != [] {
      var y, before := System(start, map[]), run[..|run| - 1];
      assert forall n {:trigger before[n]} :: 0 <= n < |before| ==> before[n] == run[n] && before[..n] == run[..n];
      SecretOneGeneration(start, server, before, k, keys, generations);
      ExecInv(y, server, before);
      assert Polite(Exec(y, server, before), run[|run| - 1], k, keys, generations);
      StepSecretInv(Exec(y, server, before), server, run[|run| - 1], k, keys, generations);
    }
  }
}
