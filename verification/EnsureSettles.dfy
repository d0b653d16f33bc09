/**
 Convergence: after one call that succeeds, further calls with the same desired object
 leave the store as it is, even against a server that fills in unset fields.
 */
module EnsureSettles {
  import opened Objects
  import opened Mutate
  import opened MutateLaws
  import opened ServerDefaults
  import opened Store
  import opened Ensure

  predicate Succeeded(r: Result) { !r.Failed? }

  /** What a successful call leaves: an object the next call may write, whose mutation is stored as itself. */
  ghost predicate Settled(s: Store, server: Server, c: Call) {
    var k := KeyOf(c.desired);
    && WithOwner(c).Some? && k in s.objects
    && (c.owner.Some? ==> MayWrite(c.owner.value, s.objects[k]))
    && (OwnerUid(WithOwner(c).value) != "" ==> OwnerUid(s.objects[k]) == OwnerUid(WithOwner(c).value))
    && var again := Apply(c.mutator, s.objects[k], WithOwner(c).value);
       again.Done? && again.value.meta == s.objects[k].meta && server(again.value.body) == s.objects[k].body
  }

  lemma SettledStays(s: Store, server: Server, c: Call)
    requires Valid(s) && Settled(s, server, c)
    ensures EnsureNow(s, server, c).0 == s
    ensures EnsureNow(s, server, c).1 in {Updated, Unchanged}
    ensures server(Apply(c.mutator, s.objects[KeyOf(c.desired)], WithOwner(c).value).value.body)
            == Apply(c.mutator, s.objects[KeyOf(c.desired)], WithOwner(c).value).value.body
            ==> EnsureNow(s, server, c).1 == Unchanged
  {
    var existing := s.objects[KeyOf(c.desired)];
    MutatorKeepsIdentity(c.mutator, existing, WithOwner(c).value);
  }

  /** The metadata a mutate function wrote is not changed by writing it again. */
  lemma MergeMetaStays(m: Mutator, e: Meta, d: Meta, stored: Meta)
    requires stored == MergeMeta(m, e, d).(incarnation := stored.incarnation, version := stored.version, deleting := stored.deleting)
    ensures MergeMeta(m, stored, d) == stored
  {
    assert MergeStringMaps(MergeStringMaps(e.annotations, d.annotations), d.annotations)
        == MergeStringMaps(e.annotations, d.annotations);
  }

  /** The server stores the same body when the mutate function runs on its own answer. */
  ghost predicate StoresAgain(m: Mutator, server: Server, e: Body, d: Body) {
    && MergeBody(m, e, d).Done?
    && var stored := server(MergeBody(m, e, d).value);
       MergeBody(m, stored, d).Done? && server(MergeBody(m, stored, d).value) == stored
  }

  lemma CreatedSettles(s: Store, server: Server, c: Call)
    requires Valid(s) && KeepsKind(server) && !ClearsOwnerUid(c)
    requires EnsureNow(s, server, c).1 == Created
    requires StoresAgain(c.mutator, server, WithOwner(c).value.body, WithOwner(c).value.body)
    ensures Settled(EnsureNow(s, server, c).0, server, c)
  {
    var d := WithOwner(c).value;
    var stored := EnsureNow(s, server, c).0.objects[KeyOf(c.desired)];
    MutatorKeepsIdentity(c.mutator, d, d);
    MergeMetaStays(c.mutator, d.meta, d.meta, stored.meta);
    MetaFixpoint(c.mutator, d.meta);
    if c.owner.Some? {
      WithOwnerControls(c);
    }
  }

  lemma UpdatedSettles(s: Store, server: Server, c: Call)
    requires Valid(s) && KeepsKind(server) && !ClearsOwnerUid(c)
    requires EnsureNow(s, server, c).1 == Updated
    requires StoresAgain(c.mutator, server, s.objects[KeyOf(c.desired)].body, WithOwner(c).value.body)
    ensures Settled(EnsureNow(s, server, c).0, server, c)
  {
    var d, existing := WithOwner(c).value, s.objects[KeyOf(c.desired)];
    var stored := EnsureNow(s, server, c).0.objects[KeyOf(c.desired)];
    BeginJustified(s, c);
    MutatorKeepsIdentity(c.mutator, existing, d);
    MergeMetaStays(c.mutator, existing.meta, d.meta, stored.meta);
    if c.owner.Some? {
      WithOwnerControls(c);
    }
  }

  lemma CallSettles(s: Store, server: Server, c: Call)
    requires Valid(s) && KeepsKind(server) && !ClearsOwnerUid(c)
    requires Succeeded(EnsureNow(s, server, c).1)
    requires forall e :: MergeBody(c.mutator, e, c.desired.body).Done? ==>
               StoresAgain(c.mutator, server, e, c.desired.body)
    ensures EnsureNow(EnsureNow(s, server, c).0, server, c).0 == EnsureNow(s, server, c).0
    ensures EnsureNow(EnsureNow(s, server, c).0, server, c).1 in {Updated, Unchanged}
    ensures (forall b :: server(b) == b) ==> EnsureNow(EnsureNow(s, server, c).0, server, c).1 == Unchanged
  {
    var s1 := EnsureNow(s, server, c).0;
    FinishValid(s, server, Begin(s, c));
    match EnsureNow(s, server, c).1
    case Created =>
      CreatedSettles(s, server, c);
      SettledStays(s1, server, c);
    case Updated =>
      UpdatedSettles(s, server, c);
      SettledStays(s1, server, c);
    case _ =>
  }

  function EnsureTimes(s: Store, server: Server, c: Call, n: nat): Store {
    if n == 0 then s else EnsureNow(EnsureTimes(s, server, c, n - 1), server, c).0
  }

  /**
   Convergence. One successful call fixes the store: any number of further calls with
   the same desired object change nothing in it, not even a version.
   */
  lemma {:induction false} EnsureConverges(s: Store, le: Completion, server: Server, c: Call, n: nat)
    requires Valid(s) && Filler(le, server) && KeepsKind(server)
    requires WellFormed(c.desired.body) && ServicePortsNamed(c.desired.body) && !ClearsOwnerUid(c)
    ensures Succeeded(EnsureNow(s, server, c).1) ==> EnsureTimes(s, server, c, n + 1) == EnsureNow(s, server, c).0
  {
    if n == 0 {
      assert EnsureTimes(s, server, c, 0) == s;
    } else if Succeeded(EnsureNow(s, server, c).1) {
      EnsureConverges(s, le, server, c, n - 1);
      forall e | MergeBody(c.mutator, e, c.desired.body).Done?
        ensures StoresAgain(c.mutator, server, e, c.desired.body)
      {
        StoredBodyStays(c.mutator, le, server, e, c.desired.body);
      }
      CallSettles(s, server, c);
    }
  }

  /** A server that stores what it is sent: the second call finds nothing to do. */
  lemma SecondEnsureUnchanged(s: Store, server: Server, c: Call)
    requires Valid(s) && forall b :: server(b) == b
    requires WellFormed(c.desired.body) && !ClearsOwnerUid(c)
    requires Succeeded(EnsureNow(s, server, c).1)
    ensures EnsureNow(EnsureNow(s, server, c).0, server, c) == (EnsureNow(s, server, c).0, Unchanged)
  {
    forall e | MergeBody(c.mutator, e, c.desired.body).Done?
      ensures StoresAgain(c.mutator, server, e, c.desired.body)
    {
      BodyIdempotent(c.mutator, e, c.desired.body);
    }
    CallSettles(s, server, c);
  }
}
