/**
 When `EnsureResource` succeeds, and what it then leaves: the desired fields, whatever was
 there before.
 */
module EnsureTakes {
  import opened Objects
  import opened Mutate
  import opened Store
  import opened Ensure
  import opened MutateTakes

  /** The owner is of the object's namespace or of none, and no other owner controls the desired object. */
  predicate CanOwn(c: Call) {
    c.owner.Some? ==>
      && (c.owner.value.namespace == "" || c.owner.value.namespace == c.desired.meta.namespace)
      && var current := ControllerOf(c.desired.meta.owners);
         current.Some? ==> current.value.kind == c.owner.value.kind && current.value.name == c.owner.value.name
  }

  /** The object there is the owner's child or retained under its UID, and carries the UID the desired one carries. */
  predicate IsOurs(c: Call, existing: Object) {
    && (c.owner.Some? ==>
          || (ControllerOf(existing.meta.owners).Some? && ControllerOf(existing.meta.owners).value.uid == c.owner.value.uid)
          || OwnerUid(existing) == c.owner.value.uid)
    && (OwnerUid(c.desired) != "" ==> OwnerUid(existing) == OwnerUid(c.desired))
  }

  /** What the mutate function starts from. */
  function Base(s: Store, c: Call): Object
    requires WithOwner(c).Some?
  {
    if KeyOf(c.desired) in s.objects then s.objects[KeyOf(c.desired)] else WithOwner(c).value
  }

  /** The update would be one the server refuses: of a Job's pod template. */
  predicate Refused(s: Store, server: Server, c: Call)
    requires WithOwner(c).Some? && Apply(c.mutator, Base(s, c), WithOwner(c).value).Done?
  {
    var k, o := KeyOf(c.desired), Apply(c.mutator, Base(s, c), WithOwner(c).value).value;
    k in s.objects && o != s.objects[k] && TemplateChanged(s.objects[k].body, server(o.body))
  }

  lemma CanOwnMeans(c: Call)
    ensures CanOwn(c) <==> WithOwner(c).Some?
    ensures WithOwner(c).Some? ==>
      && WithOwner(c).value.body == c.desired.body && KeyOf(WithOwner(c).value) == KeyOf(c.desired)
      && WithOwner(c).value.meta.labels == c.desired.meta.labels
      && WithOwner(c).value.meta.annotations == c.desired.meta.annotations
  {
  }

  /**
   A call nobody disturbs succeeds if and only if the owner can own the object, an object
   that is there is ours, the mutate function accepts it, and the server does not refuse
   the change.
   */
  lemma EnsureSucceeds(s: Store, server: Server, c: Call)
    requires Valid(s)
    ensures !EnsureNow(s, server, c).1.Failed? <==>
      && CanOwn(c) && (KeyOf(c.desired) in s.objects ==> IsOurs(c, s.objects[KeyOf(c.desired)]))
      && WithOwner(c).Some? && Apply(c.mutator, Base(s, c), WithOwner(c).value).Done? && !Refused(s, server, c)
  {
    CanOwnMeans(c);
    if WithOwner(c).Some? && Apply(c.mutator, Base(s, c), WithOwner(c).value).Done? {
      MutatorKeepsIdentity(c.mutator, Base(s, c), WithOwner(c).value);
    }
    hide WithOwner, Apply, ControllerOf, Upsert;
  }

  /**
   And then the object is there as the mutate function left it, but for what the server
   fills in: with the fields of the desired object, its labels and annotations, and, if
   it is new, controlled by the owner.
   */
  lemma EnsureLeaves(s: Store, server: Server, c: Call)
    requires Valid(s) && !EnsureNow(s, server, c).1.Failed?
    ensures WithOwner(c).Some? && Apply(c.mutator, Base(s, c), WithOwner(c).value).Done?
    ensures var t, k := EnsureNow(s, server, c).0, KeyOf(c.desired);
      var o := Apply(c.mutator, Base(s, c), WithOwner(c).value).value;
      && k in t.objects
      && t.objects[k].body == (if k in s.objects && o == s.objects[k] then o.body else server(o.body))
      && t.objects[k].meta.labels == o.meta.labels && t.objects[k].meta.annotations == o.meta.annotations
      && t.objects[k].meta.owners == o.meta.owners
      && BodyTaken(c.mutator, Base(s, c).body, c.desired.body, o.body)
      && MetaTaken(c.mutator, Base(s, c).meta, WithOwner(c).value.meta, o.meta)
      && (k !in s.objects && c.owner.Some? ==> IsControlledBy(t.objects[k], c.owner.value))
  {
    EnsureSucceeds(s, server, c);
    CanOwnMeans(c);
    var d := WithOwner(c).value;
    MutatorKeepsIdentity(c.mutator, Base(s, c), d);
    DesiredTaken(c.mutator, Base(s, c), d);
    if c.owner.Some? {
      WithOwnerControls(c);
    }
    hide WithOwner, Apply, ControllerOf, Upsert, BodyTaken, MetaTaken, TemplateChanged;
  }
}
