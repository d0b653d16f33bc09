/**
 `EnsureResource` cut at its API calls: `Begin` reads and decides, `Finish` writes.
 Between the two, any other client may act.
 */
module Ensure {
  import opened Wrappers
  import opened Objects
  import opened Mutate
  import opened Store

  datatype Failure =
    | CannotOwn
    | NotControlled
    | RetainedByOther
    | MutateFailed(reason: string)
    | NilMapWrite
    | Api(error: Error)

  datatype Result = Created | Updated | Unchanged | Failed(failure: Failure)

  datatype Call = Call(desired: Object, owner: Option<Owner>, mutator: Mutator)

  /** What a call has decided after reading the store; `seen` is the object it read. */
  datatype Attempt =
    | Finished(result: Result)
    | WillCreate(obj: Object)
    | WillUpdate(obj: Object, seen: Object)

  predicate SameReferent(a: OwnerRef, b: OwnerRef) {
    a.kind == b.kind && a.name == b.name
  }

  function Upsert(owners: seq<OwnerRef>, ref: OwnerRef): seq<OwnerRef> {
    if owners == [] then [ref]
    else if SameReferent(owners[0], ref) then [ref] + owners[1..]
    else [owners[0]] + Upsert(owners[1..], ref)
  }

  /** Fails across namespaces and on an object some other owner already controls. */
  function SetControllerReference(owner: Owner, meta: Meta): Option<Meta> {
    var ref := OwnerRef(owner.kind, owner.name, owner.uid, true);
    var current := ControllerOf(meta.owners);
    if owner.namespace != "" && owner.namespace != meta.namespace then None
    else if current.Some? && !SameReferent(current.value, ref) then None
    else Some(meta.(owners := Upsert(meta.owners, ref)))
  }

  function WithOwner(c: Call): Option<Object> {
    if c.owner.None? then Some(c.desired)
    else
      var meta := SetControllerReference(c.owner.value, c.desired.meta);
      if meta.None? then None else Some(c.desired.(meta := meta.value))
  }

  /** The first check: the object is the owner's child, or is retained under the owner's UID. */
  predicate MayWrite(owner: Owner, existing: Object) {
    IsControlledBy(existing, owner) || OwnerUid(existing) == owner.uid
  }

  function Begin(s: Store, c: Call): Attempt {
    var desired := WithOwner(c);
    if desired.None? then Finished(Failed(CannotOwn))
    else if KeyOf(c.desired) !in s.objects then
      match Apply(c.mutator, desired.value, desired.value)
      case Done(o) => WillCreate(o)
      case Rejected(reason) => Finished(Failed(MutateFailed(reason)))
      case Panicked => Finished(Failed(NilMapWrite))
    else
      var existing := s.objects[KeyOf(c.desired)];
      if c.owner.Some? && !MayWrite(c.owner.value, existing) then Finished(Failed(NotControlled))
      else if OwnerUid(desired.value) != "" && OwnerUid(existing) != OwnerUid(desired.value)
        then Finished(Failed(RetainedByOther))
      else
        match Apply(c.mutator, existing, desired.value)
        case Rejected(reason) => Finished(Failed(MutateFailed(reason)))
        case Panicked => Finished(Failed(NilMapWrite))
        case Done(o) => if o == existing then Finished(Unchanged) else WillUpdate(o, existing)
  }

  function Finish(s: Store, server: Server, a: Attempt): (Store, Result) {
    match a
    case Finished(r) => (s, r)
    case WillCreate(o) =>
      var (s', error) := CreateIn(s, server, o);
      (s', if error.None? then Created else Failed(Api(error.value)))
    case WillUpdate(o, _) =>
      var (s', error) := UpdateIn(s, server, o);
      (s', if error.None? then Updated else Failed(Api(error.value)))
  }

  /** A call no other client interrupts. */
  function EnsureNow(s: Store, server: Server, c: Call): (Store, Result) {
    Finish(s, server, Begin(s, c))
  }

  // ---- one call ----

  lemma {:induction false} UpsertController(owners: seq<OwnerRef>, ref: OwnerRef)
    requires ref.controller
    requires ControllerOf(owners).Some? ==> SameReferent(ControllerOf(owners).value, ref)
    ensures ControllerOf(Upsert(owners, ref)) == Some(ref)
  {
    if owners != [] && !SameReferent(owners[0], ref) {
      UpsertController(owners[1..], ref);
      assert Upsert(owners, ref)[1..] == Upsert(owners[1..], ref);
    }
  }

  /** After `SetControllerReference` the owner controls the desired object. */
  lemma WithOwnerControls(c: Call)
    requires c.owner.Some? && WithOwner(c).Some?
    ensures IsControlledBy(WithOwner(c).value, c.owner.value)
  {
    var owner := c.owner.value;
    UpsertController(c.desired.meta.owners, OwnerRef(owner.kind, owner.name, owner.uid, true));
  }

  /** No mutate function renames an object, moves its version or invents an owner or an owner-uid. */
  lemma MutatorKeepsIdentity(m: Mutator, e: Object, d: Object)
    requires Apply(m, e, d).Done?
    ensures var o := Apply(m, e, d).value;
      && KeyOf(o) == KeyOf(e) && o.meta.version == e.meta.version && o.meta.incarnation == e.meta.incarnation
      && (o.meta.owners == e.meta.owners || o.meta.owners == d.meta.owners)
      && (OwnerUid(o) == OwnerUid(e) || (OWNER_UID in d.meta.annotations && OwnerUid(o) == OwnerUid(d)))
  {
  }

  /** The desired object names the annotation but leaves it empty, which the second check lets pass. */
  predicate ClearsOwnerUid(c: Call) {
    && OWNER_UID in c.desired.meta.annotations && OwnerUid(c.desired) == ""
    && !c.mutator.MutateSecret? && !c.mutator.MutateClusterRole? && !c.mutator.MutateClusterRoleBinding?
  }

  /**
   An update leaves the owner-uid annotation as it was, with exactly one exception:
   the desired object carries the annotation with an empty value, and the mutate
   function merges annotations. Then a set annotation is cleared.
   */
  lemma OwnerUidFixed(s: Store, c: Call)
    requires Begin(s, c).WillUpdate?
    ensures var a := Begin(s, c);
      OwnerUid(a.obj) != OwnerUid(a.seen) <==> ClearsOwnerUid(c) && OwnerUid(a.seen) != ""
  {
    var a := Begin(s, c);
    MutatorKeepsIdentity(c.mutator, a.seen, WithOwner(c).value);
  }

  /** Such a call exists: with an empty value in the desired object the stored UID is lost. */
  lemma OwnerUidCleared(meta: Meta, config: map<string, string>, uid: string)
    requires uid != "" && !meta.deleting
    ensures var body := ConfigMap(config, map[]);
      var existing := Object(meta.(annotations := map[OWNER_UID := uid]), body);
      var c := Call(Object(meta.(annotations := map[OWNER_UID := ""]), body), None, MutateConfigMap);
      var a := Begin(Store(map[KeyOf(existing) := existing], meta.version + 1), c);
      a.WillUpdate? && OwnerUid(a.seen) == uid && OwnerUid(a.obj) == ""
  {
  }

  /** Every key a Secret held is still there with the same bytes. */
  ghost predicate KeepsBytes(before: Body, after: Body) {
    && before.Secret? && after.Secret?
    && (before.data.Some? ==>
          && after.data.Some?
          && forall k :: k in before.data.value ==> k in after.data.value && after.data.value[k] == before.data.value[k])
  }

  /** What an update may have been decided on. */
  ghost predicate Justified(c: Call, a: Attempt) {
    && (!a.Finished? ==> KeyOf(a.obj) == KeyOf(c.desired))
    && (a.WillUpdate? ==>
          && KeyOf(a.seen) == KeyOf(c.desired) && a.obj.meta.version == a.seen.meta.version
          && (c.owner.Some? ==> MayWrite(c.owner.value, a.seen))
          && (OwnerUid(a.obj) == OwnerUid(a.seen) || (ClearsOwnerUid(c) && OwnerUid(a.obj) == ""))
          && (a.obj.meta.owners == a.seen.meta.owners
              || (c.owner.Some? ==> IsControlledBy(a.obj, c.owner.value)))
          && (c.mutator.MutateSecret? ==> KeepsBytes(a.seen.body, a.obj.body)))
  }

  lemma BeginJustified(s: Store, c: Call)
    requires Valid(s)
    ensures Justified(c, Begin(s, c))
    ensures Begin(s, c).WillUpdate? ==>
      KeyOf(c.desired) in s.objects && Begin(s, c).seen == s.objects[KeyOf(c.desired)]
  {
    var a := Begin(s, c);
    if a.WillCreate? {
      MutatorKeepsIdentity(c.mutator, WithOwner(c).value, WithOwner(c).value);
    }
    if a.WillUpdate? {
      OwnerUidFixed(s, c);
      MutatorKeepsIdentity(c.mutator, a.seen, WithOwner(c).value);
      if c.owner.Some? {
        WithOwnerControls(c);
      }
    }
  }

  /** A write touches no key but the one of the object it writes. */
  lemma FinishFrame(s: Store, server: Server, a: Attempt)
    ensures var s' := Finish(s, server, a).0;
      && s.objects.Keys <= s'.objects.Keys && s.next <= s'.next
      && forall k :: k in s'.objects && (a.Finished? || k != KeyOf(a.obj)) ==>
           k in s.objects && s'.objects[k] == s.objects[k]
  {
  }

  lemma FinishValid(s: Store, server: Server, a: Attempt)
    requires Valid(s) && KeepsKind(server)
    ensures Valid(Finish(s, server, a).0)
  {
  }
}
