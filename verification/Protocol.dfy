/**
 The write protocol against a live API server: `EnsureResource` and the status write
 with retry. Other clients act where the protocol leaves them room, between a read and
 the write that depends on it; what they do is an arbitrary function on the store.
 */
module Protocol {
  import opened Wrappers
  import opened Objects
  import opened Mutate
  import opened Store
  import opened Ensure
  import opened InPlace

  class ApiServer {
    var store: Store
    const server: Server

    constructor (store: Store, server: Server)
      ensures this.store == store && this.server == server
    {
      this.store, this.server := store, server;
    }

    method Get(k: Key) returns (r: Option<Object>)
      ensures r == if k in store.objects then Some(store.objects[k]) else None
    {
      r := if k in store.objects then Some(store.objects[k]) else None;
    }

    method Create(o: Object) returns (error: Option<Error>)
      modifies this
      ensures (store, error) == CreateIn(old(store), server, o)
    {
      var (s, e) := CreateIn(store, server, o);
      store := s;
      return e;
    }

    method Update(o: Object) returns (error: Option<Error>)
      modifies this
      ensures (store, error) == UpdateIn(old(store), server, o)
    {
      var (s, e) := UpdateIn(store, server, o);
      store := s;
      return e;
    }

    method Elapse(others: Store -> Store)
      modifies this
      ensures store == others(old(store))
    {
      store := others(store);
    }
  }

  /**
   Get, ownership checks, mutate, create or update. `others` is what other clients do
   between the read and the write.
   */
  method EnsureResource(api: ApiServer, desired: Resource, owner: Option<Owner>, m: Mutator, others: Store -> Store)
    returns (r: Result)
    modifies api, desired
    ensures var a := Begin(old(api.store), Call(old(desired.Value()), owner, m));
      if a.Finished? then api.store == old(api.store) && r == a.result
      else (api.store, r) == Finish(others(old(api.store)), api.server, a)
  {
    hide Apply, CreateIn, UpdateIn, ControllerOf, Upsert, OwnerUid, IsControlledBy;
    if owner.Some? {
      var meta := SetControllerReference(owner.value, desired.meta);
      if meta.None? {
        return Failed(CannotOwn);
      }
      desired.meta := meta.value;
    }
    var found := api.Get(KeyOf(desired.Value()));
    if found.None? {
      var outcome := RunOnCopy(m, desired.Value(), desired);
      match outcome {
        case Rejected(reason) => return Failed(MutateFailed(reason));
        case Panicked => return Failed(NilMapWrite);
        case Done(o) =>
          api.Elapse(others);
          var error := api.Create(o);
          return if error.None? then Created else Failed(Api(error.value));
      }
    }
    var existing := found.value;
    if owner.Some? && !IsControlledBy(existing, owner.value) && OwnerUid(existing) != owner.value.uid {
      return Failed(NotControlled);
    }
    var uid := OwnerUid(desired.Value());
    if uid != "" && OwnerUid(existing) != uid {
      return Failed(RetainedByOther);
    }
    var outcome := RunOnCopy(m, existing, desired);
    match outcome {
      case Rejected(reason) => return Failed(MutateFailed(reason));
      case Panicked => return Failed(NilMapWrite);
      case Done(mutated) =>
        if mutated == existing {
          return Unchanged;
        }
        api.Elapse(others);
        var error := api.Update(mutated);
        return if error.None? then Updated else Failed(Api(error.value));
    }
  }
}
