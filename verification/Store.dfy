/**
 The API server's object store: creation fails on an existing key, an update on a
 stale version, every accepted change gets a version never used before, and deletion
 waits for finalizers.
 */
module Store {
  import opened Wrappers
  import opened Objects

  datatype Store = Store(objects: map<Key, Object>, next: nat)

  datatype Error =
    | NotFound
    | AlreadyExists
    | Conflict
    | Invalid(reason: string)

  /** Defaulting: the body the server stores for a body it is sent. */
  type Server = Body -> Body

  ghost predicate KeepsKind(server: Server) {
    forall b :: KindOf(server(b)) == KindOf(b)
  }

  ghost predicate Valid(s: Store) {
    forall k :: k in s.objects ==>
      && KeyOf(s.objects[k]) == k && s.objects[k].meta.version < s.next
      && (s.objects[k].meta.deleting ==> s.objects[k].meta.finalizers != {})
  }

  function CreateIn(s: Store, server: Server, o: Object): (Store, Option<Error>) {
    if KeyOf(o) in s.objects then (s, Some(AlreadyExists))
    else
      var stored := Object(o.meta.(incarnation := s.next, version := s.next, deleting := false), server(o.body));
      (Store(s.objects[KeyOf(o) := stored], s.next + 1), None)
  }

  /** A Job's pod template cannot change after creation. */
  predicate TemplateChanged(stored: Body, sent: Body) {
    stored.Job? && sent.Job? && stored.job.template != sent.job.template
  }

  /**
   An update that stores what is there already keeps the version. Whether the object is
   being deleted is the server's to say; the finalizers sent are those read, since no
   mutate function touches them.
   */
  function UpdateIn(s: Store, server: Server, o: Object): (Store, Option<Error>) {
    var k := KeyOf(o);
    if k !in s.objects then (s, Some(NotFound))
    else if s.objects[k].meta.version != o.meta.version then (s, Some(Conflict))
    else if TemplateChanged(s.objects[k].body, server(o.body)) then (s, Some(Invalid("Job template is immutable")))
    else
      var was := s.objects[k].meta;
      var meta := o.meta.(incarnation := was.incarnation, deleting := was.deleting, finalizers := was.finalizers);
      var stored := Object(meta, server(o.body));
      if stored == s.objects[k] then (s, None)
      else (Store(s.objects[k := stored.(meta := stored.meta.(version := s.next))], s.next + 1), None)
  }

  /** `uid` is the optional UID precondition of a deletion. An object with finalizers is only marked. */
  function DeleteFrom(s: Store, k: Key, uid: Option<nat>): (Store, Option<Error>) {
    if k !in s.objects then (s, Some(NotFound))
    else if uid.Some? && uid.value != s.objects[k].meta.incarnation then (s, Some(Conflict))
    else if s.objects[k].meta.finalizers == {} then (s.(objects := s.objects - {k}), None)
    else if s.objects[k].meta.deleting then (s, None)
    else
      var o := s.objects[k];
      (Store(s.objects[k := o.(meta := o.meta.(deleting := true, version := s.next))], s.next + 1), None)
  }

  /** Any other client writing an object, whatever it holds: the last finalizer of one being deleted takes it away. */
  function PutIn(s: Store, o: Object): Store {
    var k := KeyOf(o);
    var deleting := k in s.objects && s.objects[k].meta.deleting;
    var incarnation := if k in s.objects then s.objects[k].meta.incarnation else s.next;
    if deleting && o.meta.finalizers == {} then Store(s.objects - {k}, s.next + 1)
    else Store(s.objects[k := o.(meta := o.meta.(incarnation := incarnation, version := s.next, deleting := deleting))],
               s.next + 1)
  }
}
