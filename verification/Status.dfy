/**
 Status conditions, and the status write that re-reads the object and retries on
 conflict while other clients edit it.
 */
module Status {
  import opened Wrappers

  // ---- conditions ----

  datatype Condition = Condition(kind: string, isTrue: bool, reason: string, message: string, observedGeneration: int)

  const READY := "Ready"

  function Find(cs: seq<Condition>, kind: string): Option<Condition> {
    if cs == [] then None
    else if cs[0].kind == kind then Some(cs[0])
    else Find(cs[1..], kind)
  }

  predicate IsTrue(cs: seq<Condition>, kind: string) {
    var c := Find(cs, kind);
    c.Some? && c.value.isTrue
  }

  /** Replaces the condition of this kind where it stands, or appends it. */
  function SetCondition(cs: seq<Condition>, c: Condition): seq<Condition> {
    if cs == [] then [c]
    else if cs[0].kind == c.kind then [c] + cs[1..]
    else [cs[0]] + SetCondition(cs[1..], c)
  }

  /** One condition per kind: the new one is found, every other kind keeps what it had. */
  lemma {:induction false} SetConditionFinds(cs: seq<Condition>, c: Condition, kind: string)
    ensures Find(SetCondition(cs, c), kind) == if kind == c.kind then Some(c) else Find(cs, kind)
  {
    if cs != [] && cs[0].kind != c.kind {
      SetConditionFinds(cs[1..], c, kind);
      assert SetCondition(cs, c)[1..] == SetCondition(cs[1..], c);
    } else if cs != [] {
      assert SetCondition(cs, c)[1..] == cs[1..];
    }
  }

  lemma {:induction false} SetConditionLength(cs: seq<Condition>, c: Condition)
    ensures |SetCondition(cs, c)| == |cs| + if Find(cs, c.kind).None? then 1 else 0
  {
    if cs != [] && cs[0].kind != c.kind {
      SetConditionLength(cs[1..], c);
    }
  }

  // ---- custom resources with a status ----

  type Name = string

  /** `content` is the spec and metadata, which a status write does not touch; `fields` the status other than conditions. */
  datatype StatusValue = StatusValue(conditions: seq<Condition>, fields: map<string, string>)

  datatype Resource = Resource(version: nat, content: map<string, string>, status: StatusValue)

  datatype Cluster = Cluster(objects: map<Name, Resource>, next: nat)

  datatype WriteResult = Written | NotFound | Conflict

  /** The status subresource: the version must be current, and only the status is stored. */
  function WriteStatus(c: Cluster, n: Name, version: nat, status: StatusValue): (Cluster, WriteResult) {
    if n !in c.objects then (c, NotFound)
    else if c.objects[n].version != version then (c, Conflict)
    else (Cluster(c.objects[n := c.objects[n].(status := status, version := c.next)], c.next + 1), Written)
  }

  const ATTEMPTS := 5

  /** What other clients do, in order: before the first read, before the first write, before the second read, ... */
  type Others = (nat, Cluster) -> Cluster

  function After(c: Cluster, others: Others, n: nat): Cluster {
    if n == 0 then c else others(n - 1, After(c, others, n - 1))
  }

  /** Attempt `i` reads after `2i + 1` actions of the others and writes after one more. */
  function AtRead(c: Cluster, others: Others, i: nat): Cluster { After(c, others, 2 * i + 1) }

  function AtWrite(c: Cluster, others: Others, i: nat): Cluster { After(c, others, 2 * i + 2) }

  /** Attempt `i` reads an object that still needs the write, and someone changes it before the write. */
  ghost predicate Beaten(c: Cluster, others: Others, n: Name, status: StatusValue, i: nat) {
    && n in AtRead(c, others, i).objects && AtRead(c, others, i).objects[n].status != status
    && n in AtWrite(c, others, i).objects
    && AtWrite(c, others, i).objects[n].version != AtRead(c, others, i).objects[n].version
  }

  /** How attempt `i` ends when it is not beaten. */
  ghost predicate Ended(c: Cluster, others: Others, n: Name, status: StatusValue, i: nat, now: Cluster, r: WriteResult) {
    var seen, atWrite := AtRead(c, others, i), AtWrite(c, others, i);
    match r
    case Conflict => false
    case NotFound => n !in now.objects && (now == seen || now == atWrite)
    case Written =>
      && n in seen.objects
      && if seen.objects[n].status == status then now == seen
         else
           && n in atWrite.objects
           && now.objects == atWrite.objects[n := atWrite.objects[n].(status := status, version := atWrite.next)]
  }

  class Client {
    var cluster: Cluster

    method Get(n: Name) returns (r: Option<Resource>)
      ensures r == if n in cluster.objects then Some(cluster.objects[n]) else None
    {
      r := if n in cluster.objects then Some(cluster.objects[n]) else None;
    }

    method UpdateStatusOnce(n: Name, version: nat, status: StatusValue) returns (r: WriteResult)
      modifies this
      ensures (cluster, r) == WriteStatus(old(cluster), n, version, status)
    {
      var (c, result) := WriteStatus(cluster, n, version, status);
      cluster := c;
      return result;
    }

    /** One attempt: `None` asks for another one. */
    method Attempt(n: Name, status: StatusValue, others: Others, i: nat, ghost start: Cluster) returns (r: Option<WriteResult>)
      requires cluster == After(start, others, 2 * i)
      modifies this
      ensures r.None? <==> Beaten(start, others, n, status, i)
      ensures r.None? ==> cluster == After(start, others, 2 * i + 2)
      ensures r.Some? ==> Ended(start, others, n, status, i, cluster, r.value)
    {
      Elapse(others, 2 * i);
      assert cluster == AtRead(start, others, i);
      var latest := Get(n);
      if latest.None? {
        return Some(NotFound);
      }
      if latest.value.status == status {
        return Some(Written);
      }
      Elapse(others, 2 * i + 1);
      assert cluster == AtWrite(start, others, i);
      var result := UpdateStatusOnce(n, latest.value.version, status);
      return if result.Conflict? then None else Some(result);
    }

    /**
     Success after some number of beaten attempts: the stored status is the caller's and
     the rest of the cluster, this object's spec and metadata included, is as the other
     clients left it; a status that is already equal is not written at all. Only five
     beaten attempts in a row end in a conflict, and then nothing was written.
     */
    method UpdateStatus(n: Name, status: StatusValue, others: Others) returns (r: WriteResult)
      modifies this
      ensures r.Conflict? <==> forall i :: 0 <= i < ATTEMPTS ==> Beaten(old(cluster), others, n, status, i)
      ensures r.Conflict? ==> cluster == AtWrite(old(cluster), others, ATTEMPTS - 1)
      ensures !r.Conflict? ==> exists i ::
        && 0 <= i < ATTEMPTS && Ended(old(cluster), others, n, status, i, cluster, r)
        && forall j :: 0 <= j < i ==> Beaten(old(cluster), others, n, status, j)
    {
      for i := 0 to ATTEMPTS
        invariant cluster == After(old(cluster), others, 2 * i)
        invariant forall j :: 0 <= j < i ==> Beaten(old(cluster), others, n, status, j)
      {
        var outcome := Attempt(n, status, others, i, old(cluster));
        if outcome.Some? {
          return outcome.value;
        }
      }
      return Conflict;
    }

    method Elapse(others: Others, step: nat)
      modifies this
      ensures cluster == others(step, old(cluster))
    {
      cluster := others(step, cluster);
    }
  }

  /** Without anyone else writing the object, the first attempt cannot be beaten. */
  lemma QuietNotBeaten(c: Cluster, others: Others, n: Name, status: StatusValue)
    requires forall i: nat, d {:trigger others(i, d)} ::
      (n in others(i, d).objects <==> n in d.objects) && (n in d.objects ==> others(i, d).objects[n] == d.objects[n])
    ensures !Beaten(c, others, n, status, 0)
  {
    assert AtWrite(c, others, 0) == others(1, AtRead(c, others, 0));
  }
}
