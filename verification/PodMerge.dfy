/**
 `mergeContainers` on the heap. A container is copied by value, but its probes are
 shared objects: merging writes through the pointers of the existing containers. The
 result is what `Mutate.MergeContainers` says, and no two result containers share a probe.
 */
module PodMerge {
  import opened Wrappers
  import opened Objects
  import opened Mutate

  class Probe {
    var value: ProbeValue

    constructor (p: ProbeValue)
      ensures value == p
    {
      value := p;
    }
  }

  datatype Three = Three(liveness: Option<ProbeValue>, readiness: Option<ProbeValue>, startup: Option<ProbeValue>)

  function WithProbes(c: Container, p: Three): Container {
    c.(liveness := p.liveness, readiness := p.readiness, startup := p.startup)
  }

  function MergeThree(existing: Three, desired: Three): Three {
    Three(Mutate.MergeProbe(existing.liveness, desired.liveness),
          Mutate.MergeProbe(existing.readiness, desired.readiness),
          Mutate.MergeProbe(existing.startup, desired.startup))
  }

  /** The fields that are not probes. */
  function MergeFields(existing: Container, desired: Container): Container {
    desired.(terminationMessagePath := OrElse(desired.terminationMessagePath, existing.terminationMessagePath),
             terminationMessagePolicy := OrElse(desired.terminationMessagePolicy, existing.terminationMessagePolicy),
             serverSet := existing.serverSet)
  }

  lemma MergeByParts(e: Container, p: Three, d: Container, q: Three)
    ensures Mutate.MergeContainer(WithProbes(e, p), WithProbes(d, q)) == WithProbes(MergeFields(e, d), MergeThree(p, q))
  {
  }

  /** A container struct: its own fields, and three pointers. The probe fields of `fields` are not used. */
  datatype Live = Live(fields: Container, liveness: Probe?, readiness: Probe?, startup: Probe?) {
    ghost predicate Points(p: Probe?) {
      p == liveness || p == readiness || p == startup
    }

    /** The three pointers do not alias. */
    ghost predicate Own() {
      && (liveness != null ==> liveness != readiness && liveness != startup)
      && (readiness != null ==> readiness != startup)
    }

    ghost function ProbeValues(): Three
      reads liveness, readiness, startup
    {
      Three(ViewProbe(liveness), ViewProbe(readiness), ViewProbe(startup))
    }

    ghost function View(): Container
      reads liveness, readiness, startup
    {
      WithProbes(fields, ProbeValues())
    }
  }

  ghost function ViewProbe(p: Probe?): Option<ProbeValue>
    reads p
  {
    if p == null then None else Some(p.value)
  }

  ghost function AllProbes(cs: seq<Live>): set<Probe?> {
    (set i | 0 <= i < |cs| :: cs[i].liveness) + (set i | 0 <= i < |cs| :: cs[i].readiness)
    + (set i | 0 <= i < |cs| :: cs[i].startup)
  }

  ghost function Views(cs: seq<Live>): (r: seq<Container>)
    reads AllProbes(cs)
    ensures |r| == |cs|
  {
    seq(|cs|, i requires 0 <= i < |cs| reads AllProbes(cs) => cs[i].View())
  }

  ghost predicate Free(p: Probe?, c: Live) {
    p == null || !c.Points(p)
  }

  ghost predicate Apart(a: Live, b: Live) {
    Free(a.liveness, b) && Free(a.readiness, b) && Free(a.startup, b)
  }

  /** No probe is shared within or between containers. */
  ghost predicate Separate(cs: seq<Live>) {
    && (forall i :: 0 <= i < |cs| ==> cs[i].Own())
    && (forall i, j :: 0 <= i < j < |cs| ==> Apart(cs[i], cs[j]))
  }

  /** Writes through `existing`; a probe only `desired` has is copied; without one in `desired`, the old one stays. */
  method MergeProbe(existing: Probe?, desired: Probe?) returns (r: Probe?)
    requires existing != null ==> existing != desired
    modifies existing
    ensures ViewProbe(r) == Mutate.MergeProbe(old(ViewProbe(existing)), ViewProbe(desired))
    ensures ViewProbe(desired) == old(ViewProbe(desired))
    ensures r != null && r != existing ==> fresh(r)
  {
    if desired == null {
      return existing;
    }
    if existing == null {
      r := new Probe(desired.value);
      return;
    }
    existing.value := existing.value.(handler := desired.value.handler);
    existing.value := existing.value.(initialDelaySeconds := desired.value.initialDelaySeconds);
    existing.value := existing.value.(terminationGracePeriodSeconds := desired.value.terminationGracePeriodSeconds);
    existing.value := existing.value.(periodSeconds := desired.value.periodSeconds);
    existing.value := existing.value.(timeoutSeconds := desired.value.timeoutSeconds);
    existing.value := existing.value.(failureThreshold := desired.value.failureThreshold);
    if desired.value.successThreshold != 0 {
      existing.value := existing.value.(successThreshold := desired.value.successThreshold);
    }
    return existing;
  }

  method KeepIfUnset(existing: Raw, desired: Raw) returns (r: Raw)
    ensures r == OrElse(desired, existing)
  {
    if desired == UNSET && existing != UNSET {
      r := existing;
    } else {
      r := desired;
    }
  }

  method MergeContainer(existing: Live, desired: Live) returns (e: Live)
    requires existing.Own() && Apart(existing, desired)
    modifies existing.liveness, existing.readiness, existing.startup
    ensures e.fields == MergeFields(existing.fields, desired.fields)
    ensures e.ProbeValues() == MergeThree(old(existing.ProbeValues()), old(desired.ProbeValues()))
    ensures e.Own() && From(e, existing)
  {
    var d, f := desired.fields, existing.fields;
    var liveness := MergeProbe(existing.liveness, desired.liveness);
    var readiness := MergeProbe(existing.readiness, desired.readiness);
    var startup := MergeProbe(existing.startup, desired.startup);
    var path := KeepIfUnset(f.terminationMessagePath, d.terminationMessagePath);
    var policy := KeepIfUnset(f.terminationMessagePolicy, d.terminationMessagePolicy);
    e := Live(d.(terminationMessagePath := path, terminationMessagePolicy := policy, serverSet := f.serverSet),
              liveness, readiness, startup);
  }

  /** Each probe of `c` is null, new, or the target's. */
  twostate predicate From(new c: Live, target: Live) {
    && (c.liveness == null || fresh(c.liveness) || c.liveness == target.liveness)
    && (c.readiness == null || fresh(c.readiness) || c.readiness == target.readiness)
    && (c.startup == null || fresh(c.startup) || c.startup == target.startup)
  }

  /** No probe of the one list is one of the other. */
  ghost predicate AllApart(a: seq<Live>, b: seq<Live>) {
    forall i, j :: 0 <= i < |a| && 0 <= j < |b| ==> Apart(a[i], b[j])
  }

  ghost predicate DistinctNames(cs: seq<Live>) {
    forall i, j :: 0 <= i < j < |cs| ==> cs[i].fields.name != cs[j].fields.name
  }

  /** Containers by name; different names share no probe. */
  ghost predicate Index(existing: seq<Live>, byName: map<string, Live>) {
    && (forall n :: n in byName ==> byName[n] in existing && byName[n].fields.name == n && byName[n].Own())
    && (forall n, o :: n in byName && o in byName && n != o ==> Apart(byName[n], byName[o]))
  }

  lemma Disjoint(existing: seq<Live>, a: Live, b: Live)
    requires Separate(existing) && a in existing && b in existing && a.fields.name != b.fields.name
    ensures Apart(a, b)
  {
    var i :| 0 <= i < |existing| && existing[i] == a;
    var j :| 0 <= j < |existing| && existing[j] == b;
    assert if i < j then Apart(existing[i], existing[j]) else Apart(existing[j], existing[i]);
  }

  /** Of two containers with one name the later is kept. */
  method IndexByName(existing: seq<Live>) returns (byName: map<string, Live>)
    requires Separate(existing)
    ensures Index(existing, byName)
    ensures forall n :: FindContainer(Views(existing), n) == if n in byName then Some(byName[n].View()) else None
  {
    byName := map[];
    for i := 0 to |existing|
      invariant forall n :: n in byName ==> byName[n] in existing && byName[n].fields.name == n && byName[n].Own()
      invariant forall n :: FindContainer(Views(existing)[..i], n) == if n in byName then Some(byName[n].View()) else None
    {
      assert Views(existing)[..i + 1][..i] == Views(existing)[..i];
      byName := byName[existing[i].fields.name := existing[i]];
    }
    assert Views(existing)[..|existing|] == Views(existing);
    forall n, o | n in byName && o in byName && n != o ensures Apart(byName[n], byName[o]) {
      Disjoint(existing, byName[n], byName[o]);
    }
  }

  /** The namesake of `d`, or a new container that has only the name. */
  function Target(byName: map<string, Live>, d: Live): Live {
    if d.fields.name in byName then byName[d.fields.name]
    else Live(NO_CONTAINER.(name := d.fields.name), null, null, null)
  }

  /** The targets of the desired containers, in their order: no probe shared among them or with a desired one. */
  ghost predicate Targets(byName: map<string, Live>, desired: seq<Live>, targets: seq<Live>) {
    && |targets| == |desired|
    && (forall j :: 0 <= j < |desired| ==> targets[j] == Target(byName, desired[j]))
    && Separate(targets)
    && (forall i, j :: 0 <= i < |targets| && 0 <= j < |desired| ==> Apart(targets[i], desired[j]))
  }

  /** One round: the new result shares no probe with the earlier ones, and nothing else is seen to change. */
  method MergeNext(byName: map<string, Live>, desired: seq<Live>, i: nat, done: seq<Live>, ghost targets: seq<Live>,
                   ghost others: seq<Live>) returns (r: Live)
    requires Targets(byName, desired, targets) && |done| == i < |desired| && AllApart(targets, others)
    requires forall j, k :: 0 <= j < i <= k < |targets| ==> Apart(done[j], targets[k])
    modifies targets[i].liveness, targets[i].readiness, targets[i].startup
    ensures r.View() == Mutate.MergeContainer(old(targets[i].View()), old(desired[i].View()))
    ensures r.Own() && AllApart([r], others) && forall k :: i < k < |targets| ==> Apart(r, targets[k])
    ensures forall j :: 0 <= j < i ==> Apart(done[j], r) && done[j].ProbeValues() == old(done[j].ProbeValues())
    ensures forall j :: 0 <= j < |targets| && j != i ==> targets[j].ProbeValues() == old(targets[j].ProbeValues())
    ensures forall j :: 0 <= j < |desired| ==> desired[j].ProbeValues() == old(desired[j].ProbeValues())
  {
    assert targets[i].Own() && targets[i] == Target(byName, desired[i]);
    hide Mutate.MergeContainer, Mutate.MergeProbe;
    r := MergeContainer(Target(byName, desired[i]), desired[i]);
    MergeByParts(targets[i].fields, old(targets[i].ProbeValues()), desired[i].fields, old(desired[i].ProbeValues()));
  }

  /** The probes a caller may still see through these containers are the recorded ones. */
  ghost predicate Recorded(cs: seq<Live>, from: nat, probes: seq<Three>)
    reads AllProbes(cs)
  {
    |cs| == |probes| && forall j :: from <= j < |cs| ==> cs[j].ProbeValues() == probes[j]
  }

  lemma OneMoreApart(a: seq<Live>, r: Live, b: seq<Live>)
    requires AllApart(a, b) && AllApart([r], b)
    ensures AllApart(a + [r], b)
  {
    assert [r][0] == r;
  }

  method MergeAll(byName: map<string, Live>, desired: seq<Live>, ghost targets: seq<Live>, ghost others: seq<Live>)
    returns (result: seq<Live>)
    requires Targets(byName, desired, targets) && AllApart(targets, others)
    modifies AllProbes(targets)
    ensures |result| == |desired|
    ensures forall j :: 0 <= j < |desired| ==> desired[j].ProbeValues() == old(desired[j].ProbeValues())
    ensures forall j :: 0 <= j < |desired| ==>
      result[j].View() == Mutate.MergeContainer(old(targets[j].View()), old(desired[j].View()))
    ensures Separate(result) && AllApart(result, others)
  {
    ghost var t := seq(|targets|, j requires 0 <= j < |targets| reads AllProbes(targets) => targets[j].ProbeValues());
    ghost var d := seq(|desired|, j requires 0 <= j < |desired| reads AllProbes(desired) => desired[j].ProbeValues());
    ghost var views: seq<Container> := [];
    result := [];
    for i := 0 to |desired|
      invariant |result| == i && |views| == i
      invariant Recorded(targets, i, t) && Recorded(desired, 0, d)
      invariant forall j :: 0 <= j < i ==>
        views[j] == Mutate.MergeContainer(WithProbes(targets[j].fields, t[j]), WithProbes(desired[j].fields, d[j]))
      invariant forall j :: 0 <= j < i ==> result[j].View() == views[j]
      invariant Separate(result)
      invariant AllApart(result, others)
      invariant forall j, k :: 0 <= j < i <= k < |targets| ==> Apart(result[j], targets[k])
    {
      var r := MergeNext(byName, desired, i, result, targets, others);
      OneMoreApart(result, r, others);
      views := views + [r.View()];
      result := result + [r];
    }
  }

  /** A nil target owns nothing, and different names have different owners. */
  lemma TargetsHold(existing: seq<Live>, byName: map<string, Live>, desired: seq<Live>, targets: seq<Live>)
    requires Index(existing, byName) && AllApart(existing, desired) && DistinctNames(desired)
    requires |targets| == |desired| && forall j :: 0 <= j < |desired| ==> targets[j] == Target(byName, desired[j])
    ensures Targets(byName, desired, targets)
    ensures forall p :: p in AllProbes(targets) ==> p == null || p in AllProbes(existing)
  {
    forall i, j | 0 <= i < |targets| && 0 <= j < |desired| ensures Apart(targets[i], desired[j]) {
      if desired[i].fields.name in byName {
        var k :| 0 <= k < |existing| && existing[k] == targets[i];
        assert Apart(existing[k], desired[j]);
      }
    }
    forall i, j | 0 <= i < j < |targets| ensures Apart(targets[i], targets[j]) {
      var m, n := desired[i].fields.name, desired[j].fields.name;
      if m in byName && n in byName {
        assert Apart(byName[m], byName[n]);
      }
    }
    forall p | p in AllProbes(targets) ensures p == null || p in AllProbes(existing) {
      var i :| 0 <= i < |targets| && targets[i].Points(p);
      if desired[i].fields.name in byName {
        var k :| 0 <= k < |existing| && existing[k] == targets[i];
      }
    }
  }

  lemma TargetsApart(existing: seq<Live>, byName: map<string, Live>, desired: seq<Live>, targets: seq<Live>, others: seq<Live>)
    requires Index(existing, byName) && AllApart(existing, others)
    requires |targets| == |desired| && forall j :: 0 <= j < |desired| ==> targets[j] == Target(byName, desired[j])
    ensures AllApart(targets, others)
  {
    forall i, j | 0 <= i < |targets| && 0 <= j < |others| ensures Apart(targets[i], others[j]) {
      if desired[i].fields.name in byName {
        var k :| 0 <= k < |existing| && existing[k] == targets[i];
        assert Apart(existing[k], others[j]);
      }
    }
  }

  lemma TargetViews(existing: seq<Live>, byName: map<string, Live>, desired: seq<Live>, targets: seq<Live>)
    requires forall n :: FindContainer(Views(existing), n) == if n in byName then Some(byName[n].View()) else None
    requires |targets| == |desired| && forall j :: 0 <= j < |desired| ==> targets[j] == Target(byName, desired[j])
    ensures Views(targets) == Namesakes(Views(existing), Views(desired))
  {
  }

  function Namesakes(existing: seq<Container>, desired: seq<Container>): (r: seq<Container>)
    ensures |r| == |desired|
  {
    seq(|desired|, j requires 0 <= j < |desired| =>
          FindContainer(existing, desired[j].name).GetOr(NO_CONTAINER.(name := desired[j].name)))
  }

  /** Merging each container with its namesake is merging the lists. */
  lemma NamesakesMerged(existing: seq<Container>, desired: seq<Container>, result: seq<Container>)
    requires desired != [] && |result| == |desired|
    requires forall j :: 0 <= j < |desired| ==>
               result[j] == Mutate.MergeContainer(Namesakes(existing, desired)[j], desired[j])
    ensures result == Mutate.MergeContainers(existing, desired)
  {
  }

  /**
   The merged containers are those of `Mutate.MergeContainers`. The desired containers
   are untouched, and in the result no write to one container's probe shows in another.
   */
  method MergeContainers(existing: seq<Live>, desired: seq<Live>, ghost others: seq<Live>) returns (result: seq<Live>)
    requires Separate(existing) && AllApart(existing, desired) && AllApart(existing, others) && DistinctNames(desired)
    modifies AllProbes(existing)
    ensures Views(result) == Mutate.MergeContainers(old(Views(existing)), old(Views(desired)))
    ensures Views(desired) == old(Views(desired))
    ensures Separate(result) && AllApart(result, others)
  {
    if desired == [] {
      return existing;
    }
    hide Separate, Targets, Index, Apart, AllApart, Mutate.MergeContainer;
    ghost var e, d := Views(existing), Views(desired);
    var byName := IndexByName(existing);
    assert Views(existing) == e && Views(desired) == d;
    ghost var targets := seq(|desired|, j requires 0 <= j < |desired| => Target(byName, desired[j]));
    TargetsHold(existing, byName, desired, targets);
    TargetsApart(existing, byName, desired, targets, others);
    TargetViews(existing, byName, desired, targets);
    ghost var t := Views(targets);
    result := MergeAll(byName, desired, targets, others);
    assert Views(desired) == d;
    assert forall j :: 0 <= j < |desired| ==> Views(result)[j] == Mutate.MergeContainer(t[j], d[j]);
    NamesakesMerged(e, d, Views(result));
  }

  // ---- the whole pod template ----

  /** A pod template: its own fields, and the two container lists. The lists in `fields` are not used. */
  datatype LiveTemplate = LiveTemplate(fields: PodTemplate, init: seq<Live>, containers: seq<Live>) {
    ghost function View(): PodTemplate
      reads AllProbes(init), AllProbes(containers)
    {
      fields.(spec := fields.spec.(initContainers := Views(init), containers := Views(containers)))
    }

    /** No probe is shared within or between the lists. */
    ghost predicate Own() {
      && Separate(init) && Separate(containers)
      && AllApart(init, containers)
    }
  }

  /** Lists that share no probe see no writes through each other. */
  lemma ProbesApart(a: seq<Live>, b: seq<Live>)
    requires AllApart(a, b)
    ensures forall p :: p in AllProbes(a) && p in AllProbes(b) ==> p == null
  {
    forall p | p in AllProbes(a) && p in AllProbes(b) ensures p == null {
      var i :| 0 <= i < |a| && a[i].Points(p);
      var j :| 0 <= j < |b| && b[j].Points(p);
      assert Apart(a[i], b[j]);
    }
  }

  lemma ApartBack(a: seq<Live>, b: seq<Live>)
    requires AllApart(a, b)
    ensures AllApart(b, a)
  {
    forall i, j | 0 <= i < |b| && 0 <= j < |a| ensures Apart(b[i], a[j]) {
      assert Apart(a[j], b[i]);
    }
  }

  /** No probe of the one template is one of the other. */
  ghost predicate TemplatesApart(a: LiveTemplate, b: LiveTemplate) {
    && AllApart(a.init, b.init) && AllApart(a.init, b.containers)
    && AllApart(a.containers, b.init) && AllApart(a.containers, b.containers)
  }

  /** One of two lists; the merge does not show in the other, nor in the desired ones. */
  method MergeOne(existing: seq<Live>, desired: seq<Live>, ghost other: seq<Live>, ghost otherDesired: seq<Live>)
    returns (result: seq<Live>)
    requires Separate(existing) && AllApart(existing, desired) && DistinctNames(desired)
    requires AllApart(existing, other) && AllApart(existing, otherDesired)
    modifies AllProbes(existing)
    ensures Views(result) == Mutate.MergeContainers(old(Views(existing)), old(Views(desired)))
    ensures Views(desired) == old(Views(desired)) && Views(other) == old(Views(other))
    ensures Views(otherDesired) == old(Views(otherDesired))
    ensures Separate(result) && AllApart(other, result)
  {
    hide Separate, Apart, AllApart, DistinctNames, Mutate.MergeContainers;
    ProbesApart(existing, other);
    ProbesApart(existing, otherDesired);
    result := MergeContainers(existing, desired, other);
    ApartBack(result, other);
  }

  /** The two lists, one after the other. */
  method MergeLists(existing: LiveTemplate, desired: LiveTemplate) returns (init: seq<Live>, containers: seq<Live>)
    requires existing.Own() && TemplatesApart(existing, desired)
    requires DistinctNames(desired.init) && DistinctNames(desired.containers)
    modifies AllProbes(existing.init), AllProbes(existing.containers)
    ensures Views(init) == Mutate.MergeContainers(old(Views(existing.init)), old(Views(desired.init)))
    ensures Views(containers) == Mutate.MergeContainers(old(Views(existing.containers)), old(Views(desired.containers)))
    ensures Views(desired.init) == old(Views(desired.init)) && Views(desired.containers) == old(Views(desired.containers))
    ensures Separate(init) && Separate(containers) && AllApart(init, containers)
  {
    hide Separate, Apart, AllApart, DistinctNames, Mutate.MergeContainers, Views, AllProbes;
    ApartBack(existing.init, existing.containers);
    init := MergeOne(existing.init, desired.init, existing.containers, desired.containers);
    containers := MergeOne(existing.containers, desired.containers, init, desired.init);
  }

  /**
   `mergePodTemplateSpec` on shared probes: the fields the operator manages are the
   desired ones, both container lists are merged in place, what the server set stays, and
   the desired template is untouched.
   */
  method MergePodTemplate(existing: LiveTemplate, desired: LiveTemplate) returns (result: LiveTemplate)
    requires existing.Own() && TemplatesApart(existing, desired)
    requires DistinctNames(desired.init) && DistinctNames(desired.containers)
    modifies AllProbes(existing.init), AllProbes(existing.containers)
    ensures result.View() == Mutate.MergePodTemplate(old(existing.View()), old(desired.View()))
    ensures desired.View() == old(desired.View())
    ensures result.Own()
  {
    hide Separate, Apart, AllApart, DistinctNames, Mutate.MergeContainers;
    var init, containers := MergeLists(existing, desired);
    var fields := desired.fields.(spec := desired.fields.spec.(serverSet := existing.fields.spec.serverSet));
    result := LiveTemplate(fields, init, containers);
  }
}
