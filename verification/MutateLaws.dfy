/**
 Laws of the mutate functions: a desired object is a fixed point, mutating twice
 is mutating once, and against a server that fills unset fields in a fixed way the
 stored object no longer moves.
 */
module MutateLaws {
  import opened Wrappers
  import opened Objects
  import opened Mutate

  // ---- what the mergers assume of a desired object ----

  ghost predicate DistinctNames(cs: seq<Container>) {
    forall i, j :: 0 <= i < j < |cs| ==> cs[i].name != cs[j].name
  }

  /** Distinct names; a port may go without one only when it is the only port, as the API demands. */
  ghost predicate PortsNamed(ports: seq<ServicePort>) {
    && (forall i, j :: 0 <= i < j < |ports| ==> ports[i].name != ports[j].name)
    && (|ports| > 1 ==> forall i :: 0 <= i < |ports| ==> ports[i].name != "")
  }

  ghost predicate TemplateWellFormed(t: PodTemplate) {
    DistinctNames(t.spec.initContainers) && DistinctNames(t.spec.containers)
  }

  ghost predicate WellFormed(b: Body) {
    match b
    case Service(s) => PortsNamed(s.ports)
    case StatefulSet(w) => TemplateWellFormed(w.template)
    case Deployment(w) => TemplateWellFormed(w.template)
    case DaemonSet(w) => TemplateWellFormed(w.template)
    case _ => true
  }

  predicate Fits(m: Mutator, b: Body) {
    match m
    case MutateSecret(_) => b.Secret?
    case MutatePVC => b.PVC?
    case MutateService => b.Service?
    case MutateConfigMap => b.ConfigMap?
    case MutateStatefulSet => b.StatefulSet?
    case MutateDeployment => b.Deployment?
    case MutateDaemonSet => b.DaemonSet?
    case MutateJob => b.Job?
    case MutateMigration => b.Migration?
    case MutateClusterRole => b.ClusterRole?
    case MutateClusterRoleBinding => b.ClusterRoleBinding?
  }

  /** Every key `MutateSecret` is asked for is in the data; the other mutate functions ask for nothing. */
  predicate Complete(m: Mutator, b: Body) {
    m.MutateSecret? && b.Secret? && m.keys != [] ==>
      b.data.Some? && forall k :: k in m.keys ==> k in b.data.value
  }

  // ---- lookups by name ----

  lemma {:induction false} FindContainerAt(cs: seq<Container>, i: nat)
    requires DistinctNames(cs) && i < |cs|
    ensures FindContainer(cs, cs[i].name) == Some(cs[i])
  {
    if i < |cs| - 1 {
      assert cs[|cs| - 1].name != cs[i].name;
      FindContainerAt(cs[..|cs| - 1], i);
    }
  }

  lemma {:induction false} FindPortAt(ports: seq<ServicePort>, d: ServicePort, i: nat)
    requires i < |ports| && PortMatches(ports[i], d)
    requires forall j :: 0 <= j < |ports| && j != i ==> !PortMatches(ports[j], d)
    ensures FindServicePort(ports, d) == Some(ports[i])
  {
    if i > 0 {
      assert !PortMatches(ports[0], d);
      FindPortAt(ports[1..], d, i - 1);
    }
  }

  // ---- containers ----

  /** The desired probe, with the success threshold of the existing one if it has none; the existing probe if it is absent. */
  predicate ProbeMerged(e: Option<ProbeValue>, d: Option<ProbeValue>, r: Option<ProbeValue>) {
    if d.None? then r == e
    else
      && r.Some? && r.value.(successThreshold := 0) == d.value.(successThreshold := 0)
      && r.value.successThreshold == if d.value.successThreshold != 0 || e.None? then d.value.successThreshold
                                     else e.value.successThreshold
  }

  /**
   Each merged container has the name and every managed field of its desired container.
   From its namesake, the last existing container of that name, it keeps what the server
   set; a probe, a success threshold and a termination message field only where the
   desired container leaves them out. Without a namesake it is the desired container.
   */
  lemma MergedContainer(existing: seq<Container>, desired: seq<Container>, i: nat)
    requires i < |desired|
    ensures var r, d := MergeContainers(existing, desired)[i], desired[i];
      var namesake := FindContainer(existing, d.name);
      var e := namesake.GetOr(NO_CONTAINER);
      && r.name == d.name && r.managed == d.managed && r.serverSet == e.serverSet
      && ProbeMerged(e.liveness, d.liveness, r.liveness) && ProbeMerged(e.readiness, d.readiness, r.readiness)
      && ProbeMerged(e.startup, d.startup, r.startup)
      && r.terminationMessagePath == (if d.terminationMessagePath != UNSET then d.terminationMessagePath
                                      else e.terminationMessagePath)
      && r.terminationMessagePolicy == (if d.terminationMessagePolicy != UNSET then d.terminationMessagePolicy
                                        else e.terminationMessagePolicy)
      && (namesake.None? ==> r == d.(serverSet := UNSET))
    ensures forall j :: 0 <= j < |existing| && existing[j].name == desired[i].name
                        && (forall k :: j < k < |existing| ==> existing[k].name != desired[i].name) ==>
              FindContainer(existing, desired[i].name) == Some(existing[j])
  {
    forall j | 0 <= j < |existing| && existing[j].name == desired[i].name
               && (forall k :: j < k < |existing| ==> existing[k].name != desired[i].name)
      ensures FindContainer(existing, desired[i].name) == Some(existing[j])
    {
      LastNamesake(existing, desired[i].name, j);
    }
  }

  lemma {:induction false} LastNamesake(existing: seq<Container>, name: string, j: nat)
    requires j < |existing| && existing[j].name == name && forall k :: j < k < |existing| ==> existing[k].name != name
    ensures FindContainer(existing, name) == Some(existing[j])
  {
    if j < |existing| - 1 {
      assert existing[|existing| - 1].name != name;
      LastNamesake(existing[..|existing| - 1], name, j);
    }
  }

  lemma MergeContainerFixpoint(c: Container)
    ensures MergeContainer(c, c) == c
  {
  }

  lemma MergeContainersFixpoint(cs: seq<Container>)
    requires DistinctNames(cs)
    ensures MergeContainers(cs, cs) == cs
  {
    forall i | 0 <= i < |cs| ensures MergeContainers(cs, cs)[i] == cs[i] {
      FindContainerAt(cs, i);
      MergeContainerFixpoint(cs[i]);
    }
  }

  lemma MergeContainerIdempotent(e: Container, d: Container)
    ensures MergeContainer(MergeContainer(e, d), d) == MergeContainer(e, d)
  {
  }

  lemma MergeContainersIdempotent(existing: seq<Container>, desired: seq<Container>)
    requires DistinctNames(desired)
    ensures MergeContainers(MergeContainers(existing, desired), desired) == MergeContainers(existing, desired)
  {
    var once := MergeContainers(existing, desired);
    if desired != [] {
      forall i | 0 <= i < |desired| ensures MergeContainers(once, desired)[i] == once[i] {
        assert once[i].name == desired[i].name;
        FindContainerAt(once, i);
        MergeContainerIdempotent(
          FindContainer(existing, desired[i].name).GetOr(NO_CONTAINER.(name := desired[i].name)), desired[i]);
      }
    }
  }

  // ---- Services ----

  lemma MergePortsFixpoint(ports: seq<ServicePort>)
    requires PortsNamed(ports)
    ensures MergePorts(ports, ports) == ports
  {
    forall i | 0 <= i < |ports| ensures MergePorts(ports, ports)[i] == ports[i] {
      FindPortAt(ports, ports[i], i);
    }
  }

  lemma MergePortsIdempotent(current: seq<ServicePort>, desired: seq<ServicePort>)
    requires PortsNamed(desired)
    ensures MergePorts(MergePorts(current, desired), desired) == MergePorts(current, desired)
  {
    var once := MergePorts(current, desired);
    forall i | 0 <= i < |desired| ensures MergePorts(once, desired)[i] == once[i] {
      FindPortAt(once, desired[i], i);
    }
  }

  /**
   Ports come out in the desired order. With distinct names in both lists, each
   NodePort, Protocol and TargetPort is the desired one if set, else the one of the
   current port of that name; a port that has no current namesake is as desired.
   */
  lemma MergedPort(current: seq<ServicePort>, desired: seq<ServicePort>, i: nat)
    requires PortsNamed(current)
    requires i < |desired| && desired[i].name != ""
    ensures var r, d := MergePorts(current, desired)[i], desired[i];
      && r.(nodePort := d.nodePort, protocol := d.protocol, targetPort := d.targetPort) == d
      && (forall j :: 0 <= j < |current| && current[j].name == d.name ==>
            && r.nodePort == (if d.nodePort != 0 then d.nodePort else current[j].nodePort)
            && r.protocol == (if d.protocol != UNSET then d.protocol else current[j].protocol)
            && r.targetPort == (if d.targetPort != UNSET then d.targetPort else current[j].targetPort))
      && ((forall j :: 0 <= j < |current| ==> current[j].name != d.name) ==> r == d)
  {
    forall j | 0 <= j < |current| && current[j].name == desired[i].name
      ensures FindServicePort(current, desired[i]) == Some(current[j])
    {
      FindPortAt(current, desired[i], j);
    }
  }

  /** Under MutateService an allocated field that the desired Service leaves unset keeps its value. */
  lemma ServiceKeepsAllocated(e: Object, d: Object)
    requires e.body.Service? && d.body.Service?
    ensures Apply(MutateService, e, d).Done? && Apply(MutateService, e, d).value.body.Service?
    ensures var r, c, y := Apply(MutateService, e, d).value.body.service, e.body.service, d.body.service;
      && (y.clusterIP == UNSET ==> r.clusterIP == c.clusterIP) && (y.clusterIPs == UNSET ==> r.clusterIPs == c.clusterIPs)
      && (y.ipFamilies == UNSET ==> r.ipFamilies == c.ipFamilies)
      && (y.ipFamilyPolicy == UNSET ==> r.ipFamilyPolicy == c.ipFamilyPolicy)
      && (y.healthCheckNodePort == 0 ==> r.healthCheckNodePort == c.healthCheckNodePort)
      && (y.allocateLoadBalancerNodePorts.None? ==> r.allocateLoadBalancerNodePorts == c.allocateLoadBalancerNodePorts)
      && (y.sessionAffinity == UNSET ==> r.sessionAffinity == c.sessionAffinity)
      && (y.externalTrafficPolicy == UNSET ==> r.externalTrafficPolicy == c.externalTrafficPolicy)
      && (y.internalTrafficPolicy == UNSET ==> r.internalTrafficPolicy == c.internalTrafficPolicy)
      && (y.trafficDistribution == UNSET ==> r.trafficDistribution == c.trafficDistribution)
      && |r.ports| == |y.ports| && r.template == y.template
  {
  }

  /** The order in which the server lists the current ports does not matter. */
  lemma MergePortsOrderIndependent(current: seq<ServicePort>, reordered: seq<ServicePort>, desired: seq<ServicePort>)
    requires PortsNamed(current) && PortsNamed(reordered) && PortsNamed(desired)
    requires forall p :: p in current <==> p in reordered
    requires forall i :: 0 <= i < |desired| ==> desired[i].name != ""
    ensures MergePorts(current, desired) == MergePorts(reordered, desired)
  {
    forall i | 0 <= i < |desired|
      ensures FindServicePort(current, desired[i]) == FindServicePort(reordered, desired[i])
    {
      var found := FindServicePort(current, desired[i]);
      if found.Some? {
        assert found.value in reordered;
        var k :| 0 <= k < |reordered| && reordered[k] == found.value;
        FindPortAt(reordered, desired[i], k);
      }
    }
  }

  /**
   The one unnamed port the API allows is looked up by number and protocol. If the
   server filled in the protocol, a desired port that leaves it unset no longer finds
   it, and the allocated NodePort is dropped.
   */
  lemma UnnamedPortLosesNodePort(c: ServicePort, d: ServicePort)
    requires d.name == "" && d.port == c.port
    requires d.nodePort == 0 && c.nodePort != 0
    ensures MergePorts([c], [d])[0].nodePort == c.nodePort <==> d.protocol == c.protocol
  {
    assert FindServicePort([c], d) == if PortMatches(c, d) then Some(c) else FindServicePort([c][1..], d);
  }

  // ---- PersistentVolumeClaims ----

  /**
   A claim is updated exactly if the access modes agree and every other immutable field
   agrees wherever the desired claim sets it; and then no immutable field changes.
   */
  lemma ClaimKeepsImmutable(e: Object, d: Object)
    requires e.body.PVC? && d.body.PVC?
    ensures var (x, y, r) := (e.body.pvc, d.body.pvc, Apply(MutatePVC, e, d));
      && (r.Done? <==>
            && y.accessModes == x.accessModes && y.selector in {UNSET, x.selector} && y.volumeName in {UNSET, x.volumeName}
            && y.storageClassName in {None, x.storageClassName} && y.volumeMode in {UNSET, x.volumeMode}
            && y.dataSource in {UNSET, x.dataSource} && y.dataSourceRef in {UNSET, x.dataSourceRef})
      && (r.Done? ==>
            && r.value.body.PVC?
            && r.value.body.pvc.(resources := x.resources, volumeAttributesClassName := x.volumeAttributesClassName) == x
            && r.value.body.pvc.resources == y.resources
            && r.value.body.pvc.volumeAttributesClassName
               == if y.volumeAttributesClassName.Some? then y.volumeAttributesClassName else x.volumeAttributesClassName)
  {
  }

  // ---- pod templates and whole objects ----

  lemma MergeTemplateLaws(e: PodTemplate, d: PodTemplate)
    requires TemplateWellFormed(d)
    ensures MergePodTemplate(d, d) == d
    ensures MergePodTemplate(MergePodTemplate(e, d), d) == MergePodTemplate(e, d)
  {
    MergeContainersFixpoint(d.spec.initContainers);
    MergeContainersFixpoint(d.spec.containers);
    MergeContainersIdempotent(e.spec.initContainers, d.spec.initContainers);
    MergeContainersIdempotent(e.spec.containers, d.spec.containers);
  }

  lemma BodyFixpoint(m: Mutator, d: Body)
    requires Fits(m, d) && WellFormed(d)
    ensures MergeBody(m, d, d) == Done(d) <==> Complete(m, d)
  {
    match d
    case Service(s) => MergePortsFixpoint(s.ports);
    case StatefulSet(w) => MergeTemplateLaws(w.template, w.template);
    case Deployment(w) => MergeTemplateLaws(w.template, w.template);
    case DaemonSet(w) => MergeTemplateLaws(w.template, w.template);
    case Secret(data) =>
      if data.Some? && Complete(m, d) {
        assert CopyMissing(m.keys, data.value, data) == data.value;
      } else if data.Some? {
        var k :| k in m.keys && k !in data.value;
        assert k in CopyMissing(m.keys, data.value, data);
      }
    case Job(j, _) =>
      assert MergeStringMaps(j.template.labels, j.template.labels) == j.template.labels;
    case _ =>
  }

  lemma MetaFixpoint(m: Mutator, d: Meta)
    ensures MergeMeta(m, d, d) == d
  {
    assert MergeStringMaps(d.annotations, d.annotations) == d.annotations;
  }

  /** A desired object mutated by itself is unchanged, except for a Secret that lacks a key asked for. */
  lemma MutateFixpoint(m: Mutator, d: Object)
    requires Fits(m, d.body) && WellFormed(d.body)
    ensures Apply(m, d, d) == Done(d) <==> Complete(m, d.body)
  {
    BodyFixpoint(m, d.body);
    MetaFixpoint(m, d.meta);
  }

  lemma WorkloadIdempotent(m: Mutator, e: Body, d: Body)
    requires m.MutateStatefulSet? || m.MutateDeployment? || m.MutateDaemonSet?
    requires WellFormed(d)
    requires MergeBody(m, e, d).Done?
    ensures MergeBody(m, MergeBody(m, e, d).value, d) == MergeBody(m, e, d)
  {
    MergeTemplateLaws(e.workload.template, d.workload.template);
  }

  lemma BodyIdempotent(m: Mutator, e: Body, d: Body)
    requires WellFormed(d)
    requires MergeBody(m, e, d).Done?
    ensures MergeBody(m, MergeBody(m, e, d).value, d) == MergeBody(m, e, d)
  {
    match m
    case MutateStatefulSet => WorkloadIdempotent(m, e, d);
    case MutateDeployment => WorkloadIdempotent(m, e, d);
    case MutateDaemonSet => WorkloadIdempotent(m, e, d);
    case MutateService => MergePortsIdempotent(e.service.ports, d.service.ports);
    case MutateSecret(keys) =>
      if e.data.Some? {
        var once := CopyMissing(keys, e.data.value, d.data);
        assert CopyMissing(keys, once, d.data) == once;
      }
    case MutateJob =>
      var labels := MergeStringMaps(e.job.template.labels, d.job.template.labels);
      assert MergeStringMaps(labels, d.job.template.labels) == labels;
    case _ =>
  }

  /** Mutating a second time with the same desired object changes nothing. */
  lemma MutateIdempotent(m: Mutator, e: Object, d: Object)
    requires WellFormed(d.body)
    requires Apply(m, e, d).Done?
    ensures Apply(m, Apply(m, e, d).value, d) == Apply(m, e, d)
  {
    BodyIdempotent(m, e.body, d.body);
    var annotations := MergeStringMaps(e.meta.annotations, d.meta.annotations);
    assert MergeStringMaps(annotations, d.meta.annotations) == annotations;
  }
}
