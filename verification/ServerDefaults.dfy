/**
 A server that fills unset fields. The mutate functions clear some of the fields it
 filled and keep others; this module shows that the server then fills the cleared
 ones again and stores the object it had.
 */
module ServerDefaults {
  import opened Wrappers
  import opened Objects
  import opened Mutate
  import opened MutateLaws

  /** How the server may complete the value of a field: any reflexive relation. */
  type Completion = (Raw, Raw) -> bool

  ghost predicate FillsInt(a: int, b: int) { a == 0 || a == b }

  ghost predicate FillsOption<T>(a: Option<T>, b: Option<T>) { a.None? || a == b }

  ghost predicate FillsProbe(le: Completion, a: Option<ProbeValue>, b: Option<ProbeValue>) {
    a.Some? ==>
      && b.Some?
      && le(a.value.handler, b.value.handler)
      && FillsInt(a.value.initialDelaySeconds, b.value.initialDelaySeconds)
      && FillsOption(a.value.terminationGracePeriodSeconds, b.value.terminationGracePeriodSeconds)
      && FillsInt(a.value.periodSeconds, b.value.periodSeconds)
      && FillsInt(a.value.timeoutSeconds, b.value.timeoutSeconds)
      && FillsInt(a.value.failureThreshold, b.value.failureThreshold)
      && FillsInt(a.value.successThreshold, b.value.successThreshold)
  }

  ghost predicate FillsManaged(le: Completion, a: Managed, b: Managed) {
    && le(a.command, b.command) && le(a.args, b.args) && a.envFrom == b.envFrom && a.env == b.env
    && le(a.image, b.image) && le(a.workingDir, b.workingDir) && le(a.ports, b.ports)
    && le(a.resources, b.resources) && le(a.volumeMounts, b.volumeMounts) && le(a.volumeDevices, b.volumeDevices)
    && le(a.lifecycle, b.lifecycle) && le(a.imagePullPolicy, b.imagePullPolicy)
    && le(a.securityContext, b.securityContext)
  }

  ghost predicate FillsContainer(le: Completion, a: Container, b: Container) {
    && a.name == b.name && FillsManaged(le, a.managed, b.managed)
    && FillsProbe(le, a.liveness, b.liveness) && FillsProbe(le, a.readiness, b.readiness)
    && FillsProbe(le, a.startup, b.startup)
    && le(a.terminationMessagePath, b.terminationMessagePath)
    && le(a.terminationMessagePolicy, b.terminationMessagePolicy)
    && le(a.serverSet, b.serverSet)
  }

  ghost predicate FillsContainers(le: Completion, a: seq<Container>, b: seq<Container>) {
    |a| == |b| && forall i :: 0 <= i < |a| ==> FillsContainer(le, a[i], b[i])
  }

  ghost predicate FillsVolumes(le: Completion, a: seq<Volume>, b: seq<Volume>) {
    |a| == |b| && forall i :: 0 <= i < |a| ==> a[i].(other := b[i].other) == b[i] && le(a[i].other, b[i].other)
  }

  ghost predicate FillsTemplate(le: Completion, a: PodTemplate, b: PodTemplate) {
    var s, t := a.spec, b.spec;
    && a.labels.Keys <= b.labels.Keys && (forall k :: k in a.labels ==> a.labels[k] == b.labels[k])
    && a.annotations == b.annotations && le(a.otherMeta, b.otherMeta)
    && le(s.affinity, t.affinity) && s.nodeSelector == t.nodeSelector && le(s.tolerations, t.tolerations)
    && le(s.priorityClassName, t.priorityClassName) && le(s.securityContext, t.securityContext)
    && FillsOption(s.terminationGracePeriodSeconds, t.terminationGracePeriodSeconds)
    && FillsVolumes(le, s.volumes, t.volumes) && le(s.serviceAccountName, t.serviceAccountName)
    && le(s.imagePullSecrets, t.imagePullSecrets) && le(s.hostAliases, t.hostAliases)
    && FillsContainers(le, s.initContainers, t.initContainers)
    && FillsContainers(le, s.containers, t.containers)
    && le(s.serverSet, t.serverSet)
  }

  ghost predicate FillsPort(le: Completion, a: ServicePort, b: ServicePort) {
    && a.name == b.name && FillsInt(a.port, b.port) && le(a.protocol, b.protocol)
    && FillsInt(a.nodePort, b.nodePort) && le(a.targetPort, b.targetPort) && le(a.appProtocol, b.appProtocol)
  }

  ghost predicate FillsService(le: Completion, a: ServiceSpec, b: ServiceSpec) {
    && le(a.clusterIP, b.clusterIP) && le(a.clusterIPs, b.clusterIPs) && le(a.ipFamilies, b.ipFamilies)
    && le(a.ipFamilyPolicy, b.ipFamilyPolicy) && FillsInt(a.healthCheckNodePort, b.healthCheckNodePort)
    && FillsOption(a.allocateLoadBalancerNodePorts, b.allocateLoadBalancerNodePorts)
    && le(a.sessionAffinity, b.sessionAffinity) && le(a.externalTrafficPolicy, b.externalTrafficPolicy)
    && le(a.internalTrafficPolicy, b.internalTrafficPolicy) && le(a.trafficDistribution, b.trafficDistribution)
    && |a.ports| == |b.ports| && (forall i :: 0 <= i < |a.ports| ==> FillsPort(le, a.ports[i], b.ports[i]))
    && le(a.template, b.template)
  }

  ghost predicate FillsPVC(le: Completion, a: PVCSpec, b: PVCSpec) {
    && a.accessModes == b.accessModes
    && (a.selector == UNSET || a.selector == b.selector) && (a.volumeName == UNSET || a.volumeName == b.volumeName)
    && FillsOption(a.storageClassName, b.storageClassName) && (a.volumeMode == UNSET || a.volumeMode == b.volumeMode)
    && (a.dataSource == UNSET || a.dataSource == b.dataSource)
    && (a.dataSourceRef == UNSET || a.dataSourceRef == b.dataSourceRef)
    && le(a.resources, b.resources) && FillsOption(a.volumeAttributesClassName, b.volumeAttributesClassName)
  }

  ghost predicate FillsWorkload(le: Completion, a: WorkloadSpec, b: WorkloadSpec) {
    && FillsOption(a.replicas, b.replicas) && le(a.selector, b.selector) && FillsTemplate(le, a.template, b.template)
    && le(a.volumeClaimTemplates, b.volumeClaimTemplates) && le(a.serviceName, b.serviceName)
    && le(a.podManagementPolicy, b.podManagementPolicy) && le(a.serverSet, b.serverSet)
  }

  /** `b` is `a` with unset fields filled in and compound fields completed. */
  ghost predicate Fills(le: Completion, a: Body, b: Body) {
    match (a, b)
    case (PVC(x), PVC(y)) => FillsPVC(le, x, y)
    case (Service(x), Service(y)) => FillsService(le, x, y)
    case (StatefulSet(x), StatefulSet(y)) => FillsWorkload(le, x, y)
    case (Deployment(x), Deployment(y)) => FillsWorkload(le, x, y)
    case (DaemonSet(x), DaemonSet(y)) => FillsWorkload(le, x, y)
    case (Job(x, s), Job(y, t)) =>
      le(x.selector, y.selector) && FillsTemplate(le, x.template, y.template) && le(x.other, y.other) && s == t
    case _ => a == b
  }

  /** The server only fills, and fills the same way whatever part of its own answer is already there. */
  ghost predicate Filler(le: Completion, server: Body -> Body) {
    && (forall r :: le(r, r))
    && (forall x :: Fills(le, x, server(x)))
    && (forall x, y :: Fills(le, x, y) && Fills(le, y, server(x)) ==> server(y) == server(x))
  }

  // ---- one object: what the mutate function leaves lies between what was sent and what was stored ----

  lemma BetweenContainer(le: Completion, e: Container, d: Container, z: Container)
    requires forall r :: le(r, r)
    requires FillsContainer(le, MergeContainer(e, d), z)
    ensures FillsContainer(le, MergeContainer(e, d), MergeContainer(z, d))
    ensures FillsContainer(le, MergeContainer(z, d), z)
  {
  }

  lemma BetweenContainers(le: Completion, e: seq<Container>, d: seq<Container>, z: seq<Container>)
    requires forall r :: le(r, r)
    requires DistinctNames(d)
    requires FillsContainers(le, MergeContainers(e, d), z)
    ensures FillsContainers(le, MergeContainers(e, d), MergeContainers(z, d))
    ensures FillsContainers(le, MergeContainers(z, d), z)
  {
    if d == [] {
      ContainersFillSelf(le, z);
    } else {
      var x := MergeContainers(e, d);
      forall i | 0 <= i < |d|
        ensures FillsContainer(le, x[i], MergeContainers(z, d)[i])
        ensures FillsContainer(le, MergeContainers(z, d)[i], z[i])
      {
        assert forall j :: 0 <= j < |d| ==> FillsContainer(le, x[j], z[j]) && x[j].name == d[j].name == z[j].name;
        FindContainerAt(z, i);
        BetweenContainer(le, FindContainer(e, d[i].name).GetOr(NO_CONTAINER.(name := d[i].name)), d[i], z[i]);
      }
    }
  }

  lemma BetweenTemplate(le: Completion, e: PodTemplate, d: PodTemplate, z: PodTemplate)
    requires forall r :: le(r, r)
    requires TemplateWellFormed(d)
    requires FillsTemplate(le, MergePodTemplate(e, d), z)
    ensures FillsTemplate(le, MergePodTemplate(e, d), MergePodTemplate(z, d))
    ensures FillsTemplate(le, MergePodTemplate(z, d), z)
  {
    BetweenContainers(le, e.spec.initContainers, d.spec.initContainers, z.spec.initContainers);
    BetweenContainers(le, e.spec.containers, d.spec.containers, z.spec.containers);
  }

  lemma BetweenPorts(le: Completion, e: ServiceSpec, d: ServiceSpec, z: ServiceSpec, i: nat)
    requires forall r :: le(r, r)
    requires PortsNamed(d.ports) && (forall j :: 0 <= j < |d.ports| ==> d.ports[j].name != "") && i < |d.ports|
    requires FillsService(le, MergeService(e, d), z)
    ensures FillsPort(le, MergeService(e, d).ports[i], MergeService(z, d).ports[i])
    ensures FillsPort(le, MergeService(z, d).ports[i], z.ports[i])
  {
    var x := MergeService(e, d);
    assert forall j :: 0 <= j < |d.ports| ==>
      FillsPort(le, x.ports[j], z.ports[j]) && x.ports[j].name == d.ports[j].name == z.ports[j].name;
    FindPortAt(z.ports, d.ports[i], i);
  }

  lemma BetweenService(le: Completion, e: ServiceSpec, d: ServiceSpec, z: ServiceSpec)
    requires forall r :: le(r, r)
    requires PortsNamed(d.ports) && forall i :: 0 <= i < |d.ports| ==> d.ports[i].name != ""
    requires FillsService(le, MergeService(e, d), z)
    ensures FillsService(le, MergeService(e, d), MergeService(z, d))
    ensures FillsService(le, MergeService(z, d), z)
  {
    forall i: nat | i < |d.ports|
      ensures FillsPort(le, MergeService(e, d).ports[i], MergeService(z, d).ports[i])
      ensures FillsPort(le, MergeService(z, d).ports[i], z.ports[i])
    {
      BetweenPorts(le, e, d, z, i);
    }
    hide FillsPort, PortsNamed, MergePorts;
  }

  lemma BetweenWorkload(m: Mutator, le: Completion, e: Body, d: Body, z: Body)
    requires m.MutateStatefulSet? || m.MutateDeployment? || m.MutateDaemonSet?
    requires forall r :: le(r, r)
    requires WellFormed(d)
    requires MergeBody(m, e, d).Done? && Fills(le, MergeBody(m, e, d).value, z)
    ensures var again := MergeBody(m, z, d);
      again.Done? && Fills(le, MergeBody(m, e, d).value, again.value) && Fills(le, again.value, z)
  {
    BetweenTemplate(le, e.workload.template, d.workload.template, z.workload.template);
  }

  /** Two templates that differ in added labels only. */
  lemma TemplateFillsSelf(le: Completion, a: PodTemplate, b: PodTemplate)
    requires forall r :: le(r, r)
    requires b.(labels := a.labels) == a
    requires a.labels.Keys <= b.labels.Keys && forall k :: k in a.labels ==> a.labels[k] == b.labels[k]
    ensures FillsTemplate(le, a, b)
  {
    ContainersFillSelf(le, a.spec.containers);
    ContainersFillSelf(le, a.spec.initContainers);
  }

  lemma ContainersFillSelf(le: Completion, cs: seq<Container>)
    requires forall r :: le(r, r)
    ensures FillsContainers(le, cs, cs)
  {
    forall i | 0 <= i < |cs| ensures FillsContainer(le, cs[i], cs[i]) {
      ContainerFillsSelf(le, cs[i]);
    }
  }

  lemma ContainerFillsSelf(le: Completion, c: Container)
    requires forall r :: le(r, r)
    ensures FillsContainer(le, c, c)
  {
  }

  lemma BetweenJob(le: Completion, e: Body, d: Body, z: Body)
    requires forall r :: le(r, r)
    requires e.Job? && d.Job? && Fills(le, MergeBody(MutateJob, e, d).value, z)
    ensures var again := MergeBody(MutateJob, z, d);
      again.Done? && Fills(le, MergeBody(MutateJob, e, d).value, again.value) && Fills(le, again.value, z)
  {
    TemplateFillsSelf(le, MergeBody(MutateJob, e, d).value.job.template, MergeBody(MutateJob, z, d).value.job.template);
  }

  ghost predicate ServicePortsNamed(d: Body) {
    d.Service? ==> forall i :: 0 <= i < |d.service.ports| ==> d.service.ports[i].name != ""
  }

  lemma Between(m: Mutator, le: Completion, e: Body, d: Body, z: Body)
    requires forall r :: le(r, r)
    requires WellFormed(d) && ServicePortsNamed(d)
    requires MergeBody(m, e, d).Done? && Fills(le, MergeBody(m, e, d).value, z)
    ensures var again := MergeBody(m, z, d);
      again.Done? && Fills(le, MergeBody(m, e, d).value, again.value) && Fills(le, again.value, z)
  {
    match m
    case MutateStatefulSet => BetweenWorkload(m, le, e, d, z);
    case MutateDeployment => BetweenWorkload(m, le, e, d, z);
    case MutateDaemonSet => BetweenWorkload(m, le, e, d, z);
    case MutateService => BetweenService(le, e.service, d.service, z.service);
    case MutateJob => BetweenJob(le, e, d, z);
    case MutateSecret(_) => BodyIdempotent(m, e, d);
    case _ =>
  }

  /**
   Once the server has stored a mutated body, mutating it again with the same desired
   body succeeds, and the server makes the same stored body of the result.
   */
  lemma StoredBodyStays(m: Mutator, le: Completion, server: Body -> Body, e: Body, d: Body)
    requires Filler(le, server)
    requires WellFormed(d) && ServicePortsNamed(d)
    requires MergeBody(m, e, d).Done?
    ensures var stored := server(MergeBody(m, e, d).value);
      MergeBody(m, stored, d).Done? && server(MergeBody(m, stored, d).value) == stored
  {
    var sent := MergeBody(m, e, d).value;
    assert Fills(le, sent, server(sent));
    Between(m, le, e, d, server(sent));
  }
}
