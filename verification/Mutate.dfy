/**
 What each mutate function of internal/reconciler/mutate.go, and the two of
 internal/controller/vector/rbac.go, makes of an existing object, as functions on
 values. The in-place versions are in InPlace.dfy and PodMerge.dfy; the laws of
 these functions are in MutateLaws.dfy.
 */
module Mutate {
  import opened Wrappers
  import opened Objects

  /** `Panicked` is the write to a nil map that `MutateSecret` can reach. */
  datatype Outcome<+T> = Done(value: T) | Rejected(reason: string) | Panicked

  datatype Mutator =
    | MutateSecret(keys: seq<string>)
    | MutatePVC
    | MutateService
    | MutateConfigMap
    | MutateStatefulSet
    | MutateDeployment
    | MutateDaemonSet
    | MutateJob
    | MutateMigration
    | MutateClusterRole
    | MutateClusterRoleBinding

  function MergeStringMaps(existing: StringMap, desired: StringMap): StringMap {
    existing + desired
  }

  // ---- Secrets ----

  function BytesAt(data: Option<map<string, string>>, key: string): string {
    if data.Some? && key in data.value then data.value[key] else ""
  }

  function CopyMissing(keys: seq<string>, existing: map<string, string>, desired: Option<map<string, string>>)
    : map<string, string>
  {
    map k | k in existing.Keys + (set k' | k' in keys) :: if k in existing then existing[k] else BytesAt(desired, k)
  }

  // ---- PersistentVolumeClaims ----

  /** The first immutable field that differs, or the empty text. */
  function ImmutableViolation(existing: PVCSpec, desired: PVCSpec): string {
    if existing.accessModes != desired.accessModes then "accessModes"
    else if desired.selector != UNSET && existing.selector != desired.selector then "selector"
    else if desired.volumeName != UNSET && existing.volumeName != desired.volumeName then "volumeName"
    else if desired.storageClassName.Some? && existing.storageClassName != desired.storageClassName then "storageClassName"
    else if desired.volumeMode != UNSET && existing.volumeMode != desired.volumeMode then "volumeMode"
    else if desired.dataSource != UNSET && existing.dataSource != desired.dataSource then "dataSource"
    else if desired.dataSourceRef != UNSET && existing.dataSourceRef != desired.dataSourceRef then "dataSourceRef"
    else ""
  }

  function MergePVC(existing: PVCSpec, desired: PVCSpec): PVCSpec {
    existing.(resources := desired.resources,
              volumeAttributesClassName := if desired.volumeAttributesClassName.Some? then desired.volumeAttributesClassName
                                           else existing.volumeAttributesClassName)
  }

  // ---- Services ----

  predicate PortMatches(port: ServicePort, desired: ServicePort) {
    if desired.name != "" then port.name == desired.name
    else port.port == desired.port && port.protocol == desired.protocol
  }

  /** The first current port that the desired port names. */
  function FindServicePort(ports: seq<ServicePort>, desired: ServicePort): (r: Option<ServicePort>)
    ensures r.Some? ==> exists i :: 0 <= i < |ports| && ports[i] == r.value && PortMatches(r.value, desired)
                                    && forall j :: 0 <= j < i ==> !PortMatches(ports[j], desired)
    ensures r.None? ==> forall p :: p in ports ==> !PortMatches(p, desired)
  {
    if ports == [] then None
    else if PortMatches(ports[0], desired) then Some(ports[0])
    else FindServicePort(ports[1..], desired)
  }

  function OrElse(desired: Raw, current: Raw): Raw {
    if desired == UNSET then current else desired
  }

  function MergePort(found: Option<ServicePort>, desired: ServicePort): ServicePort {
    if found.None? then desired
    else desired.(nodePort := if desired.nodePort == 0 then found.value.nodePort else desired.nodePort,
                  protocol := OrElse(desired.protocol, found.value.protocol),
                  targetPort := OrElse(desired.targetPort, found.value.targetPort))
  }

  function MergePorts(current: seq<ServicePort>, desired: seq<ServicePort>): (r: seq<ServicePort>)
    ensures |r| == |desired|
  {
    seq(|desired|, i requires 0 <= i < |desired| => MergePort(FindServicePort(current, desired[i]), desired[i]))
  }

  function MergeAllocated(current: ServiceSpec, desired: ServiceSpec): ServiceSpec {
    ServiceSpec(
      clusterIP := OrElse(desired.clusterIP, current.clusterIP),
      clusterIPs := OrElse(desired.clusterIPs, current.clusterIPs),
      ipFamilies := OrElse(desired.ipFamilies, current.ipFamilies),
      ipFamilyPolicy := OrElse(desired.ipFamilyPolicy, current.ipFamilyPolicy),
      healthCheckNodePort := if desired.healthCheckNodePort == 0 then current.healthCheckNodePort
                             else desired.healthCheckNodePort,
      allocateLoadBalancerNodePorts := if desired.allocateLoadBalancerNodePorts.None?
                                       then current.allocateLoadBalancerNodePorts
                                       else desired.allocateLoadBalancerNodePorts,
      sessionAffinity := OrElse(desired.sessionAffinity, current.sessionAffinity),
      externalTrafficPolicy := OrElse(desired.externalTrafficPolicy, current.externalTrafficPolicy),
      internalTrafficPolicy := OrElse(desired.internalTrafficPolicy, current.internalTrafficPolicy),
      trafficDistribution := OrElse(desired.trafficDistribution, current.trafficDistribution),
      ports := desired.ports,
      template := desired.template)
  }

  function MergeService(current: ServiceSpec, desired: ServiceSpec): ServiceSpec {
    MergeAllocated(current, desired).(ports := MergePorts(current.ports, desired.ports))
  }

  // ---- pods ----

  function MergeProbe(existing: Option<ProbeValue>, desired: Option<ProbeValue>): Option<ProbeValue> {
    if desired.None? then existing
    else if existing.None? then desired
    else Some(desired.value.(successThreshold := if desired.value.successThreshold != 0
                                                 then desired.value.successThreshold
                                                 else existing.value.successThreshold))
  }

  const NO_CONTAINER :=
    Container("", Managed(UNSET, UNSET, UNSET, UNSET, UNSET, [], [], UNSET, UNSET, UNSET, UNSET, UNSET, UNSET),
              None, None, None, UNSET, UNSET, UNSET)

  function MergeContainer(existing: Container, desired: Container): Container {
    desired.(liveness := MergeProbe(existing.liveness, desired.liveness),
             readiness := MergeProbe(existing.readiness, desired.readiness),
             startup := MergeProbe(existing.startup, desired.startup),
             terminationMessagePath := OrElse(desired.terminationMessagePath, existing.terminationMessagePath),
             terminationMessagePolicy := OrElse(desired.terminationMessagePolicy, existing.terminationMessagePolicy),
             serverSet := existing.serverSet)
  }

  /** The container an index by name, filled from left to right, holds: the last one of that name. */
  function FindContainer(existing: seq<Container>, name: string): (r: Option<Container>)
    ensures r.Some? ==> exists i :: 0 <= i < |existing| && existing[i] == r.value && r.value.name == name
                                    && forall j :: i < j < |existing| ==> existing[j].name != name
    ensures r.None? ==> forall c :: c in existing ==> c.name != name
  {
    if existing == [] then None
    else if existing[|existing| - 1].name == name then Some(existing[|existing| - 1])
    else FindContainer(existing[..|existing| - 1], name)
  }

  function MergeContainers(existing: seq<Container>, desired: seq<Container>): (r: seq<Container>)
    ensures desired != [] ==> |r| == |desired|
  {
    if desired == [] then existing
    else seq(|desired|, i requires 0 <= i < |desired| =>
               MergeContainer(FindContainer(existing, desired[i].name).GetOr(NO_CONTAINER.(name := desired[i].name)),
                              desired[i]))
  }

  function MergePodTemplate(existing: PodTemplate, desired: PodTemplate): PodTemplate {
    desired.(spec := desired.spec.(
               initContainers := MergeContainers(existing.spec.initContainers, desired.spec.initContainers),
               containers := MergeContainers(existing.spec.containers, desired.spec.containers),
               serverSet := existing.spec.serverSet))
  }

  // ---- the mutate functions ----

  function MergeMeta(m: Mutator, existing: Meta, desired: Meta): Meta {
    if m.MutateSecret? || m.MutateClusterRole? || m.MutateClusterRoleBinding? then existing
    else
      existing.(labels := desired.labels,
                annotations := MergeStringMaps(existing.annotations, desired.annotations),
                owners := if m.MutatePVC? then desired.owners else existing.owners)
  }

  /** The last case, a desired object of another kind, is never reached: objects are keyed by kind. */
  function MergeBody(m: Mutator, existing: Body, desired: Body): Outcome<Body> {
    match (m, existing, desired)
    case (MutateSecret(keys), Secret(e), Secret(d)) =>
      if e.Some? then Done(Secret(Some(CopyMissing(keys, e.value, d))))
      else if keys == [] then Done(existing)
      else Panicked
    case (MutatePVC, PVC(e), PVC(d)) =>
      if ImmutableViolation(e, d) != "" then Rejected("PVC " + ImmutableViolation(e, d) + " is immutable")
      else Done(PVC(MergePVC(e, d)))
    case (MutateService, Service(e), Service(d)) => Done(Service(MergeService(e, d)))
    case (MutateConfigMap, ConfigMap(_, binary), ConfigMap(d, _)) => Done(ConfigMap(d, binary))
    case (MutateStatefulSet, StatefulSet(e), StatefulSet(d)) =>
      Done(StatefulSet(e.(replicas := d.replicas, selector := d.selector,
                          template := MergePodTemplate(e.template, d.template),
                          volumeClaimTemplates := d.volumeClaimTemplates, serviceName := d.serviceName,
                          podManagementPolicy := d.podManagementPolicy)))
    case (MutateDeployment, Deployment(e), Deployment(d)) =>
      Done(Deployment(e.(replicas := d.replicas, selector := d.selector,
                         template := MergePodTemplate(e.template, d.template))))
    case (MutateDaemonSet, DaemonSet(e), DaemonSet(d)) =>
      Done(DaemonSet(e.(selector := d.selector, template := MergePodTemplate(e.template, d.template))))
    case (MutateJob, Job(e, status), Job(d, _)) =>
      Done(Job(d.(selector := e.selector,
                  template := d.template.(labels := MergeStringMaps(e.template.labels, d.template.labels))),
               status))
    case (MutateMigration, Migration(_, ready), Migration(d, _)) => Done(Migration(d, ready))
    case (MutateClusterRole, ClusterRole(_), ClusterRole(d)) => Done(ClusterRole(d))
    case (MutateClusterRoleBinding, ClusterRoleBinding(e, _), ClusterRoleBinding(d, subjects)) =>
      if e != d then Rejected("vector role reference is immutable")
      else Done(ClusterRoleBinding(e, subjects))
    case _ => Rejected("desired object is of another kind")
  }

  /** The object a mutate function leaves in `existing`. */
  function Apply(m: Mutator, existing: Object, desired: Object): Outcome<Object> {
    match MergeBody(m, existing.body, desired.body)
    case Done(body) => Done(Object(MergeMeta(m, existing.meta, desired.meta), body))
    case Rejected(reason) => Rejected(reason)
    case Panicked => Panicked
  }
}
