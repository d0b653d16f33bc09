/**
 What every mutate function takes from the desired object, field by field. The laws in
 `MutateLaws` say that a second call changes nothing; these say what the first one does.
 */
module MutateTakes {
  import opened Objects
  import opened Mutate
  import opened MutateLaws

  // ---- pod templates ----

  /** `r` is the desired container `d` laid over its namesake among the existing ones, the last of that name. */
  ghost predicate ContainerTaken(existing: seq<Container>, d: Container, r: Container) {
    var namesake := FindContainer(existing, d.name);
    var e := namesake.GetOr(NO_CONTAINER);
    && r.name == d.name && r.managed == d.managed && r.serverSet == e.serverSet
    && ProbeMerged(e.liveness, d.liveness, r.liveness) && ProbeMerged(e.readiness, d.readiness, r.readiness)
    && ProbeMerged(e.startup, d.startup, r.startup)
    && (d.terminationMessagePath != UNSET ==> r.terminationMessagePath == d.terminationMessagePath)
    && (d.terminationMessagePolicy != UNSET ==> r.terminationMessagePolicy == d.terminationMessagePolicy)
  }

  /** The desired containers in their order; an empty list asks for nothing and keeps what is there. */
  ghost predicate ContainersTaken(existing: seq<Container>, desired: seq<Container>, r: seq<Container>) {
    if desired == [] then r == existing
    else |r| == |desired| && forall i :: 0 <= i < |desired| ==> ContainerTaken(existing, desired[i], r[i])
  }

  /** All the operator manages in a pod template is the desired one; what the server set stays. */
  ghost predicate TemplateTaken(e: PodTemplate, d: PodTemplate, r: PodTemplate) {
    && r.labels == d.labels && r.annotations == d.annotations && r.otherMeta == d.otherMeta
    && r.spec.affinity == d.spec.affinity && r.spec.nodeSelector == d.spec.nodeSelector
    && r.spec.tolerations == d.spec.tolerations && r.spec.priorityClassName == d.spec.priorityClassName
    && r.spec.securityContext == d.spec.securityContext
    && r.spec.terminationGracePeriodSeconds == d.spec.terminationGracePeriodSeconds
    && r.spec.volumes == d.spec.volumes && r.spec.serviceAccountName == d.spec.serviceAccountName
    && r.spec.imagePullSecrets == d.spec.imagePullSecrets && r.spec.hostAliases == d.spec.hostAliases
    && ContainersTaken(e.spec.initContainers, d.spec.initContainers, r.spec.initContainers)
    && ContainersTaken(e.spec.containers, d.spec.containers, r.spec.containers)
    && r.spec.serverSet == e.spec.serverSet
  }

  lemma MergedContainersTaken(existing: seq<Container>, desired: seq<Container>)
    ensures ContainersTaken(existing, desired, MergeContainers(existing, desired))
  {
    forall i: nat | i < |desired| ensures ContainerTaken(existing, desired[i], MergeContainers(existing, desired)[i]) {
      MergedContainer(existing, desired, i);
      hide MergeContainers, ProbeMerged;
    }
    hide ContainerTaken;
  }

  lemma MergedTemplateTaken(e: PodTemplate, d: PodTemplate)
    ensures TemplateTaken(e, d, MergePodTemplate(e, d))
  {
    MergedContainersTaken(e.spec.initContainers, d.spec.initContainers);
    MergedContainersTaken(e.spec.containers, d.spec.containers);
    hide ContainersTaken, MergeContainers;
  }

  // ---- the bodies ----

  ghost predicate WorkloadTaken(m: Mutator, e: WorkloadSpec, d: WorkloadSpec, r: WorkloadSpec) {
    && TemplateTaken(e.template, d.template, r.template) && r.selector == d.selector && r.serverSet == e.serverSet
    && r.replicas == (if m.MutateDaemonSet? then e.replicas else d.replicas)
    && (m.MutateStatefulSet? ==>
          && r.volumeClaimTemplates == d.volumeClaimTemplates && r.serviceName == d.serviceName
          && r.podManagementPolicy == d.podManagementPolicy)
  }

  /** Every field the desired Service sets; the others keep what is there, as `MutateLaws.ServiceKeepsAllocated` says. */
  predicate ServiceTaken(d: ServiceSpec, r: ServiceSpec) {
    && r.template == d.template
    && (d.clusterIP != UNSET ==> r.clusterIP == d.clusterIP) && (d.clusterIPs != UNSET ==> r.clusterIPs == d.clusterIPs)
    && (d.ipFamilies != UNSET ==> r.ipFamilies == d.ipFamilies)
    && (d.ipFamilyPolicy != UNSET ==> r.ipFamilyPolicy == d.ipFamilyPolicy)
    && (d.healthCheckNodePort != 0 ==> r.healthCheckNodePort == d.healthCheckNodePort)
    && (d.allocateLoadBalancerNodePorts.Some? ==> r.allocateLoadBalancerNodePorts == d.allocateLoadBalancerNodePorts)
    && (d.sessionAffinity != UNSET ==> r.sessionAffinity == d.sessionAffinity)
    && (d.externalTrafficPolicy != UNSET ==> r.externalTrafficPolicy == d.externalTrafficPolicy)
    && (d.internalTrafficPolicy != UNSET ==> r.internalTrafficPolicy == d.internalTrafficPolicy)
    && (d.trafficDistribution != UNSET ==> r.trafficDistribution == d.trafficDistribution)
    && |r.ports| == |d.ports|
    && forall i :: 0 <= i < |d.ports| ==>
         && r.ports[i].name == d.ports[i].name && r.ports[i].port == d.ports[i].port
         && r.ports[i].appProtocol == d.ports[i].appProtocol
         && (d.ports[i].nodePort != 0 ==> r.ports[i].nodePort == d.ports[i].nodePort)
         && (d.ports[i].protocol != UNSET ==> r.ports[i].protocol == d.ports[i].protocol)
         && (d.ports[i].targetPort != UNSET ==> r.ports[i].targetPort == d.ports[i].targetPort)
  }

  /** What the body becomes, for each kind of object. */
  ghost predicate BodyTaken(m: Mutator, e: Body, d: Body, r: Body) {
    match m
    case MutateSecret(keys) =>
      && e.Secret? && d.Secret? && r.Secret?
      && (e.data.None? ==> keys == [] && r.data.None?)
      && (e.data.Some? ==>
            && r.data.Some? && r.data.value.Keys == e.data.value.Keys + (set k | k in keys)
            && forall k :: k in r.data.value ==>
                 r.data.value[k] == if k in e.data.value then e.data.value[k] else BytesAt(d.data, k))
    case MutatePVC =>
      && e.PVC? && d.PVC? && r.PVC? && r.pvc.resources == d.pvc.resources
      && (d.pvc.volumeAttributesClassName.Some? ==> r.pvc.volumeAttributesClassName == d.pvc.volumeAttributesClassName)
      && r.pvc.accessModes == e.pvc.accessModes && r.pvc.volumeName == e.pvc.volumeName
      && r.pvc.storageClassName == e.pvc.storageClassName
    case MutateService => e.Service? && d.Service? && r.Service? && ServiceTaken(d.service, r.service)
    case MutateConfigMap => e.ConfigMap? && d.ConfigMap? && r.ConfigMap? && r.config == d.config && r.binary == e.binary
    case MutateStatefulSet =>
      e.StatefulSet? && d.StatefulSet? && r.StatefulSet? && WorkloadTaken(m, e.workload, d.workload, r.workload)
    case MutateDeployment =>
      e.Deployment? && d.Deployment? && r.Deployment? && WorkloadTaken(m, e.workload, d.workload, r.workload)
    case MutateDaemonSet =>
      e.DaemonSet? && d.DaemonSet? && r.DaemonSet? && WorkloadTaken(m, e.workload, d.workload, r.workload)
    case MutateJob =>
      && e.Job? && d.Job? && r.Job? && r.jobStatus == e.jobStatus && r.job.selector == e.job.selector
      && r.job.other == d.job.other && r.job.template.spec == d.job.template.spec
      && r.job.template.annotations == d.job.template.annotations
      && (forall k :: k in d.job.template.labels ==>
            k in r.job.template.labels && r.job.template.labels[k] == d.job.template.labels[k])
    case MutateMigration =>
      && e.Migration? && d.Migration? && r.Migration? && r.migrationReady == e.migrationReady
      && r.migration.pod == d.migration.pod && r.migration.databaseRef == d.migration.databaseRef
      && r.migration.migrations == d.migration.migrations
    case MutateClusterRole => e.ClusterRole? && d.ClusterRole? && r.ClusterRole? && r.rules == d.rules
    case MutateClusterRoleBinding =>
      && e.ClusterRoleBinding? && d.ClusterRoleBinding? && r.ClusterRoleBinding?
      && r.subjects == d.subjects && r.roleRef == d.roleRef == e.roleRef
  }

  /** Labels are the desired ones, annotations are added to; Secrets and the cluster objects keep theirs. */
  predicate MetaTaken(m: Mutator, e: Meta, d: Meta, r: Meta) {
    if m.MutateSecret? || m.MutateClusterRole? || m.MutateClusterRoleBinding? then r == e
    else
      && r.labels == d.labels && r.annotations.Keys == e.annotations.Keys + d.annotations.Keys
      && forall k :: k in r.annotations ==>
           r.annotations[k] == if k in d.annotations then d.annotations[k] else e.annotations[k]
  }

  lemma WorkloadBodyTaken(m: Mutator, e: Body, d: Body)
    requires m.MutateStatefulSet? || m.MutateDeployment? || m.MutateDaemonSet?
    requires MergeBody(m, e, d).Done?
    ensures BodyTaken(m, e, d, MergeBody(m, e, d).value)
  {
    if (e.StatefulSet? || e.Deployment? || e.DaemonSet?) && (d.StatefulSet? || d.Deployment? || d.DaemonSet?) {
      MergedTemplateTaken(e.workload.template, d.workload.template);
    }
    hide TemplateTaken, MergePodTemplate;
  }

  lemma SecretBodyTaken(keys: seq<string>, e: Body, d: Body)
    requires MergeBody(MutateSecret(keys), e, d).Done?
    ensures BodyTaken(MutateSecret(keys), e, d, MergeBody(MutateSecret(keys), e, d).value)
  {
    assert (set k' | k' in keys) == (set k | k in keys);
  }

  lemma OtherBodyTaken(m: Mutator, e: Body, d: Body)
    requires !m.MutateSecret? && !m.MutateStatefulSet? && !m.MutateDeployment? && !m.MutateDaemonSet?
    requires MergeBody(m, e, d).Done?
    ensures BodyTaken(m, e, d, MergeBody(m, e, d).value)
  {
  }

  /**
   The law of the mutate functions: whatever object there is, an object that a mutate
   function leaves has taken from the desired one every field it manages, and has kept
   the rest.
   */
  lemma DesiredTaken(m: Mutator, e: Object, d: Object)
    requires Apply(m, e, d).Done?
    ensures var r := Apply(m, e, d).value;
      BodyTaken(m, e.body, d.body, r.body) && MetaTaken(m, e.meta, d.meta, r.meta)
  {
    assert MetaTaken(m, e.meta, d.meta, Apply(m, e, d).value.meta) by {
      hide MergeBody;
    }
    hide BodyTaken, MergeBody, MetaTaken;
    if m.MutateSecret? {
      SecretBodyTaken(m.keys, e.body, d.body);
    } else if m.MutateStatefulSet? || m.MutateDeployment? || m.MutateDaemonSet? {
      WorkloadBodyTaken(m, e.body, d.body);
    } else {
      OtherBodyTaken(m, e.body, d.body);
    }
  }
}
