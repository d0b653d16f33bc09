/**
 The mutate functions as the controllers run them: on an object in memory, field by
 field. Each leaves exactly what `Mutate.Apply` says.
 */
module InPlace {
  import opened Wrappers
  import opened Objects
  import opened Mutate

  class Resource {
    var meta: Meta
    var body: Body

    constructor (o: Object)
      ensures Value() == o
    {
      meta, body := o.meta, o.body;
    }

    function Value(): Object
      reads this
    {
      Object(meta, body)
    }
  }

  /** What a mutate function returns, and what it leaves in `existing`. */
  ghost predicate Leaves(m: Mutator, e: Object, d: Object, returned: Outcome<()>, after: Object) {
    match Apply(m, e, d)
    case Done(o) => returned == Done(()) && after == o
    case Rejected(reason) => returned == Rejected(reason) && after == e
    case Panicked => returned == Panicked
  }

  /** Labels are replaced, annotations merged. */
  method CopyLabelsMergeAnnotations(existing: Resource, desired: Resource)
    modifies existing
    ensures existing.body == old(existing.body)
    ensures existing.meta == old(existing.meta).(labels := desired.meta.labels,
              annotations := MergeStringMaps(old(existing.meta.annotations), desired.meta.annotations))
  {
    existing.meta := existing.meta.(labels := desired.meta.labels);
    existing.meta := existing.meta.(annotations := MergeStringMaps(existing.meta.annotations, desired.meta.annotations));
  }

  lemma NothingCopied(existing: map<string, string>, desired: Option<map<string, string>>)
    ensures CopyMissing([], existing, desired) == existing
  {
  }

  lemma CopyOneMore(keys: seq<string>, i: nat, existing: map<string, string>, desired: Option<map<string, string>>)
    requires i < |keys|
    ensures var before := CopyMissing(keys[..i], existing, desired);
      CopyMissing(keys[..i + 1], existing, desired)
      == if keys[i] in before then before else before[keys[i] := BytesAt(desired, keys[i])]
  {
    assert keys[..i + 1] == keys[..i] + [keys[i]];
  }

  method RunMutateSecret(keys: seq<string>, existing: Resource, desired: Resource) returns (r: Outcome<()>)
    requires existing != desired && existing.body.Secret? && desired.body.Secret?
    modifies existing
    ensures desired.Value() == old(desired.Value())
    ensures Leaves(MutateSecret(keys), old(existing.Value()), desired.Value(), r, existing.Value())
  {
    hide CopyMissing;
    ghost var before := existing.body.data;
    if before.Some? {
      NothingCopied(before.value, desired.body.data);
    }
    for i := 0 to |keys|
      invariant existing.meta == old(existing.meta) && existing.body.Secret? && desired.Value() == old(desired.Value())
      invariant existing.body.data.Some? == before.Some?
      invariant before.None? ==> i == 0 && existing.body == old(existing.body)
      invariant before.Some? ==>
        existing.body.data.value == CopyMissing(keys[..i], before.value, desired.body.data)
    {
      var data := existing.body.data;
      if before.Some? {
        CopyOneMore(keys, i, before.value, desired.body.data);
      }
      if data.Some? && keys[i] in data.value {
        continue;
      }
      if data.None? {
        return Panicked;
      }
      existing.body := Secret(Some(data.value[keys[i] := BytesAt(desired.body.data, keys[i])]));
    }
    assert keys[..|keys|] == keys;
    return Done(());
  }

  method RunMutatePVC(existing: Resource, desired: Resource) returns (r: Outcome<()>)
    requires existing != desired && existing.body.PVC? && desired.body.PVC?
    modifies existing
    ensures desired.Value() == old(desired.Value())
    ensures Leaves(MutatePVC, old(existing.Value()), desired.Value(), r, existing.Value())
  {
    var violation := ImmutableViolation(existing.body.pvc, desired.body.pvc);
    if violation != "" {
      return Rejected("PVC " + violation + " is immutable");
    }
    existing.body := PVC(existing.body.pvc.(resources := desired.body.pvc.resources));
    if desired.body.pvc.volumeAttributesClassName.Some? {
      existing.body := PVC(existing.body.pvc.(
                             volumeAttributesClassName := desired.body.pvc.volumeAttributesClassName));
    }
    CopyLabelsMergeAnnotations(existing, desired);
    existing.meta := existing.meta.(owners := desired.meta.owners);
    return Done(());
  }

  /** Copies the desired spec, then puts back what the server allocated wherever the desired field is unset. */
  method RunMutateService(existing: Resource, desired: Resource) returns (r: Outcome<()>)
    requires existing != desired && existing.body.Service? && desired.body.Service?
    modifies existing
    ensures desired.Value() == old(desired.Value())
    ensures Leaves(MutateService, old(existing.Value()), desired.Value(), r, existing.Value())
  {
    var result := PreserveAllocated(existing.body.service, desired.body.service);
    var ports := PreservePorts(existing.body.service.ports, desired.body.service.ports);
    existing.body := Service(result.(ports := ports));
    CopyLabelsMergeAnnotations(existing, desired);
    return Done(());
  }

  method PreserveAllocated(current: ServiceSpec, desired: ServiceSpec) returns (result: ServiceSpec)
    ensures result == MergeAllocated(current, desired)
  {
    result := desired;
    if desired.clusterIP == UNSET { result := result.(clusterIP := current.clusterIP); }
    if desired.clusterIPs == UNSET { result := result.(clusterIPs := current.clusterIPs); }
    if desired.ipFamilies == UNSET { result := result.(ipFamilies := current.ipFamilies); }
    if desired.ipFamilyPolicy == UNSET { result := result.(ipFamilyPolicy := current.ipFamilyPolicy); }
    if desired.healthCheckNodePort == 0 { result := result.(healthCheckNodePort := current.healthCheckNodePort); }
    if desired.allocateLoadBalancerNodePorts.None? {
      result := result.(allocateLoadBalancerNodePorts := current.allocateLoadBalancerNodePorts);
    }
    if desired.sessionAffinity == UNSET { result := result.(sessionAffinity := current.sessionAffinity); }
    if desired.externalTrafficPolicy == UNSET { result := result.(externalTrafficPolicy := current.externalTrafficPolicy); }
    if desired.internalTrafficPolicy == UNSET { result := result.(internalTrafficPolicy := current.internalTrafficPolicy); }
    if desired.trafficDistribution == UNSET { result := result.(trafficDistribution := current.trafficDistribution); }
  }

  method PreservePorts(current: seq<ServicePort>, desired: seq<ServicePort>) returns (result: seq<ServicePort>)
    ensures result == MergePorts(current, desired)
  {
    result := desired;
    for i := 0 to |desired|
      invariant |result| == |desired|
      invariant forall j :: 0 <= j < i ==> result[j] == MergePorts(current, desired)[j]
      invariant forall j :: i <= j < |desired| ==> result[j] == desired[j]
    {
      var found := FindServicePort(current, result[i]);
      if found.None? {
        continue;
      }
      if desired[i].nodePort == 0 { result := result[i := result[i].(nodePort := found.value.nodePort)]; }
      if desired[i].protocol == UNSET { result := result[i := result[i].(protocol := found.value.protocol)]; }
      if desired[i].targetPort == UNSET { result := result[i := result[i].(targetPort := found.value.targetPort)]; }
    }
  }

  method RunMutateConfigMap(existing: Resource, desired: Resource) returns (r: Outcome<()>)
    requires existing != desired && existing.body.ConfigMap? && desired.body.ConfigMap?
    modifies existing
    ensures desired.Value() == old(desired.Value())
    ensures Leaves(MutateConfigMap, old(existing.Value()), desired.Value(), r, existing.Value())
  {
    existing.body := existing.body.(config := desired.body.config);
    CopyLabelsMergeAnnotations(existing, desired);
    return Done(());
  }

  method RunMutateStatefulSet(existing: Resource, desired: Resource) returns (r: Outcome<()>)
    requires existing != desired && existing.body.StatefulSet? && desired.body.StatefulSet?
    modifies existing
    ensures desired.Value() == old(desired.Value())
    ensures Leaves(MutateStatefulSet, old(existing.Value()), desired.Value(), r, existing.Value())
  {
    var e, d := existing.body.workload, desired.body.workload;
    e := e.(replicas := d.replicas);
    e := e.(selector := d.selector);
    e := e.(template := MergePodTemplate(e.template, d.template));
    e := e.(volumeClaimTemplates := d.volumeClaimTemplates);
    e := e.(serviceName := d.serviceName);
    e := e.(podManagementPolicy := d.podManagementPolicy);
    existing.body := StatefulSet(e);
    CopyLabelsMergeAnnotations(existing, desired);
    return Done(());
  }

  method RunMutateDeployment(existing: Resource, desired: Resource) returns (r: Outcome<()>)
    requires existing != desired && existing.body.Deployment? && desired.body.Deployment?
    modifies existing
    ensures desired.Value() == old(desired.Value())
    ensures Leaves(MutateDeployment, old(existing.Value()), desired.Value(), r, existing.Value())
  {
    var e, d := existing.body.workload, desired.body.workload;
    e := e.(replicas := d.replicas);
    e := e.(selector := d.selector);
    e := e.(template := MergePodTemplate(e.template, d.template));
    existing.body := Deployment(e);
    CopyLabelsMergeAnnotations(existing, desired);
    return Done(());
  }

  method RunMutateDaemonSet(existing: Resource, desired: Resource) returns (r: Outcome<()>)
    requires existing != desired && existing.body.DaemonSet? && desired.body.DaemonSet?
    modifies existing
    ensures desired.Value() == old(desired.Value())
    ensures Leaves(MutateDaemonSet, old(existing.Value()), desired.Value(), r, existing.Value())
  {
    var e, d := existing.body.workload, desired.body.workload;
    e := e.(selector := d.selector);
    e := e.(template := MergePodTemplate(e.template, d.template));
    existing.body := DaemonSet(e);
    CopyLabelsMergeAnnotations(existing, desired);
    return Done(());
  }

  method RunMutateJob(existing: Resource, desired: Resource) returns (r: Outcome<()>)
    requires existing != desired && existing.body.Job? && desired.body.Job?
    modifies existing
    ensures desired.Value() == old(desired.Value())
    ensures Leaves(MutateJob, old(existing.Value()), desired.Value(), r, existing.Value())
  {
    var selector := existing.body.job.selector;
    var templateLabels := MergeStringMaps(existing.body.job.template.labels, desired.body.job.template.labels);
    var j := desired.body.job;
    j := j.(selector := selector);
    j := j.(template := j.template.(labels := templateLabels));
    existing.body := existing.body.(job := j);
    CopyLabelsMergeAnnotations(existing, desired);
    return Done(());
  }

  method RunMutateMigration(existing: Resource, desired: Resource) returns (r: Outcome<()>)
    requires existing != desired && existing.body.Migration? && desired.body.Migration?
    modifies existing
    ensures desired.Value() == old(desired.Value())
    ensures Leaves(MutateMigration, old(existing.Value()), desired.Value(), r, existing.Value())
  {
    existing.body := existing.body.(migration := desired.body.migration);
    CopyLabelsMergeAnnotations(existing, desired);
    return Done(());
  }

  method RunMutateClusterRole(existing: Resource, desired: Resource) returns (r: Outcome<()>)
    requires existing != desired && existing.body.ClusterRole? && desired.body.ClusterRole?
    modifies existing
    ensures desired.Value() == old(desired.Value())
    ensures Leaves(MutateClusterRole, old(existing.Value()), desired.Value(), r, existing.Value())
  {
    existing.body := ClusterRole(desired.body.rules);
    return Done(());
  }

  method RunMutateClusterRoleBinding(existing: Resource, desired: Resource) returns (r: Outcome<()>)
    requires existing != desired && existing.body.ClusterRoleBinding? && desired.body.ClusterRoleBinding?
    modifies existing
    ensures desired.Value() == old(desired.Value())
    ensures Leaves(MutateClusterRoleBinding, old(existing.Value()), desired.Value(), r, existing.Value())
  {
    if existing.body.roleRef != desired.body.roleRef {
      return Rejected("vector role reference is immutable");
    }
    existing.body := existing.body.(subjects := desired.body.subjects);
    return Done(());
  }

  predicate PodMutator(m: Mutator) {
    m.MutateStatefulSet? || m.MutateDeployment? || m.MutateDaemonSet? || m.MutateJob?
  }

  method RunPodMutator(m: Mutator, existing: Resource, desired: Resource) returns (r: Outcome<()>)
    requires existing != desired && PodMutator(m)
    modifies existing
    ensures desired.Value() == old(desired.Value())
    ensures Leaves(m, old(existing.Value()), desired.Value(), r, existing.Value())
  {
    if m.MutateStatefulSet? && existing.body.StatefulSet? && desired.body.StatefulSet? {
      r := RunMutateStatefulSet(existing, desired);
    } else if m.MutateDeployment? && existing.body.Deployment? && desired.body.Deployment? {
      r := RunMutateDeployment(existing, desired);
    } else if m.MutateDaemonSet? && existing.body.DaemonSet? && desired.body.DaemonSet? {
      r := RunMutateDaemonSet(existing, desired);
    } else if m.MutateJob? && existing.body.Job? && desired.body.Job? {
      r := RunMutateJob(existing, desired);
    } else {
      r := Rejected("desired object is of another kind");
    }
  }

  method RunOtherMutator(m: Mutator, existing: Resource, desired: Resource) returns (r: Outcome<()>)
    requires existing != desired && !PodMutator(m)
    modifies existing
    ensures desired.Value() == old(desired.Value())
    ensures Leaves(m, old(existing.Value()), desired.Value(), r, existing.Value())
  {
    if m.MutateSecret? && existing.body.Secret? && desired.body.Secret? {
      r := RunMutateSecret(m.keys, existing, desired);
    } else if m.MutatePVC? && existing.body.PVC? && desired.body.PVC? {
      r := RunMutatePVC(existing, desired);
    } else if m.MutateService? && existing.body.Service? && desired.body.Service? {
      r := RunMutateService(existing, desired);
    } else if m.MutateConfigMap? && existing.body.ConfigMap? && desired.body.ConfigMap? {
      r := RunMutateConfigMap(existing, desired);
    } else if m.MutateMigration? && existing.body.Migration? && desired.body.Migration? {
      r := RunMutateMigration(existing, desired);
    } else if m.MutateClusterRole? && existing.body.ClusterRole? && desired.body.ClusterRole? {
      r := RunMutateClusterRole(existing, desired);
    } else if m.MutateClusterRoleBinding? && existing.body.ClusterRoleBinding? && desired.body.ClusterRoleBinding? {
      r := RunMutateClusterRoleBinding(existing, desired);
    } else {
      r := Rejected("desired object is of another kind");
    }
  }

  /** The `mutateFn` a controller passes to the write protocol, run on a copy of `o`. */
  method RunOnCopy(m: Mutator, o: Object, desired: Resource) returns (r: Outcome<Object>)
    ensures r == Apply(m, o, desired.Value())
  {
    var copy := new Resource(o);
    var outcome;
    if PodMutator(m) {
      outcome := RunPodMutator(m, copy, desired);
    } else {
      outcome := RunOtherMutator(m, copy, desired);
    }
    match outcome
    case Done(_) => return Done(copy.Value());
    case Rejected(reason) => return Rejected(reason);
    case Panicked => return Panicked;
  }
}
