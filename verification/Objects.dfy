/**
 The API objects the operator reads and writes.

 A field the operator only copies or compares as a whole is kept as a code for its
 value (`Raw`), zero being the unset field. Label and annotation maps do not
 tell nil from empty, as the semantic comparison of the write protocol does not
 either. Secret data does, since writing to a nil map stops the caller.
 */
module Objects {
  import opened Wrappers

  type Raw = int

  const UNSET: Raw := 0

  type StringMap = map<string, string>

  // ---- metadata ----

  // `incarnation` is the identity the server gives a child object when it creates it;
  // an object that is being deleted goes with its last finalizer.

  datatype OwnerRef = OwnerRef(kind: string, name: string, uid: string, controller: bool)

  datatype Meta = Meta(namespace: string, name: string, incarnation: nat, version: nat,
                       deleting: bool, finalizers: set<string>,
                       owners: seq<OwnerRef>, labels: StringMap, annotations: StringMap)

  datatype Owner = Owner(kind: string, namespace: string, name: string, uid: string)

  // ---- pods ----

  datatype Ref = Ref(name: string, optional: Option<bool>)

  datatype KeyRef = KeyRef(name: string, key: string, optional: Option<bool>)

  datatype ValueFrom = ValueFrom(secretKey: Option<KeyRef>, configKey: Option<KeyRef>, other: Raw)

  datatype EnvVar = EnvVar(name: string, value: string, valueFrom: Option<ValueFrom>)

  datatype EnvFrom = EnvFrom(prefix: string, secret: Option<Ref>, config: Option<Ref>)

  datatype Projection = Projection(secret: Option<Ref>, config: Option<Ref>, other: Raw)

  datatype Volume = Volume(name: string, secret: Option<Ref>, config: Option<Ref>,
                           projected: Option<seq<Projection>>, other: Raw)

  datatype ProbeValue = ProbeValue(handler: Raw, initialDelaySeconds: int,
                                   terminationGracePeriodSeconds: Option<int>, periodSeconds: int,
                                   timeoutSeconds: int, failureThreshold: int, successThreshold: int)

  /** The container fields the operator always sets, whatever the server holds. */
  datatype Managed = Managed(
    image: Raw, command: Raw, args: Raw, workingDir: Raw, ports: Raw,
    envFrom: seq<EnvFrom>, env: seq<EnvVar>, resources: Raw, volumeMounts: Raw, volumeDevices: Raw,
    lifecycle: Raw, imagePullPolicy: Raw, securityContext: Raw)

  /** `serverSet` stands for every container field the operator never writes. */
  datatype Container = Container(
    name: string, managed: Managed,
    liveness: Option<ProbeValue>, readiness: Option<ProbeValue>, startup: Option<ProbeValue>,
    terminationMessagePath: Raw, terminationMessagePolicy: Raw, serverSet: Raw)

  datatype PodSpec = PodSpec(
    affinity: Raw, nodeSelector: StringMap, tolerations: Raw, priorityClassName: Raw, securityContext: Raw,
    terminationGracePeriodSeconds: Option<int>, volumes: seq<Volume>, serviceAccountName: Raw,
    imagePullSecrets: Raw, hostAliases: Raw,
    initContainers: seq<Container>, containers: seq<Container>, serverSet: Raw)

  datatype PodTemplate = PodTemplate(labels: StringMap, annotations: StringMap, otherMeta: Raw, spec: PodSpec)

  function Variable(name: string, value: string): EnvVar { EnvVar(name, value, None) }

  function FromSecret(name: string, secret: KeyRef): EnvVar {
    EnvVar(name, "", Some(ValueFrom(Some(secret), None, UNSET)))
  }

  // ---- object bodies ----

  datatype PVCSpec = PVCSpec(
    accessModes: Raw, selector: Raw, volumeName: Raw, storageClassName: Option<string>, volumeMode: Raw,
    dataSource: Raw, dataSourceRef: Raw, resources: Raw, volumeAttributesClassName: Option<string>)

  datatype ServicePort = ServicePort(name: string, port: int, protocol: Raw, nodePort: int,
                                     targetPort: Raw, appProtocol: Raw)

  /** `template` stands for the fields always taken from the desired Service, such as type and selector. */
  datatype ServiceSpec = ServiceSpec(
    clusterIP: Raw, clusterIPs: Raw, ipFamilies: Raw, ipFamilyPolicy: Raw, healthCheckNodePort: int,
    allocateLoadBalancerNodePorts: Option<bool>, sessionAffinity: Raw, externalTrafficPolicy: Raw,
    internalTrafficPolicy: Raw, trafficDistribution: Raw, ports: seq<ServicePort>, template: Raw)

  datatype WorkloadSpec = WorkloadSpec(
    replicas: Option<int>, selector: Raw, template: PodTemplate, volumeClaimTemplates: Raw,
    serviceName: Raw, podManagementPolicy: Raw, serverSet: Raw)

  datatype JobSpec = JobSpec(selector: Raw, template: PodTemplate, other: Raw)

  datatype JobStatus = JobStatus(succeeded: nat, failed: nat)

  datatype DatabaseRef = DatabaseRef(kind: string, name: string)

  datatype MigrationEntry = MigrationEntry(name: string, sql: string)

  datatype MigrationSpec = MigrationSpec(pod: Raw, databaseRef: DatabaseRef, migrations: seq<MigrationEntry>)

  datatype Body =
    | Secret(data: Option<map<string, string>>)
    | PVC(pvc: PVCSpec)
    | Service(service: ServiceSpec)
    | ConfigMap(config: map<string, string>, binary: map<string, string>)
    | StatefulSet(workload: WorkloadSpec)
    | Deployment(workload: WorkloadSpec)
    | DaemonSet(workload: WorkloadSpec)
    | Job(job: JobSpec, jobStatus: JobStatus)
    | Migration(migration: MigrationSpec, migrationReady: bool)
    | ClusterRole(rules: Raw)
    | ClusterRoleBinding(roleRef: string, subjects: Raw)

  datatype Kind =
    | KindSecret | KindPVC | KindService | KindConfigMap | KindStatefulSet | KindDeployment | KindDaemonSet
    | KindJob | KindMigration | KindClusterRole | KindClusterRoleBinding

  function KindOf(b: Body): Kind {
    match b
    case Secret(_) => KindSecret
    case PVC(_) => KindPVC
    case Service(_) => KindService
    case ConfigMap(_, _) => KindConfigMap
    case StatefulSet(_) => KindStatefulSet
    case Deployment(_) => KindDeployment
    case DaemonSet(_) => KindDaemonSet
    case Job(_, _) => KindJob
    case Migration(_, _) => KindMigration
    case ClusterRole(_) => KindClusterRole
    case ClusterRoleBinding(_, _) => KindClusterRoleBinding
  }

  datatype Object = Object(meta: Meta, body: Body)

  datatype Key = Key(kind: Kind, namespace: string, name: string)

  function KeyOf(o: Object): Key {
    Key(KindOf(o.body), o.meta.namespace, o.meta.name)
  }

  // ---- ownership ----

  const OWNER_UID := "core.supabase.io/owner-uid"

  /** The owner-uid annotation as a map lookup reads it: a missing key reads as empty. */
  function OwnerUid(o: Object): string {
    if OWNER_UID in o.meta.annotations then o.meta.annotations[OWNER_UID] else ""
  }

  /** The first owner reference marked as the controller. */
  function ControllerOf(owners: seq<OwnerRef>): (r: Option<OwnerRef>)
    ensures r.Some? ==> exists i :: 0 <= i < |owners| && owners[i] == r.value && r.value.controller
                                    && forall j :: 0 <= j < i ==> !owners[j].controller
    ensures r.None? ==> forall o :: o in owners ==> !o.controller
  {
    if owners == [] then None
    else if owners[0].controller then Some(owners[0])
    else ControllerOf(owners[1..])
  }

  predicate IsControlledBy(o: Object, owner: Owner) {
    var c := ControllerOf(o.meta.owners);
    c.Some? && c.value.uid == owner.uid
  }
}
