# A verified model of the Supabase operator

The operator turns custom resources (Project, Migration, Analytics, Vector and other
components) into Kubernetes objects. It has no lock and no transaction. Everything it
promises rests on three things: the versions the API server gives objects, the order in
which a pass writes, and the fact that any pass may be cut off and run again.

This project models that in Dafny and proves what it is for.

- **The store and the write protocol.** `Objects`, `Store`: versioned objects, creation
  that fails on an existing key, updates that fail on a stale version. `Mutate`: what
  every mutate function makes of an object. `MutateLaws`, `ServerDefaults`: fixed
  points, idempotence, and that a server that fills unset fields stores the same object
  again. `MutateTakes`: what is taken from the desired object, field by field. `Ensure`,
  `EnsureRuns`, `EnsureSettles`, `EnsureTakes`: `EnsureResource` cut at its API calls,
  run in any interleaving, when it succeeds and what it leaves. `InPlace`, `PodMerge`,
  `Protocol`: the same as it runs, on objects in memory and on a heap of shared probes.
  `Status`: conditions, and the status write that retries on conflict.
- **The reconcilers.** `Vector`, `Component`, `Analytics`, `Migration`: step machines,
  with a crash, a user or another controller possible between any two API calls;
  `VectorCreates`: what a pass over a live Vector brings about. `Project`: the main
  machine with one pass as one step, in which any call may fail, with or without having
  been carried out, or be the last. `ProjectChildren`, `ProjectReady`, `ProjectSync`,
  `ProjectLeftover`, `ProjectExample`: what Ready and the sync hashes stand for.
  `ProjectSteps`: the same pass cut at its API calls, with a trace of what each gate
  read; `ProjectQuiet`: undisturbed, it is the one step. `ProjectReconcile` and the
  other `Controller` classes: the machines as programs.
- **The data they rest on.** `EnvVars`, `Names`, `Preimage`, `Inputs`, `Tags`: merging
  variables, bounded names, hashed texts, the stamp of what a pod consumes, and the
  script that updates and reads image tags.

How to read the results:

- A hash is a function parameter. Results about hashes say "or the digest collides" rather
  than taking the digest to be injective.
- Defaulting by the API server is a function parameter too (`Server`), with the laws a
  result needs as its `requires`.
- What other clients do is an arbitrary function or an arbitrary action, restricted only
  where a result says so. For the main restrictions a lemma shows what goes wrong without
  them.
- Some things a reader might expect do not hold of the code. They are stated as lemmas,
  with the exact condition where there is one: an applied Migration need not stay Ready
  (`Migration.AppliedStaysReady`), and once it is not it never is again
  (`Migration.NeverReadyAgain`); a sync Job left over from before a password change is taken
  for success (`ProjectExample.UnprovenHash`, `ProjectLeftover.StoredHashProven`); storing the
  JWTSyncHash writes Ready=True again while the PasswordSyncHash is stale
  (`ProjectReady.ReadyOffGates`); a Project with every gate open need not become Ready
  (`ProjectReady.ForeignMigrationBlocks`); a status write finds its object by name, so a
  replaced Migration or Project can get the status of its predecessor
  (`Migration.ReplacedMigrationInheritsHash`, `ProjectSteps.ReplacedProjectInheritsReady`); a
  cluster role or binding with a finalizer of someone else outlives its Vector
  (`Vector.DeletionCompletes`); the only unnamed Service port can lose its NodePort
  (`MutateLaws.UnnamedPortLosesNodePort`); and an explicitly empty owner-uid in the desired
  object clears the annotation (`Ensure.OwnerUidCleared`). The comment on `EnsureResource`
  speaks of a comparison that ignores server defaults; the code compares for equality, and
  so does the model.

## Model

| member | source | states |
|---|---|---|
| Objects.ControllerOf | internal/reconciler/ensure.go:95 | the controller is the first owner reference marked as one, and there is none exactly if no reference is marked |
| Mutate.FindServicePort | internal/reconciler/mutate.go:164-176 | the first port that matches the desired one by name, or by number and protocol if that has no name; nothing is found only if none matches |
| Mutate.FindContainer | internal/reconciler/mutate.go:249-262 | the last container of the name; nothing is found only if none has it |
| MutateLaws.MergedContainer | internal/reconciler/mutate.go:245-322 | for any existing list: a merged container has every managed field of the desired one and what the server set on its last namesake; each of the three probes is the desired one, with the success threshold of the namesake where it sets none, or the one of the namesake where it is absent; each termination field is the desired one if set; without a namesake it is the desired container |
| MutateLaws.MergeContainersIdempotent | internal/reconciler/mutate.go:245-322 | merging containers of distinct names a second time changes nothing |
| MutateLaws.MergedPort | internal/reconciler/mutate.go:148-176 | ports come out in desired order; NodePort, Protocol and TargetPort are the desired ones if set, else those of the current port of that name; without one, the port is the desired port |
| MutateLaws.MergePortsOrderIndependent | internal/reconciler/mutate.go:148-176 | the order in which the server lists the current ports does not matter |
| MutateLaws.UnnamedPortLosesNodePort | internal/reconciler/mutate.go:164-176 | a lone unnamed port keeps its allocated NodePort exactly if its protocol equals the current one |
| MutateLaws.ClaimKeepsImmutable | internal/reconciler/mutate.go:60-102 | a claim is updated exactly if every immutable field agrees wherever the desired claim sets it, access modes always; then none of them changes, the resources are the desired ones, and so is the attributes class if set |
| MutateLaws.ServiceKeepsAllocated | internal/reconciler/mutate.go:104-147 | every field the server allocates and the desired Service leaves unset keeps its current value |
| MutateLaws.MutateFixpoint | internal/reconciler/mutate.go:44-366 | every mutate function leaves a desired object mutated by itself unchanged, exactly if a Secret lacks none of the keys asked for |
| MutateLaws.MutateIdempotent | internal/reconciler/mutate.go:44-366 | mutating twice with the same desired object is mutating once, for every mutate function |
| MutateTakes.DesiredTaken | internal/reconciler/mutate.go:44-366 | field by field, for every mutate function and whatever object was there: the result has the desired value of each field it manages (replicas, selector, pod labels, annotations and managed pod fields, each container by its namesake, ConfigMap data, Job and Migration specs, rules, subjects, each Service field that is set, labels, annotations laid over) and the existing value of the rest |
| ServerDefaults.StoredBodyStays | internal/reconciler/mutate.go:44-366 | against a server that fills unset fields the same way each time, mutating the stored body and storing it again gives the stored body |
| Ensure.UpsertController | internal/reconciler/ensure.go:67-71 | after the owner reference is set on an object no other owner controls, it is the controller |
| Ensure.MutatorKeepsIdentity | internal/reconciler/mutate.go:44-366 | no mutate function changes key, version or incarnation, or makes up an owner or an owner-uid |
| Ensure.OwnerUidFixed | internal/reconciler/ensure.go:94-115 | an update changes the owner-uid annotation exactly if the desired object carries it with an empty value, the mutate function merges annotations, and it was set |
| Ensure.OwnerUidCleared | internal/reconciler/ensure.go:97-106 | such a call: a desired object with an empty annotation makes an update that loses the stored UID |
| Ensure.BeginJustified | internal/reconciler/ensure.go:60-117 | what a call decides to write is for the key it was asked for, and an update is of the very object it read and was allowed to write |
| Ensure.FinishFrame | internal/reconciler/ensure.go:88-116 | a write touches no key but its own |
| EnsureTakes.EnsureSucceeds | internal/reconciler/ensure.go:60-117 | an undisturbed call succeeds if and only if the owner can own the object, an object already there is its child or retained for it, the mutate function accepts it, and the server does not refuse the change |
| EnsureTakes.EnsureLeaves | internal/reconciler/ensure.go:60-117 | after success the object is there with every managed field, label and annotation of the desired one, whatever was there before, and controlled by the owner if new |
| EnsureRuns.OwnershipSafety | internal/reconciler/ensure.go:60-117 | in any interleaving of calls, crashes and other clients, a write changes an existing object only if the call was allowed to write exactly that object, and keeps its owner-uid unless asked to clear it |
| EnsureRuns.ControllerStable | internal/reconciler/ensure.go:94-100 | whatever calls of whatever owners are in flight or start, an object controlled by one owner and not marked for another stays so |
| EnsureRuns.SecretBytesNeverChange | internal/reconciler/mutate.go:46-56 | in any interleaving, a Secret write keeps every byte the Secret held |
| EnsureRuns.SecretOneGeneration | internal/controller/project/controller.go:426-501 | over any number of passes with fresh random values, if keys are lost only with the whole Secret, all listed keys come from one pass |
| EnsureSettles.EnsureConverges | internal/reconciler/ensure.go:101-116 | after one successful call any number of further calls leaves the store as it is, versions included |
| EnsureSettles.SecondEnsureUnchanged | internal/reconciler/ensure.go:107-111 | against a server that stores what it is sent, the second call returns Unchanged and writes nothing |
| InPlace.RunMutateSecret | internal/reconciler/mutate.go:46-56 | the loop over the keys leaves what the specification says, keeps present keys, and stops at the first missing key of a nil map |
| InPlace.PreservePorts | internal/reconciler/mutate.go:148-176 | the loop over the ports in place gives the merged ports |
| InPlace.RunOnCopy | internal/reconciler/ensure.go:102-105 | every mutate function run in place on a copy gives the object `Apply` gives, which `MutateTakes.DesiredTaken` describes field by field, or its error |
| PodMerge.MergeProbe | internal/reconciler/mutate.go:304-322 | writes through the existing probe, copies a probe only the desired container has, keeps the old one if the desired one is nil, and leaves the desired probe alone |
| PodMerge.MergeContainer | internal/reconciler/mutate.go:269-302 | the merged container has the merged fields and probes, and shares no probe with itself |
| PodMerge.IndexByName | internal/reconciler/mutate.go:249-252 | the index holds the last container of each name |
| PodMerge.MergeContainers | internal/reconciler/mutate.go:245-267 | on a heap of shared probes: the result is the specified merge, the desired containers are untouched, and no two results share a probe |
| PodMerge.MergePodTemplate | internal/reconciler/mutate.go:220-243 | the whole template on a heap of shared probes: the result is the specified template, the desired one is untouched, and its two lists share no probe |
| Protocol.EnsureResource | internal/reconciler/ensure.go:60-117 | the protocol as it runs against a live store, with other clients acting between read and write, does exactly what `Begin` and `Finish` say |
| Status.SetConditionFinds | internal/reconciler/status.go:44-52 | after setting a condition its kind finds it, and every other kind finds what it found |
| Status.SetConditionLength | internal/reconciler/status.go:44-52 | a condition is added exactly if there was none of its kind |
| Status.Client.Attempt | internal/reconciler/status.go:67-75 | asks for another attempt exactly if the object needed the write and changed between read and write |
| Status.Client.UpdateStatus | internal/reconciler/status.go:65-84 | interleaved with arbitrary other writers: on success the stored status is the caller's and nothing else of the cluster differs from what the others left; an equal status is not written; a conflict is returned exactly after five beaten attempts, and then nothing was written |
| Status.QuietNotBeaten | internal/reconciler/status.go:65-77 | if nobody else writes the object the first attempt is not beaten |
| Vector.RbacAlwaysGuarded | internal/controller/vector/controller.go:49-104 | in every run, with crashes after any call, deletion at any time and others free to put finalizers on anything: the cluster role and binding of a UID exist only while the Vector of that UID exists with the finalizer, or as objects being deleted that a foreign finalizer holds |
| Vector.ReleasedVectorLeavesNothing | internal/controller/vector/controller.go:54-62 | whenever the finalizer or the Vector goes, nothing of its UID is left but objects being deleted that a foreign finalizer holds |
| Vector.DeletionCompletes | internal/controller/vector/rbac.go:36-52 | an undisturbed pass over a deleted Vector removes the finalizer and the Vector within five calls, and each of the two objects exactly if it has no finalizer of its own |
| Vector.ForeignObjectUntouched | internal/controller/vector/rbac.go:17-52 | in every run, a cluster role or binding that has the name for a UID but carries another owner's UID is neither changed nor deleted by any pass |
| Vector.Controller.Reconcile | internal/controller/vector/controller.go:49-104 | a whole pass, with everybody else acting before each call: the run starts a pass of this Vector if it exists, makes its calls and no others until it has ended, at most nine, and keeps the invariant; what its calls bring about is in the next rows |
| VectorCreates.CreationCompletes | internal/controller/vector/controller.go:64-104 | an undisturbed pass over a Vector that is not being deleted, with the gates open and a server that fills in nothing for these kinds, ends within eight calls with the finalizer on it; the cluster role with the log-reader rules and the binding of the collector to it, each carrying the UID, are both there if and only if each name was free or held by its own object |
| VectorCreates.EnsuredRight | internal/controller/vector/rbac.go:17-34 | one ensure of either object succeeds exactly if the name is available, then leaves it right, and touches nothing else |
| VectorCreates.WorkloadAfterBoth | internal/controller/vector/rbac.go:17-34 | in every run, whatever crashes, fails or is rewritten meanwhile, a pass that has come to the workload has had both objects there and right since it began |
| Component.OnePerProject | internal/controller/component/controller.go:93-122 | in every run, with gate and workload write as separate steps, of the resources of one kind naming one Project at most one has a workload or is past the gate |
| Component.GateInv | internal/controller/component/controller.go:111-121 | whoever passes the gate was alone in its Project, so passing it keeps the exclusion |
| Component.UndisturbedPass | internal/controller/component/controller.go:93-122 | an undisturbed pass writes its workload if and only if the Project is there and not being deleted, no other resource of the kind names it, the later gates let it through and the workload is not someone else's; otherwise it changes nothing |
| Analytics.OnePerDatabase | internal/controller/analytics/controller.go:31-45 | in every run, with each lookup of the check a separate step, of two Analytics not being deleted whose Projects share a database at most one has a workload or is past the check |
| Analytics.FurtherInv | internal/controller/analytics/controller.go:78-99 | a step of the check keeps the invariant if it meets or still will meet every rival |
| Analytics.DropMeets | internal/controller/analytics/controller.go:83-93 | what the check skips, itself, a deleting one, one without a Project or with another database, is no rival |
| Analytics.RepointBreaksExclusion | internal/controller/analytics/controller.go:94-96 | pointing a Project at the database of another breaks the exclusion when both run an Analytics |
| Analytics.StoppedByRival | internal/controller/analytics/controller.go:83-97 | in a reachable state, where the one looked at and the one worked for are as listed, the check stops for it if and only if the two are rivals: different names, neither being deleted, both Projects there, with one database |
| Analytics.UndisturbedPass | internal/controller/analytics/controller.go:31-67 | the exact outcome of an undisturbed pass over an Analytics with its Project: alone in it and without a rival it writes its own workload, unless a later gate or a workload of someone else stops it; with a rival it deletes its own; not alone it changes nothing |
| Analytics.Controller.CheckDatabaseConflict | internal/controller/analytics/controller.go:78-99 | undisturbed, the loop ends in the conflict exactly if some listed Analytics has another name, is not being deleted, and names a Project that is there with the same database; otherwise past the check |
| Analytics.Controller.Reconcile | internal/controller/analytics/controller.go:31-67 | a whole pass, with everybody else acting before each call: the run starts a pass of this Analytics if it exists, makes its calls and no others until it has ended, and keeps the invariant |
| Migration.HistoryOk | internal/controller/migration/controller.go:68-161 | in every run, with failing, lost and unheard calls and crashes: an applied hash is that of the script list, comes after a pass saw the Job succeed without failures, and never changes; Ready is stored only with it; no Job is created after it |
| Migration.StoredOk | internal/controller/migration/controller.go:225-233 | a stored applied hash is the hash of the immutable list that is there, and Ready implies applied |
| Migration.BatchEnsured | internal/controller/migration/controller.go:163-192 | whatever others do between its read and its write: if the ConfigMap ensure succeeds, the stored `batch.sql` was the batch of the list of the pass when it was read, or is that now |
| Migration.BatchBeforeJob | internal/controller/migration/controller.go:103-154 | in every run, a pass past the ConfigMap, up to the write of Ready, has had the batch of its own list stored since it began |
| Migration.JobRunsBatch | internal/defaults/migration/job.go:85-117 | before the pod overlay the Job has one container, which is given the login, the hash of the list and the path of the batch, and mounts the ConfigMap the pass ensures |
| Migration.CleanJobApplies | internal/controller/migration/controller.go:68-161 | an undisturbed pass over a Migration not applied, with a ready database and a Job that its ensure leaves succeeded without failures, stores the hash of the list together with Ready |
| Migration.ReplacedMigrationInheritsHash | internal/reconciler/status.go:65-76 | if the Migration is replaced before the status write, the new one gets the old hash, which is its own exactly if the two lists hash alike |
| Migration.AppliedStaysReady | internal/controller/migration/controller.go:80-115 | a pass with nobody else acting leaves an applied, Ready Migration Ready if and only if the database resolves and the ConfigMap ensure succeeds, or its report is not stored; it keeps the applied hash |
| Migration.NeverReadyAgain | internal/controller/migration/controller.go:112-115 | an applied Migration that is not Ready is not Ready in any later state of any run |
| Migration.Controller.UpdateStatus | internal/reconciler/status.go:65-77 | the retry loop ends the pass within five attempts, ten calls; on success the stored status is the one to be written |
| Migration.Controller.EnsureConfigMap | internal/controller/migration/controller.go:163-192 | on success leads to the Job, or to the end if the Migration is applied; on failure to the error report |
| Migration.Controller.EnsureJob | internal/controller/migration/controller.go:194-223 | leads to reading the Job back, or to the error report |
| Migration.Controller.GetJob | internal/controller/migration/controller.go:126-131 | reads the Job back and records what it saw: failures first, then completion, decide which status is to be written |
| Migration.Controller.CheckJob | internal/controller/migration/controller.go:126-160 | returns the error for a missing or failed Job, waits for one without success, and otherwise has stored the applied hash with Ready, or returns the error of that write |
| Migration.Controller.Reconcile | internal/controller/migration/controller.go:68-161 | a whole pass, with everybody else acting before each call and any call failing: the run starts a pass of this Migration if it exists, makes its calls and no others until it has ended, at most seventeen actions; the result is the one that belongs to what was read, and what was read was there |
| ProjectChildren.SecretEnsured | internal/controller/project/controller.go:426-501 | after a successful Ensure the Secret holds all its keys |
| ProjectChildren.SecretCallGenerates | internal/controller/project/controller.go:426-501 | each pass asks for fresh values of all listed keys, nine and four, which is what the one-generation result needs |
| ProjectChildren.EnsuredJob | internal/reconciler/ensure.go:94-117 | an ensured Job is the stored one, or has the desired variables with status and owners kept, or is new with no runs; after success it is there and is the caller's own unless it was marked as retained for it |
| ProjectChildren.MigrationEnsured | internal/controller/project/controller.go:316-343 | after a successful ensure the first Migration has the Project's database, pod and the built-in scripts |
| ProjectChildren.MigrationDeleted | internal/controller/project/controller.go:316-321 | a Project that wants no migrations has the first Migration gone, or being deleted and held by a finalizer |
| ProjectReady.ReadyOnlyBehindGates | internal/controller/project/controller.go:139-314 | whatever the world and whatever fails: behind every Ready=True a pass writes are a ready database, no Migration waiting, both Secrets with all keys, and the JWTSyncHash of the data that is there; the PasswordSyncHash too, unless it is the one the pass found, together with Ready |
| ProjectReady.BecomesReadyBehindGates | internal/controller/project/controller.go:307-310 | a Project that was not Ready becomes Ready only behind all gates, both hashes included |
| ProjectReady.ReadyIffGates | internal/controller/project/controller.go:139-314 | a pass with no failing call leaves the Project Ready if and only if the Migration and both Secrets got ensured and all gates hold when it ends |
| ProjectReady.ForeignMigrationBlocks | internal/controller/project/controller.go:174-181 | the gates alone do not suffice: a Ready first Migration that belongs to someone else keeps the Project from being Ready with all gates in place |
| ProjectReady.ReadyOffGates | internal/controller/project/controller.go:229-266 | a pass stores Ready=True with a gate missing if and only if the Project is Ready, it gets to the hashes, both stored ones are of other data, and the JWT stage ensures its Job, sees it succeeded without failures and has its hash write carried out |
| ProjectReady.PreparesInForce | internal/controller/project/controller.go:156-227 | the data a pass computes the hashes from is the data in force before it, if there was any |
| ProjectReady.ReadyCarriedOver | internal/controller/project/controller.go:261-265 | such a pass exists for every settled Ready Project with both hashes of other data and a JWT Job that ends up succeeded without failures |
| ProjectReady.GatesMakeReady | internal/controller/project/controller.go:139-314 | with all gates in place and nothing failing, a pass says Ready, writes no child object and keeps both hashes |
| ProjectSync.SyncHashProvenance | internal/controller/project/controller.go:229-305 | if the data the sync Jobs of a Project depend on changes only while it has none of its own, then, with the Project deleted and created again at any time: each stored hash is that of data whose variables, by name, a Job of that name completed with; the PasswordSyncHash is of what the pass that stored it observed, the JWTSyncHash of that or later data |
| ProjectSync.JobEnsureInv | internal/controller/project/controller.go:364-424 | in those runs a sync Job a pass has ensured is controlled by its Project, so a leftover of an earlier one is never taken for its own |
| ProjectSync.RunsWith | internal/defaults/project/sync_password_job.go:81-92 | a Job built for some data, running while that data is in force, is given exactly the values listed by name in `Values`, which is written without the list the Job is built from |
| ProjectSync.SyncJobsGet | internal/defaults/project/sync_jwt_job.go:81-90 | the variables a sync Job is given when it runs while its data is in force, name by name, none more and none missing: host, decimal port, user, password and database, with JWT_EXP the decimal expiry for one Job, and the administrator and server names for the other |
| ProjectSync.JwtValuesTell | internal/defaults/project/sync_jwt_job.go:81-90 | two runs of the sync-jwt Job with the same values were with the same login and expiry |
| ProjectSync.PasswordValuesTell | internal/defaults/project/sync_password_job.go:81-92 | two runs of the sync-password Job with the same values were with the same login, but for the database name |
| ProjectSync.HashTells | internal/defaults/project/helpers.go:30-53 | with the text fields before the password free of NUL, equal sync hashes mean the same database, user, host, port and password, and expiry for the JWTSyncHash, or a collision of the digest |
| ProjectLeftover.HashesEarned | internal/controller/project/controller.go:229-305 | whatever the world and whatever fails, a pass changes a sync hash only to that of the data in force, with the Job of that name there, succeeded and not failed |
| ProjectLeftover.StoredHashProven | internal/controller/project/controller.go:229-305 | without the guard: the Job found has completed, once, and the hash just stored is that of data it completed with if and only if that completion was with data of the same hash as the data in force |
| ProjectExample.JobIgnoresPassword | internal/defaults/project/sync_jwt_job.go:81-90 | the sync Jobs name the password, so their object does not depend on its value |
| ProjectExample.UnprovenHash | internal/controller/project/controller.go:229-265 | a run from an empty cluster, Job done, password edited, pass, after which the stored JWTSyncHash is of data no Job ever completed with, whenever the two passwords hash differently |
| ProjectSteps.ReadyBehindReads | internal/controller/project/controller.go:139-314 | the pass cut at its API calls, everybody else acting between any two: behind every Ready=True written, the same pass since it began has read every gate open, each read was true in the state it was made in, the hashes are those of the data it read, and the Project written is the one it began with |
| ProjectSteps.ReplacedProjectInheritsReady | internal/reconciler/status.go:65-76 | if the Project is replaced before the status write, the new one is Ready with the old hashes, which are its own exactly if the data hash alike |
| ProjectQuiet.UndisturbedPass | internal/controller/project/controller.go:139-314 | with nobody else acting, the pass made call by call ends within twenty-one calls in exactly the world that the pass made in one step leaves, for every way its calls may go |
| ProjectReconcile.PendingNames | internal/controller/project/controller.go:345-362 | the loop over the listed Migrations yields exactly the names of those of this database that are not Ready, in ascending order |
| ProjectReconcile.Controller.CheckMigrations | internal/controller/project/controller.go:183-199 | goes on only if none waits, and then has recorded that; otherwise reports, and the names it found were the pending ones in some state of the run |
| ProjectReconcile.Controller.EnsureMigration1 | internal/controller/project/controller.go:316-343 | ensures the first Migration, or deletes it when it is disabled; a failure leads to its report |
| ProjectReconcile.Controller.EnsureChild | internal/reconciler/ensure.go:60-117 | read and write of one child with everybody else acting between them; success leads to the next gate, failure to the report of this child |
| ProjectReconcile.Controller.EnsureSecrets | internal/controller/project/controller.go:201-217 | both Secrets ensured in order, each recorded as holding its keys, each error reported with its own reason |
| ProjectReconcile.Controller.GetDBPasswordValue | internal/controller/project/controller.go:503-513 | the value under the key of the referenced Secret, recorded as read, or the report if Secret or key is missing |
| ProjectReconcile.Controller.UpdateStatus | internal/reconciler/status.go:65-77 | at most five attempts; on success the stored status is the one to be written and the pass goes on, otherwise it has ended |
| ProjectReconcile.Controller.RunSync | internal/controller/project/controller.go:229-266 | one sync stage: gone past only if the hash was current, or was stored after the Job was seen succeeded without failures; otherwise the pass has ended |
| ProjectReconcile.Controller.Reconcile | internal/controller/project/controller.go:139-314 | a whole pass, with everybody else acting before each call and any call failing: the run starts a pass if the Project exists, makes its calls and no others until it has ended, at most forty-six actions; the result is the one that belongs to what was read, what was read was there, and after success Ready is stored and backed by what this pass read |
| EnvVars.MergeEnvVars | internal/helper/env.go:36-59 | the loops with the index map give the fold of single overlays, for all lists |
| EnvVars.MergeMeansAppend | internal/helper/env.go:32-35 | under last-wins lookup a merged list means base followed by overlay, duplicates included |
| EnvVars.MergeOrder | internal/helper/env.go:32-35 | base keeps its order, new names follow in the order they first appear |
| EnvVars.MergeAssociative | internal/helper/env.go:36-59 | merging in two stages may be done in either order, for all lists |
| Names.ResourceNameIsLabel | internal/helper/name.go:10-25 | every child name is a label of section 2.3.1 of RFC 1035 of at most 63 characters |
| Names.ResourceNameForm | internal/helper/name.go:10-25 | a name and suffix that fit in 63 characters, without dots and not beginning with a digit, are joined and used as they are; otherwise the name is at most 46 characters of them, dots as hyphens, without hyphens at the end, and the digest of the whole |
| Names.ResourceNameCollision | internal/helper/name.go:10-25 | for a suffix shorter than 16 or with a non-hex character in its last 16, two names give one child name only if they are equal or their digests collide |
| Names.HexSuffixCollides | internal/helper/name.go:16-24 | for a suffix that is itself the digest of a dotted name, two different names give one child name |
| Preimage.ItoaInjective | internal/defaults/project/helpers.go:38-51 | decimal text determines the number |
| Preimage.ItoaReads | internal/defaults/project/helpers.go:38-51 | decimal text is a sign for a negative number, then digits without a leading zero that read back as the number |
| Preimage.MigrationHash | internal/defaults/migration/helpers.go:39-47 | the loop that feeds the hasher hashes the delimited text of the list |
| Preimage.MigrationTextUnique | internal/defaults/migration/helpers.go:39-47 | two lists of scripts without NUL have the same text exactly if they hold the same scripts |
| Preimage.SeparatorInScript | internal/defaults/migration/helpers.go:41-44 | a script that contains the separator has the text of two scripts |
| Preimage.BatchSQL | internal/defaults/migration/helpers.go:28-36 | the loop builds the batch text, which `Preimage.BatchAt` writes out |
| Preimage.BatchAt | internal/defaults/migration/helpers.go:28-36 | for every list and index: the batch begins with that of the scripts before, then "-- migration ", the number, ": ", the name, a newline, the SQL and a blank line |
| Preimage.PasswordTextUnique | internal/defaults/project/helpers.go:30-43 | with the first three fields free of NUL the text determines all five fields |
| Preimage.NulMovesBetweenFields | internal/defaults/project/helpers.go:30-43 | with a NUL in a field two different logins have one text |
| Preimage.JWTSyncHashUnique | internal/defaults/project/helpers.go:47-53 | equal JWT hashes mean equal data, password and expiry, or a collision |
| Preimage.DataHash | internal/helper/env.go:89-121 | whatever order the keys are collected in, what is hashed is the text of the sorted keys |
| Preimage.DataTextDetermined | internal/helper/env.go:95 | every map has one text, so the hash does not depend on iteration order |
| Preimage.DataTextUnique | internal/helper/env.go:96-101 | two maps with newline-free values have one text exactly if they are equal |
| Preimage.NewlineInValue | internal/helper/env.go:96-101 | with a newline in a value two different maps have one text |
| Inputs.PodInputs | internal/controller/component/resources.go:93-136 | the nested loops collect exactly the references of the pod, in order |
| Inputs.CollectedNames | internal/controller/component/resources.go:93-136 | exactly the names referred to are collected, whatever list of references is collected from |
| Inputs.CollectedReferences | internal/controller/component/resources.go:93-136 | a name is collected exactly if a volume, a projected source, or an env or envFrom entry of a container or init container refers to it, in terms of the pod alone |
| Inputs.CollectedFlag | internal/controller/component/resources.go:93-136 | each name has the flag of its last reference |
| Inputs.StampInputs | internal/controller/component/resources.go:35-69 | fails exactly if an object is missing that is not optional; else sets the annotation to the hash of all that was found and changes nothing else |
| Inputs.StampsAgree | internal/controller/component/resources.go:35-69 | two stamps on one template agree exactly if presence and data of every referenced object agree, or the digest collides |
| Tags.FirstMatchIsFirst | charts/supabase/scripts/tags.py:169 | the tag pattern is found to match whenever it can, in the way a greedy pattern tries first |
| Tags.UpdateValues | charts/supabase/scripts/tags.py:106-140 | the loop with its two flags rewrites the lines in place as specified |
| Tags.ReadValuesTags | charts/supabase/scripts/tags.py:143-173 | the loop with its two flags reads the tags as specified |
| Tags.TagLineReads | charts/supabase/scripts/tags.py:137-170 | the line written for a tag reads back as it exactly if it is neither empty nor holds a quote |
| Tags.UpdateIdempotent | charts/supabase/scripts/tags.py:106-140 | updating twice is updating once |
| Tags.ChangedLines | charts/supabase/scripts/tags.py:132-137 | only repository and tag lines of updated keys inside the image section change |
| Tags.CursorMeans | charts/supabase/scripts/tags.py:115-130 | the two flags say exactly this: an image line stands before with no top-level line since, and the last key line, after it, is of that key with no image line since |
| Tags.LinesWritten | charts/supabase/scripts/tags.py:132-137 | in the image section under an updated key each repository line becomes the four-space line with its repository and each tag line the one with its tag quoted; every other line stays |
| Tags.UpdateReadsBack | charts/supabase/scripts/tags.py:106-173 | an updated key with a tag line reads as its new tag, every other key as before |
| Tags.UpdatedFileReadsBack | charts/supabase/scripts/tags.py:106-173 | over the whole file, line splitting included: same number of lines, new tags read back, other keys as before, second update writes the same text |

## Left out

- Informer caches and watches: reads see the current store, and passes of one object do not overlap.
- The strategic merge of pod overlays (internal/helper/overlay.go): a function parameter that may fail.
- Key generation, signing, SHA-256, base64 and JSON: function parameters; generated values are arbitrary.
- Pod, Service, probe and image builders: only what a property depends on, mainly variables and references; other values are codes.
- Times, requeue delays, logs, events, and the texts of error messages in conditions.
- Nil and empty label and annotation maps are not told apart, as the comparison of the write protocol does not either; nil Secret data is.
- The service account and config map of Vector, its target discovery, and the wait for rollouts: whether a pass gets past them is arbitrary.
- `ResolveDatabase`, `RequireDependency` and `ListOptional` of the component gates: whether a pass gets past them is arbitrary.
- The `Delete*IfExists` helpers check no ownership; ownership results speak of `EnsureResource` only.
- `split_image`, `parse_compose_images`, `build_updates` and the downloads of tags.py; of Unicode, only ASCII whitespace is whitespace.
- Embedded SQL and shell scripts: a Job is an abstract step that may succeed, fail or be collected.
- Analytics.OnePerDatabase: Projects appear at any time but are neither deleted nor pointed at another database, since the check looks a Project up only once; `Analytics.RepointBreaksExclusion` shows why.
- Migration.HistoryOk: no Migration is created under the name of one a pass still works on; `Migration.ReplacedMigrationInheritsHash` shows why.
- ProjectSync.SyncHashProvenance: a pass is one step, though it may end after any of its calls, and data changes are guarded; `ProjectExample.UnprovenHash` shows what happens without the guard.
- ProjectSteps.ReadyBehindReads: no Project is created under the name of one a pass still works on; `ProjectSteps.ReplacedProjectInheritsReady` shows why.
- The mutate functions of whole objects in `InPlace` merge the pod template as a value; updates through shared probe pointers are in `PodMerge`.
- Vector.Controller.Reconcile: a call that fails ends the pass like a crash; the status it then reports is not part of the model.
