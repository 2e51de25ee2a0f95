# Verified model of the vnode operator

vnode runs three reconcile loops over shared stores. The pod engine keeps one host pod per tenant pod that
is scheduled on a ready virtual node. The node service registers virtual nodes in a tenant cluster and
keeps their records. The pool controller scales a pool, reports its status and guards its deletion.
This project models the three loops in Dafny and proves what holds over whole runs of them, with API
calls that fail and with the outside world acting between calls.

Each loop has two forms. Classes and methods follow the Go code call by call and loop by loop. Functions
state what a call, a loop or a whole pass computes. Every method's contract equates its final state
with such a function, and the theorems are about the functions.

| file | content |
|---|---|
| `Lists`, `PodModel`, `NodeModel` | shared data |
| `Translation`, `CorePods`, `Drift` | tenant pod to host pod, storage and read-back, drift detection |
| `HostKeys` | node and host pod names |
| `Clusters`, `Execution` | the two clusters, and one pass of the pod engine |
| `PassEffect`, `Walks`, `Convergence` | what an undisturbed pass does per key, a proof principle for disturbed ones, the source list and what one pass leaves |
| `History` | every host write as an event: the host as a replay, and what the counters count |
| `Settling`, `SettledPools` | convergence with outside steps before every call, and what passes do to a settled pool |
| `RunSafety`, `StaleData`, `NameReuse` | safety when the outside world acts before every API call, data that changes meanwhile, pod names used again |
| `Isolation`, `Fleet`, `Turns` | one pool among foreign steps, pools whose calls interleave on one host, pools that take turns |
| `SharedResources` | what separate pools and pods still share |
| `Registrar`, `NodeRecords`, `NodeLifecycle` | tenant Node and Lease, VNode records, the node service |
| `NodeHealing`, `HotLoop` | status shapes, healing, number of status writes |
| `PoolScaling`, `ScalingRuns`, `NameOrder` | scaling, dense names, lists sorted by name |
| `PoolController`, `PoolEvents` | event queue, and which changes reach it |
| `PoolStatus`, `PoolDeletion` | status, finalizer and deletion |
| `Backoff` | requeue delay |

## Hypotheses

- A script fixes what surrounds a pass: the outside world's steps before each API call, the first call that
  fails and how, and list orders. Theorems hold for every script unless they ask for a `Quiet` one, in
  which nothing else happens during the pass, or an `Orderly` one, in which lists return every object once.
- Convergence (`Settling`) asks for calm steps: deletions complete, host pods report, tenant data changes and
  others work on their own host objects, before any call; but the tenant's pods stay, running ones do not
  finish and their host pods are not evicted by others. A pass that such a step hits starts a new workload.
  The workload is `Admissible`: its sources claim different host keys, running ones have storable specs, the
  host namespace is not empty, and each pod is stored under its own name. At first a claimed host pod
  has finished exactly if its source has (`Fits`). Otherwise the host pods are arbitrary.
- Run safety (`RunSafety`) asks that others create host pods and copies under other names than the pool's. Its
  clause on the tenant's current data also asks for `steadyData`: tenant ConfigMaps and Secrets change
  only between passes. Without it, what is on the host is what the copy read (`ChangingDataCanBeOutdated`).
- Isolation asks that outsiders are polite: they neither create pods at a pool's keys nor label pods for it.
  Of other pools this is proved (`PassStaysInnocent`, `PoolsKeepToTheirKeys`). Each pool has its own tenant, its own
  name or host namespace, and its own host keys; `KeysAreDisjointIff` says when keys are disjoint. A script in a
  joint run has no steps besides those before calls that are made, so that each write happens once.
- A failed API call leaves the store unchanged, except a record save, which may also write half of its
  work or be swallowed by a cancelled context. Terminal host pod phases are sticky. Only the engine
  writes tenant pod status. Deletion of a host pod is a request that completes later.
- A status call, from reading a record to saving it, is one atomic step. Otherwise its save could recreate
  a record that was deleted in between.
- Quantities are identified with their canonical, non-empty text. The API server's defaulting of a stored
  pod is limited to the service account and the initial phase.
- The pool resource may be respecified or deleted before any call of a pool reconcile. Both raise an event. An
  update of an outdated version of it is refused.
- Tenant pods created before a pass lists them are created before the pass. A name that the list
  returned is not reused for another tenant pod until the pass is over; a name reused between passes can be
  taken for the old pod (`ReusedNameNeverRuns`). The tenant may edit labels and containers of a pod at any time.

## What turned out false, and when it does hold

- Host pod names are unambiguous exactly when no tenant namespace is another one followed by a dash
  and more (`HostNamesInjectiveIff`).
- Drift detection against a given running pod is exact exactly when that pod has no empty label or selector
  value (`DriftDetectionIsExact`). Against a given wanted pod it is exact, whatever runs, exactly when the
  wanted pod has no label and no selector (`DriftAgainstWantedIsExact`), which is never the case
  (`EveryTargetCanBeMissed`). A tenant who replaces a label with an empty value by another label never
  sees the host pod follow (`RelabellingIsMissed`).
- So a settled pool need not be the image of its sources (`SettledNeedNotBeImage`). A run ends in the image
  exactly when at first no live host pod passed for a wanted pod without being it (`Converges`); host pods
  without empty label and selector values never do (`NoEmptyValuesAreClear`).
- A running tenant pod is reported finished exactly when a live, finished host pod passes for the wanted one
  (`ReportedFinishedIff`), so a pod created under the name of a finished one need not run (`ReusedNameNeverRuns`).
- A settled pass creates nothing, yet reports one deletion for every finished source, each time
  (`SettledPassReports`).
- A created pod survives the next pass exactly when no container carries a `pods` quantity
  (`CreatedPodSurvivesIff`, `ReadBackMatchesExactly`).
- Translation keeps mounts well formed exactly when projected volumes are mounted only at the
  service-account path (`MountsStayWellFormed`).
- A node record whose status was never written is never healed (`ThreeCallsHeal`), yet it counts as ready.
- Provisioning adds a node exactly when its number is free (`ProvisionGrowsExactlyWhenNumberIsFree`). With
  a list sorted by name, scaling n nodes down to t leaves no gap exactly when t is at most one or every
  number from t + 1 to n consists of nines but for its last digit (`SortedReconcileKeepsDensityIff`).
- Two pools in one host namespace have disjoint host keys exactly when their display names differ and neither
  is the other followed by a dash, a positive number and nothing or a dash and more (`KeysAreDisjointIff`).
- A copy of ConfigMaps and Secrets for one pod changes another pod's copy, of the same pool or another, exactly
  when they share a host namespace, a kind and a host name and the data is not there already (`CopyChangesIff`).
  Different pools always overwrite each other then (`PoolsOverwriteEachOther`). Host names of resources are
  unambiguous exactly when no tenant namespace is another one followed by a dash and more
  (`ResourceNamesInjectiveIff`).
- A pool that is being deleted still gains nodes from a reconcile that read it before (`DeletingPoolCanGrow`),
  but no more than that reconcile was to add, and from no later one (`DeletionIsSafe`).
- Status calls empty the tenant Node's allocatable resources, and re-registration drops its taints
  (`StatusCallsDropAllocatable`).
- A record created by anybody but the node service goes unnoticed by the pool
  (`UnseenCreationBreaksStatus`). Saves that an ended context swallows are harmless exactly when no record has
  a number from the number of records plus one to the target (`LostSavesHarmlessIff`). Numbers without a
  gap are a special case (`DenseIsFreeAhead`).

Where the documentation and the code differ, the model follows the code. README.md:78 promises that the
finalizer covers host pods; the code waits for VNode records only. README.md:66 promises a retry every
two seconds; the code backs off. README.md:73 speaks of updating host pods; the code deletes and re-creates.

## Model

| member | source | states |
|---|---|---|
| Translation.TranslateContainers | internal/domain/model/pod.go:150-171 | the result is the source list with service-account mounts removed from each container and nothing else changed |
| Translation.FilterVolumes | internal/domain/model/pod.go:175-187 | the result is the source list without projected volumes, with ConfigMap and Secret sources renamed to their host names |
| Translation.ResourceRefs | internal/domain/model/pod.go:199-214 | the references are those of the source's ConfigMap and Secret volumes, in order |
| Translation.TranslatePod | internal/domain/model/pod.go:117-147 | whatever order the label loop takes, the target carries the source labels overridden by the system labels, and the translated containers and volumes |
| Translation.SystemLabelsWin | internal/domain/model/pod.go:119-141 | all five system labels hold their system values, every other source label survives, and no label is invented |
| Translation.MountsStayWellFormed | internal/domain/model/pod.go:150-187 | well-formed mounts stay well formed if and only if projected volumes are mounted only at the service-account path |
| Translation.TranslationKeepsOrder | internal/domain/model/pod.go:150-187 | containers, mounts and volumes keep their relative order, and exactly the token mounts and projected volumes are dropped |
| Translation.RefsMatchTargetVolumes | internal/domain/model/pod.go:175-214 | the copier's target names are, in order, exactly what the translated volumes look up |
| CorePods.PodFromCore | internal/domain/service/execution_service.go:291-320 | the operator's view of a tenant pod |
| CorePods.PodSpecToK8sPod | internal/adapter/outbound/kubeclient/pod_client.go:138-173 | the Kubernetes form of a spec |
| CorePods.PodToSpec | internal/adapter/outbound/kubeclient/pod_client.go:175-209 | the spec read back from a Kubernetes pod |
| CorePods.MirrorIsFaithful | internal/domain/service/execution_service.go:261-289 | a status mirrored into the tenant reads the same as the host status |
| Drift.MapEqualIsExact | internal/domain/service/execution_service.go:359-372 | without empty values the map comparison is equality, by a counting argument |
| Drift.EmptyValueHidesAKey | internal/domain/service/execution_service.go:359-372 | every map with an empty value has a different map that compares equal in one direction only |
| Drift.DriftDetectionIsExact | internal/domain/service/execution_service.go:330-441 | for a given running pod the comparison reports exactly the differences in compared fields, whatever is wanted, if and only if the running pod has no empty label or selector value |
| Drift.DriftAgainstWantedIsExact | internal/domain/service/execution_service.go:330-441 | for a given wanted pod the comparison is exact, whatever runs, if and only if the wanted pod has no label and no selector |
| Drift.EveryTargetCanBeMissed | internal/domain/service/execution_service.go:249-251 | against every pod the engine can want, some running pod that differs, even one without the pool label, passes for equal |
| Drift.RelabellingIsMissed | internal/domain/service/execution_service.go:249-251 | a host pod stored for a source with an empty label value is never seen to differ once the tenant replaces that label by another |
| Drift.DriftIsAnEquivalence | internal/domain/service/execution_service.go:330-441 | on specs without empty values the comparison is reflexive, symmetric and transitive |
| Drift.ReadBackMatchesExactly | internal/adapter/outbound/kubeclient/pod_client.go:138-209 | translate, store, read back compares equal to the translation, and equals it in every compared field, if and only if no container carries a pods quantity |
| Drift.StorableMeansNoPodsRequested | internal/domain/service/execution_service.go:463-475 | the same condition read off the tenant pod's requests and limits |
| HostKeys.DecimalIsInjective | internal/domain/service/node_service.go:45 | distinct node indices have distinct numerals |
| HostKeys.HostNameIsInjective | internal/domain/model/pod.go:120 | over dash-prefix-free namespaces the host name determines node, namespace and pod |
| HostKeys.HostNamesInjectiveIff | internal/domain/model/pod.go:120 | host names are unambiguous for all pods if and only if no namespace dash-extends another |
| HostKeys.DashPrefixCollides | internal/domain/model/pod.go:120 | a dash-extending namespace always yields two pods with one host name |
| HostKeys.ResourceNamesInjectiveIff | internal/domain/model/pod.go:173-187 | host names of ConfigMaps and Secrets are unambiguous if and only if no namespace dash-extends another |
| Clusters.Cluster.CreateHostPod | internal/adapter/outbound/kubeclient/pod_client.go:29-31 | stores the converted pod at an absent key, is refused at a present one, changes nothing on failure |
| Clusters.Cluster.DeleteHostPod | internal/adapter/outbound/kubeclient/pod_client.go:48-54 | marks the pod deleting; a missing pod is a success |
| Clusters.Cluster.Ensure | internal/adapter/outbound/kubeclient/pod_client.go:90-136 | create and update leave the same ConfigMap or Secret |
| Execution.ListTenantPodsForNodes | internal/domain/service/execution_service.go:207-230 | the listed pods that are unmanaged, not deleting and on a ready node, in order |
| Execution.SyncPodResources | internal/domain/service/execution_service.go:500-538 | the loop's state and error equal the fold over the references |
| Execution.EnsurePod | internal/domain/service/execution_service.go:236-259 | create if absent, wait if deleting, keep if equal, delete on drift, with the reported flags |
| Execution.Mirror | internal/domain/service/execution_service.go:121-144 | host status read, tenant pod read, tenant status written, each of which may fail |
| Execution.SweepOrphans | internal/domain/service/execution_service.go:157-178 | the labelled pods outside the desired set are deleted until a call fails |
| Execution.CleanupPoolPods | internal/domain/service/execution_service.go:183-205 | every labelled pod of the pool is deleted until a call fails, and the count is of successful calls |
| Execution.SyncOne | internal/domain/service/execution_service.go:81-155 | the body of the pod loop |
| Execution.ReconcilePool | internal/domain/service/execution_service.go:45-181 | the final clusters, counters and outcome of a pass, for every script |
| PassEffect.PassActsPointwise | internal/domain/service/execution_service.go:80-180 | an undisturbed pass applies to each host key a function of that key's own pod and claimant; a stopped pass leaves each key stepped or untouched; tenant pods change only their status, to follow their host pod |
| Convergence.SourcesAreExact | internal/domain/service/execution_service.go:207-230 | the source list is exactly the tenant's source pods, each once, in any order |
| Convergence.QuietPassPostcondition | internal/domain/service/execution_service.go:80-180 | from any host state, finished pods included, a completed undisturbed pass over any sources leaves no live pod of the pool undesired, every running source served or its pod being deleted, finished sources without live pod, and foreign pods untouched |
| Convergence.CreatedPodSurvivesIff | internal/domain/service/execution_service.go:236-259 | a pod created by one pass is left alone by the next if and only if its spec is storable |
| History.PassIsExplained | internal/domain/service/execution_service.go:80-205 | however a pass or cleanup ends and whatever happens around it, the host pods, ConfigMaps and Secrets it leaves are the replay of the recorded writes, its own and others', on what it found |
| History.PassConservation | internal/domain/service/execution_service.go:80-180 | for every script, created and deleted are exactly the pass's own creations and deletion requests, each creation at an absent key; host pods grow by created and by what others added less completed deletions; no more pods stop being live than deletions were requested |
| Walks.SyncPodsWalk | internal/domain/service/execution_service.go:80-155 | a preorder that every call respects, outside steps included, is respected by the pod loop however it ends |
| Walks.SweepWalk | internal/domain/service/execution_service.go:166-178 | the same for the sweep |
| Settling.PassMakesProgress | internal/domain/service/execution_service.go:80-180 | with calm outside steps before every call, any attempt keeps every key at least as close to settled, and a completed pass moves every key that can move |
| Settling.PassPostcondition | internal/domain/service/execution_service.go:80-180 | after a completed pass with calm steps the pool has no live pod without claimant, finished sources have no live pod, and a running source is served or its old pod is going or gone |
| Settling.RunsNeverRegress | internal/domain/service/execution_service.go:80-180 | no run of aborted attempts, calm outside steps and partial deletions moves a key away from settled |
| Settling.Converges | internal/domain/service/execution_service.go:80-180 | for an admissible workload and host pods that have finished exactly where their sources have, a completed pass, completion of deletions and a second completed pass settle the pool, with failed attempts and calm steps before, between, during and after; every running source's host pod then is its image in every compared field if and only if at first no live host pod passed for a wanted pod without being it |
| Settling.SettledIsImageIff | internal/domain/service/execution_service.go:249-251 | a settled pool is the image of its running sources if and only if the comparison is fooled at none of their keys |
| Settling.NoEmptyValuesAreClear | internal/domain/service/execution_service.go:359-372 | host pods without empty label and selector values fool the comparison nowhere |
| SettledPools.SettledPassIsIdle | internal/domain/service/execution_service.go:80-180 | an undisturbed pass over a settled pool changes no host pod, even if it is cut short |
| SettledPools.SettledPassReports | internal/domain/service/execution_service.go:146-154 | with calm steps before every call a pass keeps a settled pool settled, creates nothing, and reports exactly one deletion per finished source |
| SettledPools.SettledNeedNotBeImage | internal/domain/service/execution_service.go:249-251 | at every running source of a settled pool another host pod, of no pool, could stand and the pool would be settled too |
| RunSafety.RunsAreSafe | internal/domain/service/execution_service.go:97-154 | over every run with outside steps before each call, edits of tenant pods among them, and any failures: a finished tenant pod has no host pod or a finished one, no creation re-runs a finished pod, and every ConfigMap and Secret a created pod names was looked up for it in that pass, with what was found on the host at that moment; under steadyData that is what the tenant has |
| RunSafety.SyncResourcesSafe | internal/domain/service/execution_service.go:500-538 | after a successful copy every referenced resource was looked up, what was found is on the host under its target name as it was read, and none copied earlier is disturbed; under steadyData it equals the tenant's data |
| StaleData.ChangingDataCanBeOutdated | internal/domain/service/execution_service.go:500-538 | a ConfigMap changed between the copy's read and the creation leaves the created pod with the outdated payload |
| NameReuse.ReportedFinishedIff | internal/domain/service/execution_service.go:97-144 | undisturbed, the turn of a running source reports it finished if and only if a live, finished host pod passes for the wanted one; it creates nothing where a host pod exists |
| NameReuse.ReusedNameNeverRuns | internal/domain/service/execution_service.go:236-289 | a pod re-created under the name and node of one whose finished host pod passes for it is reported finished and no pod is created for it |
| RunSafety.CreatedVolumesAreReferenced | internal/domain/model/pod.go:175-214 | every ConfigMap or Secret a created pod's volumes name has been copied for that source |
| RunSafety.SoleOwner | internal/domain/model/pod.go:120 | on a pool only the source itself can own its host key |
| Isolation.PassAgrees | internal/domain/service/execution_service.go:80-181 | a pass has the same outcome, counters, desired set and cells at its keys whatever foreign steps are interleaved between its calls and whatever else the host holds |
| Isolation.PoolsDoNotInterfere | internal/domain/service/execution_service.go:157-205 | one pool among foreign steps assumed polite: over every run, with such steps between its passes and between the calls of each, its host pods, its tenant and every report are what they would be without them |
| Fleet.PassStaysInnocent | internal/domain/service/execution_service.go:80-205 | under any interference, a pass or cleanup with complete lists creates and deletes pods outside its pool's keys only after somebody else was impolite to the pool |
| Fleet.OwnKeysArePolite | internal/domain/service/execution_service.go:157-205 | what a pool writes at its own keys is a foreign and polite step for every pool with other keys |
| Fleet.PoolsRunAsIfAlone | internal/domain/service/execution_service.go:45-205 | any number of pools, each with its own tenant, whose single calls interleave in any order on one host: each pool's host pods, tenant and reports are what they are when it runs alone; only outsiders are assumed polite |
| Fleet.PoolsKeepToTheirKeys | internal/domain/service/execution_service.go:157-205 | in such a joint run every creation and deletion of a pool is at its own keys, and every creation carries its labels |
| Fleet.PoolsShareOneHost | internal/domain/service/execution_service.go:45-205 | in such a joint run every pool ends on the same host, the replay of the one history |
| Turns.TurnsDoNotInterfere | internal/domain/service/execution_service.go:45-205 | the same constructively: pools that take turns in any order, each turn a pass, a cleanup or an outside step computed from the host the others left, end as if each had run alone |
| Turns.TurnsShareOneHost | internal/domain/service/execution_service.go:45-205 | pools that take turns from one host are on one host after all turns, the replay of the one history |
| Turns.NodesOfThePool | internal/domain/service/node_service.go:45 | nodes numbered under a display name claim only that display's keys |
| Turns.KeysAreDisjointIff | internal/domain/model/pod.go:120 | two pools share no host key if and only if their host namespaces differ, or their displays differ and neither is the other followed by a dash, a positive number and nothing or a dash and more |
| Turns.ExtendedDisplayCollides | internal/domain/model/pod.go:120 | a display that continues another one's node names shares a host key with it |
| Turns.PoolsAreApart | internal/domain/model/pod.go:120 | so pools of different namespaces, or of different names with such displays, meet the condition of the joint run |
| SharedResources.CopyWrites | internal/domain/service/execution_service.go:500-538 | an undisturbed successful copy leaves each host object as it was or as one of its references found in the tenant |
| SharedResources.CopyChangesIff | internal/domain/service/execution_service.go:500-538 | a copy for any pod, with any number of references, of the same pool or another, changes a given host copy if and only if the pools share a host namespace and some reference the tenant has is of that kind, has that host name and is not there already |
| SharedResources.PoolsOverwriteEachOther | internal/domain/service/execution_service.go:500-538 | between different pools every write to a shared host name is a change |
| Registrar.RegisterShowsNode | internal/adapter/outbound/virtualkubelet/registrar.go:103-121 | a successful registration leaves node, reported conditions, taints and lease, succeeds without faults, and touches no other node even when it fails |
| Registrar.UpdateShowsNode | internal/adapter/outbound/virtualkubelet/registrar.go:142-180 | a report shows the conditions and lease, and without faults succeeds if and only if the node exists and its lease can be kept |
| Registrar.DeregisterUndoesRegister | internal/adapter/outbound/virtualkubelet/registrar.go:123-140 | deregistration leaves neither node nor lease and nothing else changed since before registration, even a failed one |
| Registrar.TenantApi.DoRegister | internal/adapter/outbound/virtualkubelet/registrar.go:103-121 | the call sequence of a registration with its first failing call |
| Registrar.TenantApi.DoUpdateNodeStatus | internal/adapter/outbound/virtualkubelet/registrar.go:142-180 | the call sequence of a status report with its first failing call |
| Registrar.TenantApi.DoDeregister | internal/adapter/outbound/virtualkubelet/registrar.go:123-140 | lease first, then node, stopping at the first failure |
| Registrar.TenantApi.BuildNodeConditions | internal/adapter/outbound/virtualkubelet/registrar.go:280-302 | one tenant condition per node condition, in order |
| NodeRecords.StatusRoundTrip | internal/adapter/outbound/kubeclient/client.go:232-313 | writing and reading a status preserves phase and conditions on both reading paths |
| NodeRecords.ApplyNodeStatus | internal/adapter/outbound/kubeclient/client.go:297-313 | phase and conditions of the record become those of the node |
| NodeRecords.ReadConditions | internal/adapter/outbound/kubeclient/client.go:256-263 | one node condition per stored condition, in order |
| NodeLifecycle.NodeService.SaveNode | internal/adapter/outbound/kubeclient/client.go:139-205 | creates or updates, with every way a save can fail or be swallowed, before or after the annotations, and raises a pool event exactly on a change of phase |
| NodeLifecycle.NodeService.ProvisionNode | internal/domain/service/node_service.go:32-82 | final stores, node and error of provisioning |
| NodeLifecycle.NodeService.DeprovisionNode | internal/domain/service/node_service.go:84-106 | final stores and error of deprovisioning; the deregistration result is ignored |
| NodeLifecycle.NodeService.SyncStatus | internal/domain/service/node_service.go:108-175 | final stores, whether it saved, and the error of a status call |
| NodeHealing.StatusesStayShaped | internal/domain/service/node_service.go:32-185 | over every run and every failure each stored status is one of six shapes |
| NodeHealing.ShapesAreMeaningful | internal/domain/model/vnode.go:47-57 | in every shape phase Ready means ready, and Pending and NotReady are exactly the statuses retried by registration |
| NodeHealing.ThreeCallsHeal | internal/domain/service/node_service.go:108-185 | once tenant and store respond, any three or more status calls heal a node if and only if its status was ever written |
| NodeHealing.TwoCallsAreNotEnough | internal/domain/service/node_service.go:145-174 | a Ready node whose tenant Node vanished is not healed by any two or fewer calls |
| NodeHealing.HealedStaysHealed | internal/domain/service/node_service.go:162-165 | a healed node stays healed without further saves |
| NodeHealing.StatusCallsDropAllocatable | internal/adapter/inbound/reconciler/vnode_reconciler.go:55-71 | every status call that reaches the tenant empties allocatable, and a re-registration drops all taints |
| HotLoop.SavesAreBounded | internal/domain/service/node_service.go:115-174 | from any status, f switches of the registrar's answer cost at most 2(f+1) saves |
| HotLoop.SaveSpendsPotential | internal/domain/service/node_service.go:115-174 | every save uses up potential and a call without a save changes no record |
| HotLoop.SteadyFailureSavesTwice | internal/domain/service/node_service.go:120-160 | under steady failure of any length a Ready record is saved exactly twice |
| PoolScaling.DesiredScaleActions | internal/domain/model/vnodepool.go:93-101 | the additions and removals are non-negative, never both, and lead to the target |
| PoolScaling.AddNodes | internal/domain/service/pool_service.go:35-43 | the scale-up loop, stopped by the first error |
| PoolScaling.RemoveNodes | internal/domain/service/pool_service.go:46-56 | the scale-down loop from the end of the list, stopped by the first error |
| PoolScaling.CountReady | internal/domain/service/pool_service.go:58-64 | the number of nodes whose phase is neither NotReady nor Terminating |
| PoolScaling.ReconcilePoolNodes | internal/domain/service/pool_service.go:24-73 | final stores, ready count, phase and error of a pool reconcile; a failed list leaves the phase as it was |
| ScalingRuns.ReconcileMovesTowardTarget | internal/domain/service/pool_service.go:24-56 | names stay dense, the count moves toward the target without passing it, is the target if no error is reported, and is strictly closer when the store works, whatever the registrar does |
| ScalingRuns.ScalingKeepsNamesDense | internal/domain/service/pool_service.go:24-56 | names stay dense over every sequence of reconciles with changing targets |
| ScalingRuns.ScalingReachesTarget | internal/domain/service/pool_service.go:24-56 | with a working store the target is reached within as many reconciles as the distance to it |
| ScalingRuns.ScaleDownLeavesPrefix | internal/domain/service/pool_service.go:46-56 | for any list order, scaling down leaves exactly the records of a prefix of the list |
| ScalingRuns.ProvisionGrowsExactlyWhenNumberIsFree | internal/domain/service/node_service.go:44-60 | with a working store provisioning adds a record if and only if the next number is free |
| ScalingRuns.RemovalKeepsDensityExactlyAtTheEnd | internal/domain/service/pool_service.go:46-56 | removing a node keeps names dense if and only if it has the highest number |
| NameOrder.LastListedIsHighestIff | internal/domain/service/node_service.go:45 | a list of n nodes sorted by name ends with the n-th node if and only if every digit of n but the last is a nine |
| NameOrder.SortedScaleDownKeepsDensityIff | internal/domain/service/pool_service.go:46-56 | removing the last node of a list sorted by name keeps names dense if and only if every digit of n but the last is a nine |
| NameOrder.SortedReconcileKeepsDensityIff | internal/domain/service/pool_service.go:24-56 | a reconcile of n densely numbered nodes, listed by name, down to t, any number of removals, leaves t nodes, densely numbered if and only if t is at most one or every number from t + 1 to n consists of nines but for its last digit |
| PoolStatus.StatusAgreesAtQuiescence | internal/adapter/inbound/reconciler/vnodepool_reconciler.go:107-126 | in every reachable state, with the pool and its nodes changed before any call, a valid live pool is queued or its ready count is the number of records that count as ready, provided each reconcile swallows no save or finds the numbers up to its target free |
| PoolEvents.ReconcileSticks | internal/domain/service/pool_service.go:24-56 | a reconcile never leaves more records than there were or than its target, and every new one is a numbered node of the pool |
| PoolStatus.ReconcileCountsOrQueues | internal/adapter/inbound/reconciler/vnodepool_reconciler.go:249-264 | a successful reconcile that swallows no save, or finds the numbers up to its target free, either raised an event or counted exactly what is stored |
| PoolStatus.ReconcileCountsIff | internal/domain/service/pool_service.go:24-73 | a successful reconcile that raised no event, whatever saves were swallowed, counted exactly what is stored if and only if no record has a number from the number of records plus one to the target |
| PoolStatus.ReconcileAgreesIff | internal/adapter/inbound/reconciler/vnodepool_reconciler.go:107-126 | one controller reconcile that raised no event leaves a true status if and only if those numbers are free |
| PoolStatus.UnseenCreationBreaksStatus | internal/adapter/inbound/reconciler/vnodepool_reconciler.go:252 | a record created by others falsifies the status if and only if its phase counts as ready |
| PoolStatus.LostSavesHarmlessIff | internal/adapter/outbound/kubeclient/client.go:185-204 | for a pool of any size and any records, every reconcile under every script leaves a true status if and only if those numbers are free |
| PoolStatus.DenseIsFreeAhead | internal/domain/service/node_service.go:44-60 | numbers without a gap are free ahead, whatever the target |
| PoolDeletion.DeletionIsSafe | internal/adapter/inbound/reconciler/vnodepool_reconciler.go:74-186 | over every run, with the pool deleted before any call: nodes never outlive their pool, the finalizer goes only when no node is left, a pool deleted before a reconcile starts only loses nodes, and one that read it before adds at most the numbered nodes its target asked for |
| PoolDeletion.DeletingPoolCanGrow | internal/adapter/inbound/reconciler/vnodepool_reconciler.go:74-82 | a reconcile that read the pool just before the deletion request adds nodes to the deleting pool whenever some are missing and the store works |
| PoolDeletion.CleanupCompletes | internal/adapter/inbound/reconciler/vnodepool_reconciler.go:151-182 | one cleanup pass over a working store removes all nodes, the finalizer and the pool, whatever deregistration returns and whatever is written to the pool meanwhile |
| PoolDeletion.DeprovisionSucceeds | internal/domain/service/node_service.go:84-106 | with a working store the record goes whatever deregistration returns |
| PoolController.Controller.ReconcileOnce | internal/adapter/inbound/reconciler/vnodepool_reconciler.go:71-133 | final pool resource, queue and stores of one reconcile, which reads the pool once while it may change before every call |
| PoolController.Controller.ScaleOnce | internal/adapter/inbound/reconciler/vnodepool_reconciler.go:93-126 | the same for validation, scaling and the status write |
| PoolController.Controller.DeleteOnce | internal/adapter/inbound/reconciler/vnodepool_reconciler.go:135-186 | final pool resource, queue and stores of one deletion pass |
| Backoff.RequeueBackoff | internal/adapter/inbound/reconciler/vnode_reconciler.go:112-123 | the loop doubles at most five times and returns the capped closed form for every age |
| Backoff.DelayIsMonotone | internal/adapter/inbound/reconciler/vnode_reconciler.go:112-123 | older nodes never wait less, and every wait is between 2 and 60 seconds |

## Left out

- RunsAreSafe: assumes that a tenant pod name listed by a pass is not reused before the pass ends; `ReusedNameNeverRuns` shows what a name reused between passes does.
- ReconcileMovesTowardTarget: needs records listed in index order and nobody else deleting records; the lemmas on gaps say what happens otherwise.
- Other namespaces and other pools' records in the node store: the store holds the records of one pool.
- Kubeconfig resolution, clientset construction and the tenant client cache: one call that may fail.
- Conflict retries, informer cache lag, timestamps, events, metrics, logging, configuration and startup.
- Phase and condition lists in the pool resource's status: the controller model writes only the ready count.
- Converges: the workload is fixed; changes of the tenant's pods, evictions and finishing pods start it anew, and only their safety is proved (`RunsAreSafe`).
- QuietPassPostcondition: an exact effect, for a pass during which nobody else acts; `PassPostcondition` is the statement with outside steps.
- SettledPassIsIdle: says that no host pod changes, so nobody else may act meanwhile; `SettledPassReports` allows calm steps.
- CopyChangesIff: compares a host object before and after one copy, so nobody else may act meanwhile.
- PoolsRunAsIfAlone: each pool has a tenant of its own; two pools serving one tenant cluster are not covered.
- Resource quantity parsing, and container fields and volume options that the operator does not read.
- UpdatePod, tolerations and the pool repository: not on the modelled paths.
- Mount path variants and hostPath volumes: security policy rather than behaviour of the loops.
