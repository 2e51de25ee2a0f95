/** The operator's own view of a pod, decoupled from Kubernetes types. */
module PodModel {
  import opened Lists

  datatype EnvVar = EnvVar(name: string, value: string)

  datatype VolumeType = Projected | ConfigMap | Secret | EmptyDir | Pvc | HostPath | Other

  datatype Volume = Volume(name: string, kind: VolumeType, source: string)

  datatype VolumeMount = VolumeMount(name: string, mountPath: string, readOnly: bool)

  /** An absent CPU or memory quantity is the empty string. `pods` is a 32-bit integer. */
  datatype ResourceList = ResourceList(cpu: string, memory: string, pods: int)

  datatype ContainerResources = ContainerResources(requests: ResourceList, limits: ResourceList)

  datatype Container = Container(
    name: string, image: string, command: seq<string>, args: seq<string>,
    env: seq<EnvVar>, volumeMounts: seq<VolumeMount>, resources: ContainerResources)

  /** Nil and empty maps, and nil and empty slices, are one value here: no code tells them apart. */
  datatype PodSpec = PodSpec(
    name: string, ns: string, labels: map<string, string>, nodeName: string,
    containers: seq<Container>, volumes: seq<Volume>,
    serviceAccountName: string, automount: Option<bool>, runtimeClassName: string,
    nodeSelector: map<string, string>, deleting: bool)

  datatype ContainerState = Running | Waiting | Terminated | NoState

  datatype ContainerStatus = ContainerStatus(name: string, ready: bool, restarts: int, state: ContainerState)

  datatype PodPhase = PhaseUnset | PhasePending | PhaseRunning | PhaseSucceeded | PhaseFailed | PhaseUnknown

  datatype PodStatus = PodStatus(
    phase: PodPhase, podIP: string, containerStatuses: seq<ContainerStatus>, message: string, reason: string)

  datatype PoolMode = Shared | Dedicated | Burstable | DefaultMode | InvalidMode(text: string)

  datatype TenantRef = TenantRef(vclusterName: string, vclusterNamespace: string, kubeconfigSecret: string)

  datatype Taint = Taint(key: string, value: string, effect: string)

  datatype VNodePool = VNodePool(
    name: string, displayName: string, ns: string, tenant: TenantRef, mode: PoolMode,
    runtimeClassName: string, nodeCount: int, perNodeResources: ResourceList,
    nodeSelector: map<string, string>, taints: seq<Taint>)
}
