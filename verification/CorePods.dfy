/** Kubernetes pods as the API server holds them, and the conversions to and from the operator's view. */
module CorePods {
  import opened Lists
  import opened PodModel

  /** A resource quantity, identified with its canonical text; canonical text is never empty. */
  type Quantity = s: string | s != "" witness "0"

  datatype CoreResourceList = CoreResourceList(cpu: Option<Quantity>, memory: Option<Quantity>, pods: Option<int>)

  datatype CoreContainer = CoreContainer(
    name: string, image: string, command: seq<string>, args: seq<string>,
    env: seq<EnvVar>, volumeMounts: seq<VolumeMount>, requests: CoreResourceList, limits: CoreResourceList)

  /** A volume with one optional field per source, as in the API: nothing forces exactly one to be set. */
  datatype CoreVolume = CoreVolume(
    name: string, configMap: Option<string>, secret: Option<string>, pvc: Option<string>,
    emptyDir: bool, hostPath: Option<string>, projected: bool)

  datatype CoreContainerStatus = CoreContainerStatus(
    name: string, ready: bool, restarts: int, running: bool, waiting: bool, terminated: bool)

  datatype CoreStatus = CoreStatus(
    phase: PodPhase, podIP: string, containerStatuses: seq<CoreContainerStatus>, message: string, reason: string)

  datatype CorePod = CorePod(
    ns: string, name: string, labels: map<string, string>, deleting: bool,
    nodeName: string, serviceAccountName: string, automount: Option<bool>, runtimeClassName: Option<string>,
    nodeSelector: map<string, string>, containers: seq<CoreContainer>, volumes: seq<CoreVolume>,
    status: CoreStatus)

  predicate IsTerminal(pod: CorePod) {
    pod.status.phase == PhaseSucceeded || pod.status.phase == PhaseFailed
  }

  // ---------- element conversions ----------

  /** Go's `int32(x)` conversion. */
  function Int32(x: int): int {
    var m := x % 0x1_0000_0000;
    if m < 0x8000_0000 then m else m - 0x1_0000_0000
  }

  function TextOf(q: Option<Quantity>): string {
    match q case None => "" case Some(s) => s
  }

  function QuantityOf(s: string): Option<Quantity> {
    if s == "" then None else Some(s)
  }

  function ResourcesFromCore(r: CoreResourceList): ResourceList {
    ResourceList(TextOf(r.cpu), TextOf(r.memory), match r.pods case None => 0 case Some(n) => Int32(n))
  }

  /** The `pods` quantity is not written. */
  function ResourcesToCore(r: ResourceList): CoreResourceList {
    CoreResourceList(QuantityOf(r.cpu), QuantityOf(r.memory), None)
  }

  function VolumeFromCore(v: CoreVolume): Volume {
    if v.configMap.Some? then Volume(v.name, ConfigMap, v.configMap.value)
    else if v.secret.Some? then Volume(v.name, Secret, v.secret.value)
    else if v.pvc.Some? then Volume(v.name, Pvc, v.pvc.value)
    else if v.emptyDir then Volume(v.name, EmptyDir, "")
    else if v.hostPath.Some? then Volume(v.name, HostPath, v.hostPath.value)
    else if v.projected then Volume(v.name, Projected, "")
    else Volume(v.name, Other, "")
  }

  function VolumeToCore(v: Volume): CoreVolume {
    var bare := CoreVolume(v.name, None, None, None, false, None, false);
    match v.kind
    case ConfigMap => bare.(configMap := Some(v.source))
    case Secret => bare.(secret := Some(v.source))
    case Pvc => bare.(pvc := Some(v.source))
    case EmptyDir => bare.(emptyDir := true)
    case HostPath => bare.(hostPath := Some(v.source))
    case Projected => bare.(projected := true)
    case Other => bare
  }

  function ContainerFromCore(c: CoreContainer): Container {
    Container(c.name, c.image, c.command, c.args, c.env, c.volumeMounts,
              ContainerResources(ResourcesFromCore(c.requests), ResourcesFromCore(c.limits)))
  }

  function ContainerToCore(c: Container): CoreContainer {
    CoreContainer(c.name, c.image, c.command, c.args, c.env, c.volumeMounts,
                  ResourcesToCore(c.resources.requests), ResourcesToCore(c.resources.limits))
  }

  function ContainerStatusFromCore(c: CoreContainerStatus): ContainerStatus {
    ContainerStatus(c.name, c.ready, c.restarts,
                    if c.running then Running else if c.waiting then Waiting else if c.terminated then Terminated else NoState)
  }

  function ContainerStatusToCore(c: ContainerStatus): CoreContainerStatus {
    CoreContainerStatus(c.name, c.ready, c.restarts, c.state.Running?, c.state.Waiting?, c.state.Terminated?)
  }

  // ---------- pod conversions ----------

  /** What the engine keeps of a tenant pod before translating it. */
  function SourceOf(pod: CorePod): PodSpec {
    PodSpec(pod.name, pod.ns, pod.labels, pod.nodeName,
            Map(ContainerFromCore, pod.containers), Map(VolumeFromCore, pod.volumes),
            pod.serviceAccountName, None, "", map[], false)
  }

  const FreshStatus := CoreStatus(PhaseUnset, "", [], "", "")

  function ToCore(spec: PodSpec): CorePod {
    CorePod(spec.ns, spec.name, spec.labels, false, spec.nodeName, spec.serviceAccountName, spec.automount,
            if spec.runtimeClassName == "" then None else Some(spec.runtimeClassName),
            spec.nodeSelector, Map(ContainerToCore, spec.containers), Map(VolumeToCore, spec.volumes), FreshStatus)
  }

  function FromCore(pod: CorePod): PodSpec {
    PodSpec(pod.name, pod.ns, pod.labels, pod.nodeName,
            Map(ContainerFromCore, pod.containers), Map(VolumeFromCore, pod.volumes),
            pod.serviceAccountName, pod.automount,
            match pod.runtimeClassName case None => "" case Some(s) => s,
            pod.nodeSelector, pod.deleting)
  }

  /** What the API server stores for a pod it accepts: a service account is filled in and the pod starts Pending. */
  function Admitted(pod: CorePod): CorePod {
    pod.(serviceAccountName := if pod.serviceAccountName == "" then "default" else pod.serviceAccountName,
         status := FreshStatus.(phase := PhasePending))
  }

  function StatusFromCore(s: CoreStatus): PodStatus {
    PodStatus(s.phase, s.podIP, Map(ContainerStatusFromCore, s.containerStatuses), s.message, s.reason)
  }

  function StatusToCore(s: PodStatus): CoreStatus {
    CoreStatus(s.phase, s.podIP, Map(ContainerStatusToCore, s.containerStatuses), s.message, s.reason)
  }

  /** Mirroring a host status into the tenant loses nothing the operator reads, and mirroring again changes nothing. */
  lemma MirrorIsFaithful(host: CoreStatus)
    ensures StatusFromCore(StatusToCore(StatusFromCore(host))) == StatusFromCore(host)
  {
  }

  // ---------- the conversion loops ----------

  method PodFromCore(pod: CorePod) returns (spec: PodSpec)
    ensures spec == SourceOf(pod)
  {
    var containers: seq<Container> := [];
    for i := 0 to |pod.containers|
      invariant containers == Map(ContainerFromCore, pod.containers[..i])
    {
      containers := containers + [ContainerFromCore(pod.containers[i])];
    }
    var volumes: seq<Volume> := [];
    for i := 0 to |pod.volumes|
      invariant volumes == Map(VolumeFromCore, pod.volumes[..i])
    {
      volumes := volumes + [VolumeFromCore(pod.volumes[i])];
    }
    assert pod.containers[..|pod.containers|] == pod.containers && pod.volumes[..|pod.volumes|] == pod.volumes;
    spec := PodSpec(pod.name, pod.ns, pod.labels, pod.nodeName, containers, volumes,
                    pod.serviceAccountName, None, "", map[], false);
  }

  method PodSpecToK8sPod(spec: PodSpec) returns (pod: CorePod)
    ensures pod == ToCore(spec)
  {
    pod := CorePod(spec.ns, spec.name, spec.labels, false, spec.nodeName, spec.serviceAccountName, spec.automount,
                   if spec.runtimeClassName == "" then None else Some(spec.runtimeClassName),
                   spec.nodeSelector, [], [], FreshStatus);
    for i := 0 to |spec.containers|
      invariant pod == ToCore(spec.(containers := spec.containers[..i], volumes := []))
    {
      pod := pod.(containers := pod.containers + [ContainerToCore(spec.containers[i])]);
    }
    assert spec.containers[..|spec.containers|] == spec.containers;
    for i := 0 to |spec.volumes|
      invariant pod == ToCore(spec.(volumes := spec.volumes[..i]))
    {
      pod := pod.(volumes := pod.volumes + [VolumeToCore(spec.volumes[i])]);
    }
    assert spec.volumes[..|spec.volumes|] == spec.volumes;
  }

  method PodToSpec(pod: CorePod) returns (spec: PodSpec)
    ensures spec == FromCore(pod)
  {
    spec := PodSpec(pod.name, pod.ns, pod.labels, pod.nodeName, [], [], pod.serviceAccountName, pod.automount,
                    "", pod.nodeSelector, pod.deleting);
    if pod.runtimeClassName.Some? {
      spec := spec.(runtimeClassName := pod.runtimeClassName.value);
    }
    ghost var base := spec;
    for i := 0 to |pod.containers|
      invariant spec == base.(containers := Map(ContainerFromCore, pod.containers[..i]))
    {
      spec := spec.(containers := spec.containers + [ContainerFromCore(pod.containers[i])]);
    }
    assert pod.containers[..|pod.containers|] == pod.containers;
    base := spec;
    for i := 0 to |pod.volumes|
      invariant spec == base.(volumes := Map(VolumeFromCore, pod.volumes[..i]))
    {
      spec := spec.(volumes := spec.volumes + [VolumeFromCore(pod.volumes[i])]);
    }
    assert pod.volumes[..|pod.volumes|] == pod.volumes;
  }
}
