/**
 * The host and tenant clusters the engine works on. Every API call may be preceded by any number
 * of steps of the outside world, and one call of a pass may fail.
 */
module Clusters {
  import opened Lists
  import opened PodModel
  import opened CorePods
  import opened Translation
  import opened Drift

  datatype Key = Key(ns: string, name: string)

  function KeyOf(pod: CorePod): Key {
    Key(pod.ns, pod.name)
  }

  function At<V>(m: map<Key, V>, k: Key): Option<V> {
    if k in m then Some(m[k]) else None
  }

  datatype Payload = Payload(data: map<string, string>, binaryData: map<string, string>)

  datatype HostResource = HostResource(payload: Payload, labels: map<string, string>)

  datatype Stores = Stores(
    hostPods: map<Key, CorePod>, hostMaps: map<Key, HostResource>, hostSecrets: map<Key, HostResource>,
    tenantPods: map<Key, CorePod>, tenantMaps: map<Key, Payload>, tenantSecrets: map<Key, Payload>)

  /** The tenant ConfigMaps and Secrets that a copy looked up, with what it read: a payload, or that there is none. */
  type Reads = map<(VolumeType, Key), Option<Payload>>

  /** A pod creation on the host: the stores at that moment, and what the copy for this pod had read. */
  datatype Creation = Creation(pod: CorePod, at: Stores, copied: Reads)

  /** Something happened to a host object, by the pool's own call or not. */
  datatype HostEvent = HostEvent(own: bool, a: EnvAction)

  /**
   * `log` records creations, `seen` what the current source's copy has read, and `trace` all that happened to host
   * objects; no code looks at any of them.
   */
  datatype World = World(st: Stores, calls: nat, log: seq<Creation>, seen: Reads, trace: seq<HostEvent>)

  // ---------- the outside world ----------

  datatype EnvAction =
    | HostStatus(key: Key, status: CoreStatus)  // the host kubelet reports
    | HostEvicted(key: Key)                     // somebody else asks for deletion
    | HostRemoved(key: Key)                     // a requested deletion completes
    | TenantCreated(pod: CorePod)
    | TenantBound(key: Key, node: string)       // the tenant scheduler places a pod
    | TenantEdited(key: Key, labels: map<string, string>, containers: seq<CoreContainer>)
    | TenantDeleted(key: Key)                   // deletion requested
    | TenantRemoved(key: Key)
    | TenantResources(maps: map<Key, Payload>, secrets: map<Key, Payload>)
    | HostCreated(key: Key, pod: CorePod)
    | HostWritten(kind: VolumeType, key: Key, resource: HostResource)

  /** Terminal phases are sticky, removal needs a deletion request, and a pod is not created twice. */
  function PodStep(pods: map<Key, CorePod>, a: EnvAction): map<Key, CorePod> {
    match a
    case HostStatus(k, status) =>
      if k in pods && !IsTerminal(pods[k]) then pods[k := pods[k].(status := status)] else pods
    case HostEvicted(k) => if k in pods then pods[k := pods[k].(deleting := true)] else pods
    case HostRemoved(k) => if k in pods && pods[k].deleting then pods - {k} else pods
    case HostCreated(k, pod) => if k in pods then pods else pods[k := pod]
    case _ => pods
  }

  /** New tenant pods have not finished; a bound pod keeps its node. */
  function EnvStep(st: Stores, a: EnvAction): Stores {
    match a
    case TenantCreated(pod) =>
      if KeyOf(pod) !in st.tenantPods && !IsTerminal(pod)
      then st.(tenantPods := st.tenantPods[KeyOf(pod) := pod]) else st
    case TenantBound(k, node) =>
      if k in st.tenantPods && st.tenantPods[k].nodeName == "" && !IsTerminal(st.tenantPods[k])
      then st.(tenantPods := st.tenantPods[k := st.tenantPods[k].(nodeName := node)]) else st
    case TenantEdited(k, labels, containers) =>
      if k in st.tenantPods
      then st.(tenantPods := st.tenantPods[k := st.tenantPods[k].(labels := labels, containers := containers)]) else st
    case TenantDeleted(k) =>
      if k in st.tenantPods then st.(tenantPods := st.tenantPods[k := st.tenantPods[k].(deleting := true)]) else st
    case TenantRemoved(k) => st.(tenantPods := st.tenantPods - {k})
    case TenantResources(maps, secrets) => st.(tenantMaps := maps, tenantSecrets := secrets)
    case HostWritten(kind, k, r) => PutResource(st, kind, k, r)
    case _ => st.(hostPods := PodStep(st.hostPods, a))
  }

  function EnvSteps(st: Stores, actions: seq<EnvAction>): Stores {
    if actions == [] then st
    else EnvStep(EnvSteps(st, actions[..|actions| - 1]), actions[|actions| - 1])
  }

  predicate IsHostAction(a: EnvAction) {
    a.HostStatus? || a.HostEvicted? || a.HostRemoved? || a.HostCreated? || a.HostWritten?
  }

  /** The host events among steps of others, in order. */
  function Noted(actions: seq<EnvAction>): seq<HostEvent> {
    if actions == [] then []
    else
      var n := |actions| - 1;
      Noted(actions[..n]) + (if IsHostAction(actions[n]) then [HostEvent(false, actions[n])] else [])
  }

  // ---------- scripts ----------

  /** `Cancelled` is a context that ended; every other failure is `Refused`. */
  datatype Error = Cancelled | Refused

  datatype Fault = Fault(call: nat, err: Error)

  /** What happens around a pass: outside steps before each call, the first failing call, and list orders. */
  datatype Script = Script(
    env: nat -> seq<EnvAction>, fault: Option<Fault>, hostOrder: set<Key> -> seq<Key>, tenantOrder: set<Key> -> seq<Key>)

  ghost predicate Enumerates(q: seq<Key>, s: set<Key>) {
    && (forall k :: k in q <==> k in s)
    && (forall i, j :: 0 <= i < j < |q| ==> q[i] != q[j])
  }

  /** Lists return every object once, in whatever order. */
  ghost predicate Orderly(s: Script) {
    && (forall keys :: Enumerates(s.hostOrder(keys), keys))
    && (forall keys :: Enumerates(s.tenantOrder(keys), keys))
  }

  /** Nothing else happens while the pass runs. */
  ghost predicate Quiet(s: Script) {
    forall n: nat :: s.env(n) == []
  }

  function Tick(w: World, s: Script): World {
    w.(st := EnvSteps(w.st, s.env(w.calls)), calls := w.calls + 1, trace := w.trace + Noted(s.env(w.calls)))
  }

  function Fails(w: World, s: Script): Option<Error> {
    if s.fault.Some? && s.fault.value.call == w.calls then Some(s.fault.value.err) else None
  }

  // ---------- effects of successful calls ----------

  function MarkDeleting(st: Stores, k: Key): Stores {
    if k in st.hostPods then st.(hostPods := st.hostPods[k := st.hostPods[k].(deleting := true)]) else st
  }

  function Create(w: World, spec: PodSpec): World {
    var pod := Stored(spec);
    w.(st := w.st.(hostPods := w.st.hostPods[KeyOf(pod) := pod]), log := w.log + [Creation(pod, w.st, w.seen)],
       trace := w.trace + [HostEvent(true, HostCreated(KeyOf(pod), pod))])
  }

  /** A deletion request for the host pod at `k`. */
  function Marked(w: World, k: Key): World {
    w.(st := MarkDeleting(w.st, k), trace := w.trace + [HostEvent(true, HostEvicted(k))])
  }

  /** A write of a host ConfigMap or Secret. */
  function Put(w: World, kind: VolumeType, k: Key, r: HostResource): World {
    w.(st := PutResource(w.st, kind, k, r), trace := w.trace + [HostEvent(true, HostWritten(kind, k, r))])
  }

  function PutResource(st: Stores, kind: VolumeType, k: Key, r: HostResource): Stores {
    if kind.ConfigMap? then st.(hostMaps := st.hostMaps[k := r]) else st.(hostSecrets := st.hostSecrets[k := r])
  }

  function TenantResource(st: Stores, kind: VolumeType): map<Key, Payload> {
    if kind.ConfigMap? then st.tenantMaps else st.tenantSecrets
  }

  function HostResourceOf(st: Stores, kind: VolumeType): map<Key, HostResource> {
    if kind.ConfigMap? then st.hostMaps else st.hostSecrets
  }

  function WriteStatus(st: Stores, k: Key, status: PodStatus): Stores
    requires k in st.tenantPods
  {
    st.(tenantPods := st.tenantPods[k := st.tenantPods[k].(status := StatusToCore(status))])
  }

  predicate HasPoolLabels(pod: CorePod, poolName: string) {
    && LABEL_MANAGED_BY in pod.labels && pod.labels[LABEL_MANAGED_BY] == LABEL_MANAGED_BY_VALUE
    && LABEL_VNODE_POOL in pod.labels && pod.labels[LABEL_VNODE_POOL] == poolName
  }

  /** Keys of the pods a label list returns; an empty namespace means every namespace. */
  function Labelled(st: Stores, ns: string, poolName: string): set<Key> {
    set k | k in st.hostPods && (ns == "" || k.ns == ns) && HasPoolLabels(st.hostPods[k], poolName)
  }

  // ---------- calls ----------

  datatype Reply<+T> = Got(value: T) | NotFound | Err(err: Error)

  function GetPod(w: World, s: Script, k: Key): (World, Reply<CorePod>) {
    var w1 := Tick(w, s);
    (w1, if Fails(w, s).Some? then Err(Fails(w, s).value)
         else if k in w1.st.hostPods then Got(w1.st.hostPods[k]) else NotFound)
  }

  /** Creating a pod that exists is refused. */
  function CreatePod(w: World, s: Script, spec: PodSpec): (World, Option<Error>) {
    var w1 := Tick(w, s);
    if Fails(w, s).Some? then (w1, Fails(w, s))
    else if Key(spec.ns, spec.name) in w1.st.hostPods then (w1, Some(Refused))
    else (Create(w1, spec), None)
  }

  /** Deletion is asynchronous, and deleting a missing pod succeeds. */
  function DeletePod(w: World, s: Script, k: Key): (World, Option<Error>) {
    var w1 := Tick(w, s);
    if Fails(w, s).Some? then (w1, Fails(w, s)) else (Marked(w1, k), None)
  }

  function GetTenantPod(w: World, s: Script, k: Key): (World, Reply<CorePod>) {
    var w1 := Tick(w, s);
    (w1, if Fails(w, s).Some? then Err(Fails(w, s).value)
         else if k in w1.st.tenantPods then Got(w1.st.tenantPods[k]) else NotFound)
  }

  function PutTenantStatus(w: World, s: Script, k: Key, status: PodStatus): (World, Option<Error>) {
    var w1 := Tick(w, s);
    if Fails(w, s).Some? then (w1, Fails(w, s))
    else if k !in w1.st.tenantPods then (w1, Some(Refused))
    else (w1.(st := WriteStatus(w1.st, k, status)), None)
  }

  function GetTenantResource(w: World, s: Script, kind: VolumeType, k: Key): (World, Reply<Payload>) {
    var w1 := Tick(w, s);
    if Fails(w, s).Some? then (w1, Err(Fails(w, s).value))
    else if k !in TenantResource(w1.st, kind) then (w1.(seen := w1.seen[(kind, k) := None]), NotFound)
    else
      var payload := TenantResource(w1.st, kind)[k];
      (w1.(seen := w1.seen[(kind, k) := Some(payload)]), Got(payload))
  }

  /** One read and one write; create and update leave the same object. */
  function EnsureResource(w: World, s: Script, kind: VolumeType, k: Key, r: HostResource): (World, Option<Error>) {
    var w1 := Tick(w, s);
    if Fails(w, s).Some? then (w1, Fails(w, s))
    else
      var w2 := Tick(w1, s);
      if Fails(w1, s).Some? then (w2, Fails(w1, s)) else (Put(w2, kind, k, r), None)
  }

  /** The two clusters as objects that calls change in place. */
  class Cluster {
    var st: Stores
    var calls: nat
    var log: seq<Creation>
    var seen: Reads
    var trace: seq<HostEvent>
    const script: Script

    constructor (st: Stores, script: Script)
      ensures State() == World(st, 0, [], map[], []) && this.script == script
    {
      this.st := st;
      this.calls := 0;
      this.log := [];
      this.seen := map[];
      this.trace := [];
      this.script := script;
    }

    function State(): World
      reads this
    {
      World(st, calls, log, seen, trace)
    }

    method Begin() returns (failure: Option<Error>)
      modifies this
      ensures State() == Tick(old(State()), script) && failure == Fails(old(State()), script)
    {
      failure := Fails(State(), script);
      var actions := script.env(calls);
      ghost var before := st;
      for i := 0 to |actions|
        invariant st == EnvSteps(before, actions[..i]) && trace == old(trace) + Noted(actions[..i])
        invariant calls == old(calls) && log == old(log) && seen == old(seen)
      {
        assert actions[..i + 1][..i] == actions[..i];
        st := EnvStep(st, actions[i]);
        if IsHostAction(actions[i]) {
          trace := trace + [HostEvent(false, actions[i])];
        }
      }
      assert actions[..|actions|] == actions;
      calls := calls + 1;
    }

    method Get(k: Key) returns (r: Reply<CorePod>)
      modifies this
      ensures (State(), r) == GetPod(old(State()), script, k)
    {
      var failure := Begin();
      r := if failure.Some? then Err(failure.value) else if k in st.hostPods then Got(st.hostPods[k]) else NotFound;
    }

    method CreateHostPod(spec: PodSpec) returns (failure: Option<Error>)
      modifies this
      ensures (State(), failure) == CreatePod(old(State()), script, spec)
    {
      failure := Begin();
      if failure.Some? {
        return;
      }
      if Key(spec.ns, spec.name) in st.hostPods {
        failure := Some(Refused);
        return;
      }
      var core := PodSpecToK8sPod(spec);
      var pod := Admitted(core);
      log := log + [Creation(pod, st, seen)];
      st := st.(hostPods := st.hostPods[KeyOf(pod) := pod]);
      trace := trace + [HostEvent(true, HostCreated(KeyOf(pod), pod))];
    }

    method DeleteHostPod(k: Key) returns (failure: Option<Error>)
      modifies this
      ensures (State(), failure) == DeletePod(old(State()), script, k)
    {
      failure := Begin();
      if failure.Some? {
        return;
      }
      trace := trace + [HostEvent(true, HostEvicted(k))];
      if k in st.hostPods {
        st := st.(hostPods := st.hostPods[k := st.hostPods[k].(deleting := true)]);
      }
    }

    method GetTenant(k: Key) returns (r: Reply<CorePod>)
      modifies this
      ensures (State(), r) == GetTenantPod(old(State()), script, k)
    {
      var failure := Begin();
      r := if failure.Some? then Err(failure.value) else if k in st.tenantPods then Got(st.tenantPods[k]) else NotFound;
    }

    method UpdateTenantStatus(k: Key, status: PodStatus) returns (failure: Option<Error>)
      modifies this
      ensures (State(), failure) == PutTenantStatus(old(State()), script, k, status)
    {
      failure := Begin();
      if failure.Some? {
        return;
      }
      if k !in st.tenantPods {
        failure := Some(Refused);
        return;
      }
      st := WriteStatus(st, k, status);
    }

    method ReadTenantResource(kind: VolumeType, k: Key) returns (r: Reply<Payload>)
      modifies this
      ensures (State(), r) == GetTenantResource(old(State()), script, kind, k)
    {
      var failure := Begin();
      var found := TenantResource(st, kind);
      if failure.Some? {
        return Err(failure.value);
      }
      if k !in found {
        seen := seen[(kind, k) := None];
        return NotFound;
      }
      seen := seen[(kind, k) := Some(found[k])];
      r := Got(found[k]);
    }

    /** A new source's copy begins. */
    method StartCopy()
      modifies this`seen
      ensures State() == old(State()).(seen := map[])
    {
      seen := map[];
    }

    method Ensure(kind: VolumeType, k: Key, payload: Payload, labels: map<string, string>) returns (failure: Option<Error>)
      modifies this
      ensures (State(), failure) == EnsureResource(old(State()), script, kind, k, HostResource(payload, labels))
    {
      failure := Begin();
      if failure.Some? {
        return;
      }
      var found := HostResourceOf(st, kind);
      failure := Begin();
      if failure.Some? {
        return;
      }
      if k !in found {
        st := PutResource(st, kind, k, HostResource(payload, labels));
      } else {
        st := PutResource(st, kind, k, found[k].(payload := payload, labels := labels));
      }
      trace := trace + [HostEvent(true, HostWritten(kind, k, HostResource(payload, labels)))];
    }
  }
}
