/** The pod execution engine: one pass over a pool, and the cleanup of a pool's host pods. */
module Execution {
  import opened Lists
  import opened PodModel
  import opened NodeModel
  import opened CorePods
  import opened Translation
  import opened Drift
  import opened Clusters

  /** A pool together with the runtime class that the isolation backend provides by default. */
  datatype Engine = Engine(pool: VNodePool, runtimeClass: string)

  datatype Counters = Counters(sourcePods: nat, created: nat, deleted: nat, synced: nat)

  /** `Abandoned` is a pass that met a cancelled context and reported no error. */
  datatype Outcome = Completed | Abandoned | Failed

  datatype Progress = Progress(w: World, desired: set<string>, c: Counters)

  datatype Flow = Next(p: Progress) | Stop(p: Progress, how: Outcome)

  function StopFor(err: Error): Outcome {
    if err.Cancelled? then Abandoned else Failed
  }

  // ---------- what a source pod becomes ----------

  function Opts(e: Engine, vnodeName: string): TranslateOpts {
    TranslateOpts(
      vnodeName, e.pool.name, e.pool.ns,
      if e.pool.runtimeClassName != "" then e.pool.runtimeClassName else e.runtimeClass,
      if e.pool.mode.Dedicated? || e.pool.mode.Burstable? then e.pool.nodeSelector else map[])
  }

  function Wanted(e: Engine, src: CorePod): PodSpec {
    Target(SourceOf(src), Opts(e, src.nodeName))
  }

  function HostKey(e: Engine, src: CorePod): Key {
    Key(e.pool.ns, HostName(src.nodeName, src.ns, src.name))
  }

  function KeyForPod(k: Key): string {
    k.ns + "/" + k.name
  }

  function ResourceLabels(e: Engine): map<string, string> {
    map[LABEL_MANAGED_BY := LABEL_MANAGED_BY_VALUE, LABEL_VNODE_POOL := e.pool.name]
  }

  function RefsOf(src: CorePod): seq<ResourceRef> {
    Refs(SourceOf(src).volumes, src.ns)
  }

  // ---------- the pass as a function ----------

  predicate IsSource(pod: CorePod, ready: set<string>) {
    && !(LABEL_MANAGED_BY in pod.labels && pod.labels[LABEL_MANAGED_BY] == LABEL_MANAGED_BY_VALUE)
    && !pod.deleting
    && pod.nodeName in ready
  }

  function ReadyNames(nodes: seq<VNode>): set<string> {
    set n | n in nodes && IsReady(n) :: n.name
  }

  function Sources(st: Stores, s: Script, ready: set<string>): seq<CorePod> {
    Filter((p: CorePod) => IsSource(p, ready), Listed(st.tenantPods, s.tenantOrder(st.tenantPods.Keys)))
  }

  function Listed(pods: map<Key, CorePod>, keys: seq<Key>): seq<CorePod> {
    if keys == [] then []
    else
      var n := |keys| - 1;
      Listed(pods, keys[..n]) + (if keys[n] in pods then [pods[keys[n]]] else [])
  }

  function SyncResources(w: World, s: Script, e: Engine, refs: seq<ResourceRef>): (World, Option<Error>)
    decreases |refs|
  {
    if refs == [] then (w, None)
    else
      var r := refs[0];
      var (w1, reply) := GetTenantResource(w, s, r.kind, Key(r.sourceNs, r.sourceName));
      match reply
      case Err(err) => (w1, Some(err))
      case NotFound => SyncResources(w1, s, e, refs[1..])
      case Got(payload) =>
        var (w2, failure) :=
          EnsureResource(w1, s, r.kind, Key(e.pool.ns, r.targetName), HostResource(payload, ResourceLabels(e)));
        if failure.Some? then (w2, failure) else SyncResources(w2, s, e, refs[1..])
  }

  datatype Verdict = Fine | PodTerminating | ApiError(err: Error)

  datatype Ensured = Ensured(w: World, created: bool, deleted: bool, verdict: Verdict)

  function EnsureHostPod(w: World, s: Script, spec: PodSpec): Ensured {
    var k := Key(spec.ns, spec.name);
    var (w1, reply) := GetPod(w, s, k);
    match reply
    case Err(err) => Ensured(w1, false, false, ApiError(err))
    case NotFound =>
      var (w2, failure) := CreatePod(w1, s, spec);
      Ensured(w2, true, false, if failure.Some? then ApiError(failure.value) else Fine)
    case Got(current) =>
      if current.deleting then Ensured(w1, false, false, PodTerminating)
      else if PodSpecsEqual(FromCore(current), spec) then Ensured(w1, false, false, Fine)
      else
        var (w2, failure) := DeletePod(w1, s, k);
        if failure.Some? then Ensured(w2, false, false, ApiError(failure.value))
        else Ensured(w2, false, true, PodTerminating)
  }

  datatype Mirrored = Mirrored(w: World, synced: bool, failure: Option<Error>)

  function MirrorStatus(w: World, s: Script, k: Key, tenant: Key): Mirrored {
    var (w1, reply) := GetPod(w, s, k);
    match reply
    case Err(err) => Mirrored(w1, false, Some(err))
    case NotFound => Mirrored(w1, false, None)
    case Got(pod) =>
      var (w2, current) := GetTenantPod(w1, s, tenant);
      match current
      case Err(err) => Mirrored(w2, false, Some(err))
      case NotFound => Mirrored(w2, false, Some(Refused))
      case Got(_) =>
        var (w3, failure) := PutTenantStatus(w2, s, tenant, StatusFromCore(pod.status));
        Mirrored(w3, failure.None?, failure)
  }

  function Reap(p: Progress, s: Script, k: Key): Flow {
    var (w1, failure) := DeletePod(p.w, s, k);
    if failure.Some? then Stop(p.(w := w1), StopFor(failure.value))
    else Next(p.(w := w1, c := p.c.(deleted := p.c.deleted + 1)))
  }

  function MirrorAndReap(p: Progress, s: Script, e: Engine, src: CorePod): Flow {
    var m := MirrorStatus(p.w, s, HostKey(e, src), KeyOf(src));
    if m.failure.Some? then Stop(p.(w := m.w), StopFor(m.failure.value))
    else
      var q := p.(w := m.w, c := if m.synced then p.c.(synced := p.c.synced + 1) else p.c);
      if IsTerminal(src) then Reap(q, s, HostKey(e, src)) else Next(q)
  }

  function Counted(c: Counters, created: bool, deleted: bool): Counters {
    c.(created := if created then c.created + 1 else c.created, deleted := if deleted then c.deleted + 1 else c.deleted)
  }

  function SyncPod(p: Progress, s: Script, e: Engine, src: CorePod): Flow {
    var d := p.desired + {KeyForPod(HostKey(e, src))};
    var (w1, failure) := SyncResources(p.w.(seen := map[]), s, e, RefsOf(src));
    if failure.Some? then Stop(p.(w := w1, desired := d), StopFor(failure.value))
    else if IsTerminal(src) then MirrorAndReap(p.(w := w1, desired := d), s, e, src)
    else EnsureAndMirror(p.(w := w1, desired := d), s, e, src)
  }

  /** The part of the loop body that a running source goes through once its resources are in place. */
  function EnsureAndMirror(p: Progress, s: Script, e: Engine, src: CorePod): Flow {
    var r := EnsureHostPod(p.w, s, Wanted(e, src));
    match r.verdict
    case PodTerminating => Next(p.(w := r.w, c := Counted(p.c, false, r.deleted)))
    case ApiError(err) => Stop(p.(w := r.w), StopFor(err))
    case Fine => MirrorAndReap(p.(w := r.w, c := Counted(p.c, r.created, r.deleted)), s, e, src)
  }

  function SyncPods(p: Progress, s: Script, e: Engine, srcs: seq<CorePod>): Flow
    decreases |srcs|
  {
    if srcs == [] then Next(p)
    else
      match SyncPod(p, s, e, srcs[0])
      case Stop(q, how) => Stop(q, how)
      case Next(q) => SyncPods(q, s, e, srcs[1..])
  }

  function Sweep(p: Progress, s: Script, keys: seq<Key>): Flow
    decreases |keys|
  {
    if keys == [] then Next(p)
    else if KeyForPod(keys[0]) in p.desired then Sweep(p, s, keys[1..])
    else
      match Reap(p, s, keys[0])
      case Stop(q, how) => Stop(q, how)
      case Next(q) => Sweep(q, s, keys[1..])
  }

  function SweepListed(p: Progress, s: Script, e: Engine): Flow {
    var w1 := Tick(p.w, s);
    if Fails(p.w, s).Some? then Stop(p.(w := w1), StopFor(Fails(p.w, s).value))
    else Sweep(p.(w := w1), s, s.hostOrder(Labelled(w1.st, e.pool.ns, e.pool.name)))
  }

  const NoCounts := Counters(0, 0, 0, 0)

  function SyncAndSweep(w: World, s: Script, e: Engine, srcs: seq<CorePod>): Flow {
    match SyncPods(Progress(w, {}, NoCounts.(sourcePods := |srcs|)), s, e, srcs)
    case Stop(q, how) => Stop(q, how)
    case Next(q) => SweepListed(q, s, e)
  }

  /** One pass: resolve the tenant, list nodes, list source pods, sync each one, sweep the rest. */
  function Pass(w: World, s: Script, e: Engine, nodes: seq<VNode>): Flow {
    var w1 := Tick(w, s);
    if Fails(w, s).Some? then Stop(Progress(w1, {}, NoCounts), StopFor(Fails(w, s).value))
    else
      var w2 := Tick(w1, s);
      if Fails(w1, s).Some? then Stop(Progress(w2, {}, NoCounts), StopFor(Fails(w1, s).value))
      else
        var ready := ReadyNames(nodes);
        if ready == {} then SyncAndSweep(w2, s, e, [])
        else
          var w3 := Tick(w2, s);
          if Fails(w2, s).Some? then Stop(Progress(w3, {}, NoCounts), StopFor(Fails(w2, s).value))
          else SyncAndSweep(w3, s, e, Sources(w3.st, s, ready))
  }

  /** Deletion of every labelled host pod of a pool that is going away. */
  function Cleanup(w: World, s: Script, e: Engine): Flow {
    SweepListed(Progress(w, {}, NoCounts), s, e)
  }

  // ---------- the pass as it runs ----------

  method ListTenantPodsForNodes(st: Stores, s: Script, ready: set<string>) returns (result: seq<CorePod>)
    ensures result == Sources(st, s, ready)
  {
    var items := Listed(st.tenantPods, s.tenantOrder(st.tenantPods.Keys));
    var selected := (p: CorePod) => IsSource(p, ready);
    result := [];
    for i := 0 to |items|
      invariant result == Filter(selected, items[..i])
    {
      FilterSnoc(selected, items, i);
      var pod := items[i];
      if LABEL_MANAGED_BY in pod.labels && pod.labels[LABEL_MANAGED_BY] == LABEL_MANAGED_BY_VALUE {
        continue;
      }
      if pod.deleting {
        continue;
      }
      if pod.nodeName !in ready {
        continue;
      }
      result := result + [pod];
    }
    assert items[..|items|] == items;
  }

  method SyncPodResources(host: Cluster, e: Engine, t: PodTranslation) returns (failure: Option<Error>)
    modifies host
    ensures (host.State(), failure) == SyncResources(old(host.State()), host.script, e, Refs(t.source.volumes, t.source.ns))
  {
    var refs := ResourceRefs(t);
    var labels := ResourceLabels(e);
    for i := 0 to |refs|
      invariant SyncResources(old(host.State()), host.script, e, refs) == SyncResources(host.State(), host.script, e, refs[i..])
    {
      var r := refs[i];
      assert refs[i..][1..] == refs[i + 1..];
      var reply := host.ReadTenantResource(r.kind, Key(r.sourceNs, r.sourceName));
      match reply {
        case Err(err) =>
          return Some(err);
        case NotFound =>
          continue;
        case Got(payload) =>
          failure := host.Ensure(r.kind, Key(e.pool.ns, r.targetName), payload, labels);
          if failure.Some? {
            return;
          }
      }
    }
    failure := None;
  }

  method EnsurePod(host: Cluster, spec: PodSpec) returns (created: bool, deleted: bool, verdict: Verdict)
    modifies host
    ensures Ensured(host.State(), created, deleted, verdict) == EnsureHostPod(old(host.State()), host.script, spec)
  {
    var reply := host.Get(Key(spec.ns, spec.name));
    match reply {
      case Err(err) =>
        return false, false, ApiError(err);
      case NotFound =>
        var failure := host.CreateHostPod(spec);
        return true, false, if failure.Some? then ApiError(failure.value) else Fine;
      case Got(pod) =>
        var current := PodToSpec(pod);
        if current.deleting {
          return false, false, PodTerminating;
        }
        if PodSpecsEqual(current, spec) {
          return false, false, Fine;
        }
        var failure := host.DeleteHostPod(Key(spec.ns, spec.name));
        if failure.Some? {
          return false, false, ApiError(failure.value);
        }
        return false, true, PodTerminating;
    }
  }

  method Mirror(host: Cluster, k: Key, tenant: Key) returns (synced: bool, failure: Option<Error>)
    modifies host
    ensures Mirrored(host.State(), synced, failure) == MirrorStatus(old(host.State()), host.script, k, tenant)
  {
    var reply := host.Get(k);
    match reply {
      case Err(err) =>
        return false, Some(err);
      case NotFound =>
        return false, None;
      case Got(pod) =>
        var current := host.GetTenant(tenant);
        match current {
          case Err(err) =>
            return false, Some(err);
          case NotFound =>
            return false, Some(Refused);
          case Got(_) =>
            failure := host.UpdateTenantStatus(tenant, StatusFromCore(pod.status));
            synced := failure.None?;
        }
    }
  }

  /** The sweep of the host pods that no source wants. */
  method SweepOrphans(host: Cluster, e: Engine, desired: set<string>, c0: Counters) returns (c: Counters, how: Outcome)
    modifies host
    ensures var f := SweepListed(Progress(old(host.State()), desired, c0), host.script, e);
      f.p == Progress(host.State(), desired, c) && how == (if f.Next? then Completed else f.how)
  {
    c := c0;
    var failure := host.Begin();
    if failure.Some? {
      return c, StopFor(failure.value);
    }
    var listed := host.script.hostOrder(Labelled(host.st, e.pool.ns, e.pool.name));
    for i := 0 to |listed|
      invariant SweepListed(Progress(old(host.State()), desired, c0), host.script, e)
             == Sweep(Progress(host.State(), desired, c), host.script, listed[i..])
    {
      assert listed[i..][1..] == listed[i + 1..];
      if KeyForPod(listed[i]) in desired {
        continue;
      }
      failure := host.DeleteHostPod(listed[i]);
      if failure.Some? {
        return c, StopFor(failure.value);
      }
      c := c.(deleted := c.deleted + 1);
    }
    how := Completed;
  }

  method CleanupPoolPods(host: Cluster, e: Engine) returns (deleted: nat, how: Outcome)
    modifies host
    ensures var f := Cleanup(old(host.State()), host.script, e);
      f.p.w == host.State() && f.p.c.deleted == deleted && how == (if f.Next? then Completed else f.how)
  {
    var c;
    c, how := SweepOrphans(host, e, {}, NoCounts);
    deleted := c.deleted;
  }

  /** The second half of the pod loop's body: status back to the tenant, then the host copy of a finished pod goes. */
  method MirrorThenReap(host: Cluster, e: Engine, src: CorePod, ghost d: set<string>, c0: Counters)
    returns (c: Counters, how: Outcome)
    modifies host
    ensures var f := MirrorAndReap(Progress(old(host.State()), d, c0), host.script, e, src);
      f.p == Progress(host.State(), d, c) && (f.Next? ==> how == Completed) && (f.Stop? ==> how == f.how != Completed)
  {
    c := c0;
    var synced, lost := Mirror(host, HostKey(e, src), KeyOf(src));
    if lost.Some? {
      return c, StopFor(lost.value);
    }
    if synced {
      c := c.(synced := c.synced + 1);
    }
    if IsTerminal(src) {
      var failure := host.DeleteHostPod(HostKey(e, src));
      if failure.Some? {
        return c, StopFor(failure.value);
      }
      c := c.(deleted := c.deleted + 1);
    }
    how := Completed;
  }

  /** The body of the pod loop, from translation to reaping. `how` is `Completed` when the loop goes on. */
  method SyncOne(host: Cluster, e: Engine, src: CorePod, d0: set<string>, c0: Counters)
    returns (d: set<string>, c: Counters, how: Outcome)
    modifies host
    ensures var f := SyncPod(Progress(old(host.State()), d0, c0), host.script, e, src);
      f.p == Progress(host.State(), d, c) && (f.Next? ==> how == Completed) && (f.Stop? ==> how == f.how != Completed)
  {
    var spec := PodFromCore(src);
    var t := TranslatePod(spec, Opts(e, src.nodeName));
    var k := Key(t.target.ns, t.target.name);
    d, c := d0 + {KeyForPod(k)}, c0;
    host.StartCopy();
    var failure := SyncPodResources(host, e, t);
    if failure.Some? {
      return d, c, StopFor(failure.value);
    }
    if !IsTerminal(src) {
      var created, deleted, verdict := EnsurePod(host, t.target);
      match verdict {
        case PodTerminating =>
          c := Counted(c, false, deleted);
          return d, c, Completed;
        case ApiError(err) =>
          return d, c, StopFor(err);
        case Fine =>
          c := Counted(c, created, deleted);
      }
    }
    c, how := MirrorThenReap(host, e, src, d, c);
  }

  method ReconcilePool(host: Cluster, e: Engine, nodes: seq<VNode>) returns (c: Counters, how: Outcome)
    modifies host
    ensures var f := Pass(old(host.State()), host.script, e, nodes);
      f.p.w == host.State() && f.p.c == c && how == (if f.Next? then Completed else f.how)
  {
    c := NoCounts;
    var failure := host.Begin();
    if failure.Some? {
      return c, StopFor(failure.value);
    }
    failure := host.Begin();
    if failure.Some? {
      return c, StopFor(failure.value);
    }
    var ready: set<string> := {};
    for i := 0 to |nodes|
      invariant ready == ReadyNames(nodes[..i])
    {
      assert nodes[..i + 1] == nodes[..i] + [nodes[i]];
      if IsReady(nodes[i]) {
        ready := ready + {nodes[i].name};
      }
    }
    assert nodes[..|nodes|] == nodes;
    var srcs: seq<CorePod> := [];
    if ready != {} {
      failure := host.Begin();
      if failure.Some? {
        return c, StopFor(failure.value);
      }
      srcs := ListTenantPodsForNodes(host.st, host.script, ready);
    }
    c := c.(sourcePods := |srcs|);
    var desired: set<string> := {};
    ghost var start := host.State();
    assert Pass(old(host.State()), host.script, e, nodes) == SyncAndSweep(start, host.script, e, srcs);
    for i := 0 to |srcs|
      invariant SyncPods(Progress(start, {}, NoCounts.(sourcePods := |srcs|)), host.script, e, srcs)
             == SyncPods(Progress(host.State(), desired, c), host.script, e, srcs[i..])
    {
      assert srcs[i..][1..] == srcs[i + 1..];
      desired, c, how := SyncOne(host, e, srcs[i], desired, c);
      if how != Completed {
        return;
      }
    }
    c, how := SweepOrphans(host, e, desired, c);
  }
}
