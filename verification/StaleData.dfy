/** Tenant data that changes while a pass is under way. */
module StaleData {
  import opened Lists
  import opened PodModel
  import opened CorePods
  import opened Translation
  import opened Drift
  import opened Clusters
  import opened Execution
  import opened RunSafety

  /** A script in which the tenant's ConfigMaps change once, just after the copy has read the first of them. */
  function ChangeAfterRead(base: Script, w: World, maps: map<Key, Payload>): Script {
    base.(env := n => if n == w.calls + 1 then [TenantResources(maps, w.st.tenantSecrets)] else [], fault := None)
  }

  lemma QuietTick(w: World, s: Script)
    requires s.env(w.calls) == []
    ensures Tick(w, s) == w.(calls := w.calls + 1)
  {
    assert w.trace + [] == w.trace;
  }

  lemma ChangingTick(w: World, s: Script, maps: map<Key, Payload>, secrets: map<Key, Payload>)
    requires s.env(w.calls) == [TenantResources(maps, secrets)]
    ensures Tick(w, s) == w.(calls := w.calls + 1, st := w.st.(tenantMaps := maps, tenantSecrets := secrets))
  {
    var a := TenantResources(maps, secrets);
    assert [a][..0] == [];
    assert EnvSteps(w.st, [a]) == EnvStep(EnvSteps(w.st, []), a);
    assert Noted([a]) == Noted([]) == [];
    assert w.trace + [] == w.trace;
  }

  lemma ChangedOnce(base: Script, w: World, maps: map<Key, Payload>)
    ensures var s := ChangeAfterRead(base, w, maps);
      var w1, w2 := Tick(w, s), Tick(Tick(w, s), s);
      && w1 == w.(calls := w.calls + 1)
      && w2 == w.(calls := w.calls + 2, st := w.st.(tenantMaps := maps))
      && forall v: World :: v.calls >= w.calls + 2 ==> Tick(v, s) == v.(calls := v.calls + 1)
  {
    var s := ChangeAfterRead(base, w, maps);
    QuietTick(w, s);
    ChangingTick(Tick(w, s), s, maps, w.st.tenantSecrets);
    forall v: World | v.calls >= w.calls + 2 ensures Tick(v, s) == v.(calls := v.calls + 1) {
      QuietTick(v, s);
    }
  }

  lemma SingleCopy(w: World, s: Script, e: Engine, r: ResourceRef)
    requires GetTenantResource(w, s, r.kind, Key(r.sourceNs, r.sourceName)).1.Got?
    ensures var (w1, reply) := GetTenantResource(w, s, r.kind, Key(r.sourceNs, r.sourceName));
      var ensured := EnsureResource(w1, s, r.kind, Key(e.pool.ns, r.targetName), HostResource(reply.value, ResourceLabels(e)));
      SyncResources(w, s, e, [r]) == ensured
  {
    assert [r][1..] == [];
  }

  /** A copy whose three calls find the worlds `w`, `w1` and `w2`. */
  lemma CopyAcross(w: World, s: Script, e: Engine, r: ResourceRef, w1: World, w2: World, w3: World, payload: Payload)
    requires s.fault.None? && GetTenantResource(w, s, r.kind, Key(r.sourceNs, r.sourceName)) == (w1, Got(payload))
    requires Tick(w1, s) == w2 && Tick(w2, s) == w3
    ensures SyncResources(w, s, e, [r]) ==
      (Put(w3, r.kind, Key(e.pool.ns, r.targetName), HostResource(payload, ResourceLabels(e))), None)
  {
    SingleCopy(w, s, e, r);
  }

  lemma CopyOutdated(base: Script, w: World, e: Engine, r: ResourceRef, maps: map<Key, Payload>)
    requires r.kind.ConfigMap? && Key(r.sourceNs, r.sourceName) in w.st.tenantMaps
    ensures var from, to := Key(r.sourceNs, r.sourceName), Key(e.pool.ns, r.targetName);
      var payload := w.st.tenantMaps[from];
      var later := w.(calls := w.calls + 3, seen := w.seen[(r.kind, from) := Some(payload)], st := w.st.(tenantMaps := maps));
      SyncResources(w, ChangeAfterRead(base, w, maps), e, [r]) == (Put(later, ConfigMap, to, HostResource(payload, ResourceLabels(e))), None)
  {
    var s := ChangeAfterRead(base, w, maps);
    ChangedOnce(base, w, maps);
    var from := Key(r.sourceNs, r.sourceName);
    var payload := w.st.tenantMaps[from];
    var w1 := w.(calls := w.calls + 1, seen := w.seen[(r.kind, from) := Some(payload)]);
    ChangingTick(w1, s, maps, w.st.tenantSecrets);
    var w2 := Tick(w1, s);
    CopyAcross(w, s, e, r, w1, w2, w2.(calls := w2.calls + 1), payload);
  }

  lemma MirrorKeepsLog(w: World, s: Script, k: Key, tk: Key)
    ensures MirrorStatus(w, s, k, tk).w.log == w.log
  {
  }

  /** The log after a running source is the log after its pod was ensured. */
  lemma LogOfRunningSource(p: Progress, s: Script, e: Engine, src: CorePod, w1: World)
    requires !IsTerminal(src) && SyncResources(p.w.(seen := map[]), s, e, RefsOf(src)) == (w1, None)
    ensures SyncPod(p, s, e, src).p.w.log == EnsureHostPod(w1, s, Wanted(e, src)).w.log
  {
    var r := EnsureHostPod(w1, s, Wanted(e, src));
    MirrorKeepsLog(r.w, s, HostKey(e, src), KeyOf(src));
  }

  lemma CreationIsLogged(w: World, s: Script, e: Engine, src: CorePod)
    requires s.fault.None? && HostKey(e, src) !in w.st.hostPods
    requires Tick(w, s) == w.(calls := w.calls + 1) && Tick(Tick(w, s), s) == w.(calls := w.calls + 2)
    ensures EnsureHostPod(w, s, Wanted(e, src)).w.log == w.log + [Creation(Stored(Wanted(e, src)), w.st, w.seen)]
  {
  }

  /**
   * Without steady data a created pod need not find the tenant's current data: any change of a
   * ConfigMap between the copy's read and the creation leaves the outdated payload on the host.
   */
  lemma ChangingDataCanBeOutdated(base: Script, p: Progress, e: Engine, src: CorePod, r: ResourceRef, newer: Payload)
    returns (s: Script, c: Creation)
    requires !IsTerminal(src) && HostKey(e, src) !in p.w.st.hostPods && RefsOf(src) == [r] && r.kind.ConfigMap?
    requires Key(src.ns, r.sourceName) in p.w.st.tenantMaps && p.w.st.tenantMaps[Key(src.ns, r.sourceName)] != newer
    ensures SyncPod(p, s, e, src).p.w.log == p.w.log + [c] && KeyOf(c.pod) == HostKey(e, src)
    ensures c.at.tenantMaps == p.w.st.tenantMaps[Key(src.ns, r.sourceName) := newer]
    ensures !InPlace(e, c.at, ConfigMap, src.ns, r.sourceName)
  {
    var w := p.w.(seen := map[]);
    var maps := w.st.tenantMaps[Key(src.ns, r.sourceName) := newer];
    s := ChangeAfterRead(base, w, maps);
    var w1 := OutdatedWorld(base, w, e, src, r, maps);
    c := Creation(Stored(Wanted(e, src)), w1.st, w1.seen);
    CreationIsLogged(w1, s, e, src);
    LogOfRunningSource(p, s, e, src, w1);
  }

  lemma OutdatedWorld(base: Script, w: World, e: Engine, src: CorePod, r: ResourceRef, maps: map<Key, Payload>)
    returns (w1: World)
    requires RefsOf(src) == [r] && r.kind.ConfigMap? && Key(src.ns, r.sourceName) in w.st.tenantMaps
    requires Key(src.ns, r.sourceName) in maps && maps[Key(src.ns, r.sourceName)] != w.st.tenantMaps[Key(src.ns, r.sourceName)]
    ensures var s := ChangeAfterRead(base, w, maps);
      && SyncResources(w, s, e, RefsOf(src)) == (w1, None)
      && Tick(w1, s) == w1.(calls := w1.calls + 1) && Tick(Tick(w1, s), s) == w1.(calls := w1.calls + 2)
    ensures w1.st.hostPods == w.st.hostPods && w1.log == w.log && w1.st.tenantMaps == maps
    ensures !InPlace(e, w1.st, ConfigMap, src.ns, r.sourceName)
  {
    RefsComeFromTheSource(src);
    assert r in RefsOf(src);
    ChangedOnce(base, w, maps);
    CopyOutdated(base, w, e, r, maps);
    var from, to := Key(src.ns, r.sourceName), Key(e.pool.ns, r.targetName);
    var payload := w.st.tenantMaps[from];
    var later := w.(calls := w.calls + 3, seen := w.seen[(r.kind, from) := Some(payload)], st := w.st.(tenantMaps := maps));
    w1 := Put(later, ConfigMap, to, HostResource(payload, ResourceLabels(e)));
    OutdatedCopy(later.st, e, src.ns, r.sourceName, payload);
  }

  lemma OutdatedCopy(st: Stores, e: Engine, ns: string, name: string, payload: Payload)
    requires Key(ns, name) in st.tenantMaps && st.tenantMaps[Key(ns, name)] != payload
    ensures var k := Key(e.pool.ns, ResourceName(ns, name));
      !InPlace(e, PutResource(st, ConfigMap, k, HostResource(payload, ResourceLabels(e))), ConfigMap, ns, name)
  {
  }
}
