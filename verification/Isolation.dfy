/**
 * Pools that share a host. Whatever other parties do to their own host objects, between any two calls
 * of a pass, the pool neither sees it nor answers to it.
 */
module Isolation {
  import opened Lists
  import opened PodModel
  import opened NodeModel
  import opened CorePods
  import opened Drift
  import opened Translation
  import opened Clusters
  import opened Execution
  import opened PassEffect
  import opened Walks
  import opened History

  // ---------- two worlds that look the same to one pool ----------

  /** The worlds agree on the cells in `K`, on the tenant side and on the call count. */
  ghost predicate Agree(K: iset<Key>, a: World, b: World) {
    AgreeStores(K, a.st, b.st) && a.calls == b.calls
  }

  ghost predicate AgreeStores(K: iset<Key>, a: Stores, b: Stores) {
    && (forall k :: k in K ==> At(a.hostPods, k) == At(b.hostPods, k))
    && a.tenantPods == b.tenantPods && a.tenantMaps == b.tenantMaps && a.tenantSecrets == b.tenantSecrets
  }

  ghost predicate AgreeFlow(K: iset<Key>, f: Flow, g: Flow) {
    && Agree(K, f.p.w, g.p.w) && f.p.desired == g.p.desired && f.p.c == g.p.c
    && f.Next? == g.Next? && (f.Stop? ==> f.how == g.how)
  }

  /** Every pod labelled for the pool in its namespace lives at one of the pool's keys. */
  ghost predicate AtHome(K: iset<Key>, e: Engine, w: World) {
    forall k :: k in w.st.hostPods && k.ns == e.pool.ns && HasPoolLabels(w.st.hostPods[k], e.pool.name) ==> k in K
  }

  // ---------- foreign steps ----------

  /** A step on a host pod that is there already. */
  predicate IsPodAction(a: EnvAction) {
    a.HostStatus? || a.HostEvicted? || a.HostRemoved?
  }

  /** A step on host objects that are not the pool's. */
  ghost predicate Foreign(K: iset<Key>, a: EnvAction) {
    (IsPodAction(a) && a.key !in K) || a.HostCreated? || a.HostWritten?
  }

  /** Others create pods at other keys than the pool's, and do not label them for the pool. */
  ghost predicate Polite(K: iset<Key>, e: Engine, a: EnvAction) {
    a.HostCreated? ==> a.key !in K && !(a.key.ns == e.pool.ns && HasPoolLabels(a.pod, e.pool.name))
  }

  /** The steps without the foreign ones. */
  ghost function Own(K: iset<Key>, actions: seq<EnvAction>): seq<EnvAction> {
    if actions == [] then []
    else
      var n := |actions| - 1;
      Own(K, actions[..n]) + (if Foreign(K, actions[n]) then [] else [actions[n]])
  }

  ghost predicate PoliteScript(K: iset<Key>, e: Engine, s: Script) {
    forall n: nat, i :: 0 <= i < |s.env(n)| ==> Polite(K, e, s.env(n)[i])
  }

  /** Two polite scripts that differ in foreign steps only. */
  ghost predicate SameOwn(K: iset<Key>, e: Engine, s: Script, t: Script) {
    && PoliteScript(K, e, s) && PoliteScript(K, e, t)
    && s.fault == t.fault && s.hostOrder == t.hostOrder && s.tenantOrder == t.tenantOrder
    && forall n: nat :: Own(K, s.env(n)) == Own(K, t.env(n))
  }

  /** A pod action is a function of the cell it names. */
  function CellAfter(a: EnvAction, cur: Option<CorePod>): Option<CorePod>
    requires IsPodAction(a)
  {
    if cur.None? then None
    else match a
      case HostStatus(_, status) => if IsTerminal(cur.value) then cur else Some(cur.value.(status := status))
      case HostEvicted(_) => Some(cur.value.(deleting := true))
      case HostRemoved(_) => if cur.value.deleting then None else cur
  }

  lemma PodActionIsLocal(st: Stores, a: EnvAction, k: Key)
    requires IsPodAction(a)
    ensures At(EnvStep(st, a).hostPods, k) == if k == a.key then CellAfter(a, At(st.hostPods, k)) else At(st.hostPods, k)
  {
    PodStepOnly(st, a);
  }

  lemma PodActionKeepsTenant(st: Stores, a: EnvAction)
    requires IsHostAction(a)
    ensures EnvStep(st, a).tenantPods == st.tenantPods
    ensures EnvStep(st, a).tenantMaps == st.tenantMaps && EnvStep(st, a).tenantSecrets == st.tenantSecrets
  {
  }

  /** A foreign step is invisible at the pool's keys. */
  lemma ForeignStepIsInvisible(K: iset<Key>, e: Engine, a: Stores, action: EnvAction)
    requires Foreign(K, action) && Polite(K, e, action)
    ensures AgreeStores(K, EnvStep(a, action), a)
  {
    PodActionKeepsTenant(a, action);
    if action.HostWritten? {
      WriteOnly(a, action);
    } else {
      forall k | k in K ensures At(EnvStep(a, action).hostPods, k) == At(a.hostPods, k) {
        PodStepOnly(a, action);
      }
    }
  }

  lemma OwnStepAgrees(K: iset<Key>, a: Stores, b: Stores, action: EnvAction)
    requires AgreeStores(K, a, b) && !Foreign(K, action)
    ensures AgreeStores(K, EnvStep(a, action), EnvStep(b, action))
  {
    if IsPodAction(action) {
      PodActionKeepsTenant(a, action);
      PodActionKeepsTenant(b, action);
      forall k | k in K ensures At(EnvStep(a, action).hostPods, k) == At(EnvStep(b, action).hostPods, k) {
        PodActionIsLocal(a, action, k);
        PodActionIsLocal(b, action, k);
      }
    } else {
      TenantStepKeepsHost(a, action);
      TenantStepKeepsHost(b, action);
    }
  }

  lemma AgreeTrans(K: iset<Key>, a: Stores, b: Stores, c: Stores)
    requires AgreeStores(K, a, b) && AgreeStores(K, b, c)
    ensures AgreeStores(K, a, c)
  {
  }

  lemma {:induction false} DropForeign(K: iset<Key>, e: Engine, a: Stores, b: Stores, actions: seq<EnvAction>)
    requires AgreeStores(K, a, b) && forall i :: 0 <= i < |actions| ==> Polite(K, e, actions[i])
    ensures AgreeStores(K, EnvSteps(a, actions), EnvSteps(b, Own(K, actions)))
    decreases |actions|
  {
    if actions != [] {
      var n := |actions| - 1;
      var x, ys := EnvSteps(a, actions[..n]), Own(K, actions[..n]);
      DropForeign(K, e, a, b, actions[..n]);
      assert Polite(K, e, actions[n]);
      if Foreign(K, actions[n]) {
        ForeignStepIsInvisible(K, e, x, actions[n]);
        AgreeTrans(K, EnvStep(x, actions[n]), x, EnvSteps(b, ys));
        assert Own(K, actions) == ys;
      } else {
        OwnStepAgrees(K, x, EnvSteps(b, ys), actions[n]);
        assert (ys + [actions[n]])[..|ys|] == ys;
      }
    }
  }

  lemma TickAgrees(K: iset<Key>, e: Engine, a: World, b: World, s: Script, t: Script)
    requires Agree(K, a, b) && SameOwn(K, e, s, t)
    ensures Agree(K, Tick(a, s), Tick(b, t)) && Fails(a, s) == Fails(b, t)
  {
    var n := a.calls;
    DropForeign(K, e, a.st, b.st, s.env(n));
    DropForeign(K, e, b.st, b.st, t.env(n));
    var own := EnvSteps(b.st, Own(K, s.env(n)));
    assert AgreeStores(K, own, EnvSteps(b.st, t.env(n)));
    AgreeTrans(K, EnvSteps(a.st, s.env(n)), own, EnvSteps(b.st, t.env(n)));
  }

  // ---------- agreement of the loops ----------

  lemma SameSeen(K: iset<Key>, a: World, b: World, c: World, d: World)
    requires Agree(K, a, b) && c.st == a.st && d.st == b.st && c.calls == a.calls && d.calls == b.calls
    ensures Agree(K, c, d)
  {
  }

  lemma {:induction false} ResourcesAgree(K: iset<Key>, a: World, b: World, s: Script, t: Script, e: Engine, refs: seq<ResourceRef>)
    requires Agree(K, a, b) && SameOwn(K, e, s, t)
    ensures var (x, f) := SyncResources(a, s, e, refs); var (y, g) := SyncResources(b, t, e, refs); Agree(K, x, y) && f == g
    decreases |refs|
  {
    if refs != [] {
      var r := refs[0];
      var from, to := Key(r.sourceNs, r.sourceName), Key(e.pool.ns, r.targetName);
      var (a1, reply) := GetTenantResource(a, s, r.kind, from);
      var b1 := GetTenantResource(b, t, r.kind, from).0;
      TickAgrees(K, e, a, b, s, t);
      SameSeen(K, Tick(a, s), Tick(b, t), a1, b1);
      match reply
      case Err(_) =>
      case NotFound => ResourcesAgree(K, a1, b1, s, t, e, refs[1..]);
      case Got(payload) =>
        var (a2, failure) := EnsureResource(a1, s, r.kind, to, HostResource(payload, ResourceLabels(e)));
        var b2 := EnsureResource(b1, t, r.kind, to, HostResource(payload, ResourceLabels(e))).0;
        EnsureResourceAgrees(K, e, a1, b1, s, t, r.kind, to, HostResource(payload, ResourceLabels(e)));
        if failure.None? { ResourcesAgree(K, a2, b2, s, t, e, refs[1..]); }
    }
  }

  lemma EnsureResourceAgrees(K: iset<Key>, e: Engine, a: World, b: World, s: Script, t: Script, kind: VolumeType, k: Key, r: HostResource)
    requires Agree(K, a, b) && SameOwn(K, e, s, t)
    ensures var (x, f) := EnsureResource(a, s, kind, k, r); var (y, g) := EnsureResource(b, t, kind, k, r); Agree(K, x, y) && f == g
  {
    TickAgrees(K, e, a, b, s, t);
    TickAgrees(K, e, Tick(a, s), Tick(b, t), s, t);
  }

  lemma MarkAgrees(K: iset<Key>, a: World, b: World, k: Key)
    requires Agree(K, a, b) && k in K
    ensures Agree(K, Marked(a, k), Marked(b, k))
  {
  }

  lemma CreateAgrees(K: iset<Key>, a: World, b: World, spec: PodSpec)
    requires Agree(K, a, b)
    ensures Agree(K, Create(a, spec), Create(b, spec))
  {
  }

  lemma CreatePodAgrees(K: iset<Key>, e: Engine, a: World, b: World, s: Script, t: Script, spec: PodSpec)
    requires Agree(K, a, b) && SameOwn(K, e, s, t) && Key(spec.ns, spec.name) in K
    ensures Agree(K, CreatePod(a, s, spec).0, CreatePod(b, t, spec).0) && CreatePod(a, s, spec).1 == CreatePod(b, t, spec).1
  {
    var k := Key(spec.ns, spec.name);
    TickAgrees(K, e, a, b, s, t);
    assert At(Tick(a, s).st.hostPods, k) == At(Tick(b, t).st.hostPods, k);
    CreateAgrees(K, Tick(a, s), Tick(b, t), spec);
  }

  lemma DeletePodAgrees(K: iset<Key>, e: Engine, a: World, b: World, s: Script, t: Script, k: Key)
    requires Agree(K, a, b) && SameOwn(K, e, s, t) && k in K
    ensures Agree(K, DeletePod(a, s, k).0, DeletePod(b, t, k).0) && DeletePod(a, s, k).1 == DeletePod(b, t, k).1
  {
    TickAgrees(K, e, a, b, s, t);
    MarkAgrees(K, Tick(a, s), Tick(b, t), k);
  }

  ghost predicate AgreeEnsured(K: iset<Key>, x: Ensured, y: Ensured) {
    Agree(K, x.w, y.w) && x.created == y.created && x.deleted == y.deleted && x.verdict == y.verdict
  }

  lemma EnsureAbsentAgrees(K: iset<Key>, e: Engine, a: World, b: World, s: Script, t: Script, spec: PodSpec)
    requires Agree(K, a, b) && SameOwn(K, e, s, t) && Key(spec.ns, spec.name) in K
    requires Key(spec.ns, spec.name) !in Tick(a, s).st.hostPods
    ensures AgreeEnsured(K, EnsureHostPod(a, s, spec), EnsureHostPod(b, t, spec))
  {
    var a1, b1, k := Tick(a, s), Tick(b, t), Key(spec.ns, spec.name);
    TickAgrees(K, e, a, b, s, t);
    assert At(a1.st.hostPods, k) == At(b1.st.hostPods, k);
    CreatePodAgrees(K, e, a1, b1, s, t, spec);
  }

  /** What becomes of a host pod that was found. */
  function Found(w: World, s: Script, spec: PodSpec, current: CorePod): Ensured {
    if current.deleting then Ensured(w, false, false, PodTerminating)
    else if PodSpecsEqual(FromCore(current), spec) then Ensured(w, false, false, Fine)
    else
      var (w1, failure) := DeletePod(w, s, Key(spec.ns, spec.name));
      if failure.Some? then Ensured(w1, false, false, ApiError(failure.value)) else Ensured(w1, false, true, PodTerminating)
  }

  lemma EnsureIsFound(w: World, s: Script, spec: PodSpec)
    requires Key(spec.ns, spec.name) in Tick(w, s).st.hostPods
    ensures EnsureHostPod(w, s, spec) ==
      if Fails(w, s).Some? then Ensured(Tick(w, s), false, false, ApiError(Fails(w, s).value))
      else Found(Tick(w, s), s, spec, Tick(w, s).st.hostPods[Key(spec.ns, spec.name)])
  {
  }

  lemma FoundAgrees(K: iset<Key>, e: Engine, a: World, b: World, s: Script, t: Script, spec: PodSpec, current: CorePod)
    requires Agree(K, a, b) && SameOwn(K, e, s, t) && Key(spec.ns, spec.name) in K
    ensures AgreeEnsured(K, Found(a, s, spec, current), Found(b, t, spec, current))
  {
    DeletePodAgrees(K, e, a, b, s, t, Key(spec.ns, spec.name));
  }

  lemma EnsurePresentAgrees(K: iset<Key>, e: Engine, a: World, b: World, s: Script, t: Script, spec: PodSpec)
    requires Agree(K, a, b) && SameOwn(K, e, s, t) && Key(spec.ns, spec.name) in K
    requires Key(spec.ns, spec.name) in Tick(a, s).st.hostPods
    ensures AgreeEnsured(K, EnsureHostPod(a, s, spec), EnsureHostPod(b, t, spec))
  {
    var a1, b1, k := Tick(a, s), Tick(b, t), Key(spec.ns, spec.name);
    TickAgrees(K, e, a, b, s, t);
    assert At(a1.st.hostPods, k) == At(b1.st.hostPods, k);
    EnsureIsFound(a, s, spec);
    EnsureIsFound(b, t, spec);
    FoundAgrees(K, e, a1, b1, s, t, spec, a1.st.hostPods[k]);
  }

  lemma EnsureAgrees(K: iset<Key>, e: Engine, a: World, b: World, s: Script, t: Script, spec: PodSpec)
    requires Agree(K, a, b) && SameOwn(K, e, s, t) && Key(spec.ns, spec.name) in K
    ensures AgreeEnsured(K, EnsureHostPod(a, s, spec), EnsureHostPod(b, t, spec))
  {
    if Key(spec.ns, spec.name) in Tick(a, s).st.hostPods {
      EnsurePresentAgrees(K, e, a, b, s, t, spec);
    } else {
      EnsureAbsentAgrees(K, e, a, b, s, t, spec);
    }
  }

  lemma MirrorAgrees(K: iset<Key>, e: Engine, a: World, b: World, s: Script, t: Script, k: Key, tk: Key)
    requires Agree(K, a, b) && SameOwn(K, e, s, t) && k in K
    ensures var x, y := MirrorStatus(a, s, k, tk), MirrorStatus(b, t, k, tk);
      Agree(K, x.w, y.w) && x.synced == y.synced && x.failure == y.failure
  {
    TickAgrees(K, e, a, b, s, t);
    var a1, b1 := Tick(a, s), Tick(b, t);
    TickAgrees(K, e, a1, b1, s, t);
    var a2, b2 := Tick(a1, s), Tick(b1, t);
    TickAgrees(K, e, a2, b2, s, t);
    assert At(a1.st.hostPods, k) == At(b1.st.hostPods, k);
    var a3, b3 := Tick(a2, s), Tick(b2, t);
    if k in a1.st.hostPods && tk in a3.st.tenantPods {
      assert Agree(K, WrittenBack(a1, a3, k, tk), WrittenBack(b1, b3, k, tk));
    }
  }

  lemma ReapAgrees(K: iset<Key>, e: Engine, p: Progress, q: Progress, s: Script, t: Script, k: Key)
    requires AgreeFlow(K, Next(p), Next(q)) && SameOwn(K, e, s, t) && k in K
    ensures AgreeFlow(K, Reap(p, s, k), Reap(q, t, k))
  {
    TickAgrees(K, e, p.w, q.w, s, t);
    MarkAgrees(K, Tick(p.w, s), Tick(q.w, t), k);
  }

  lemma MirrorAndReapAgrees(K: iset<Key>, p: Progress, q: Progress, s: Script, t: Script, e: Engine, src: CorePod)
    requires AgreeFlow(K, Next(p), Next(q)) && SameOwn(K, e, s, t) && HostKey(e, src) in K
    ensures AgreeFlow(K, MirrorAndReap(p, s, e, src), MirrorAndReap(q, t, e, src))
  {
    var k := HostKey(e, src);
    MirrorAgrees(K, e, p.w, q.w, s, t, k, KeyOf(src));
    var m, n := MirrorStatus(p.w, s, k, KeyOf(src)), MirrorStatus(q.w, t, k, KeyOf(src));
    var c := if m.synced then p.c.(synced := p.c.synced + 1) else p.c;
    if m.failure.None? && IsTerminal(src) {
      ReapAgrees(K, e, p.(w := m.w, c := c), q.(w := n.w, c := c), s, t, k);
    }
    MirroredFlowsAgree(K, p, q, s, t, e, src, m, n);
  }

  lemma MirroredFlowsAgree(
    K: iset<Key>, p: Progress, q: Progress, s: Script, t: Script, e: Engine, src: CorePod, m: Mirrored, n: Mirrored)
    requires m == MirrorStatus(p.w, s, HostKey(e, src), KeyOf(src)) && n == MirrorStatus(q.w, t, HostKey(e, src), KeyOf(src))
    requires Agree(K, m.w, n.w) && m.synced == n.synced && m.failure == n.failure && p.desired == q.desired && p.c == q.c
    requires var c := if m.synced then p.c.(synced := p.c.synced + 1) else p.c;
      m.failure.None? && IsTerminal(src) ==>
        AgreeFlow(K, Reap(p.(w := m.w, c := c), s, HostKey(e, src)), Reap(q.(w := n.w, c := c), t, HostKey(e, src)))
    ensures AgreeFlow(K, MirrorAndReap(p, s, e, src), MirrorAndReap(q, t, e, src))
  {
  }

  lemma EnsureAndMirrorAgrees(K: iset<Key>, p: Progress, q: Progress, s: Script, t: Script, e: Engine, src: CorePod)
    requires AgreeFlow(K, Next(p), Next(q)) && SameOwn(K, e, s, t) && HostKey(e, src) in K
    ensures AgreeFlow(K, EnsureAndMirror(p, s, e, src), EnsureAndMirror(q, t, e, src))
  {
    EnsureAgrees(K, e, p.w, q.w, s, t, Wanted(e, src));
    var x, y := EnsureHostPod(p.w, s, Wanted(e, src)), EnsureHostPod(q.w, t, Wanted(e, src));
    if x.verdict.Fine? {
      var c := Counted(p.c, x.created, x.deleted);
      MirrorAndReapAgrees(K, p.(w := x.w, c := c), q.(w := y.w, c := c), s, t, e, src);
    }
  }

  lemma SyncPodAgrees(K: iset<Key>, p: Progress, q: Progress, s: Script, t: Script, e: Engine, src: CorePod)
    requires AgreeFlow(K, Next(p), Next(q)) && SameOwn(K, e, s, t) && HostKey(e, src) in K
    ensures AgreeFlow(K, SyncPod(p, s, e, src), SyncPod(q, t, e, src))
  {
    var d := p.desired + {KeyForPod(HostKey(e, src))};
    SameSeen(K, p.w, q.w, Fresh(p.w), Fresh(q.w));
    ResourcesAgree(K, Fresh(p.w), Fresh(q.w), s, t, e, RefsOf(src));
    var (a1, failure) := SyncResources(Fresh(p.w), s, e, RefsOf(src));
    var b1 := SyncResources(Fresh(q.w), t, e, RefsOf(src)).0;
    if failure.None? {
      if IsTerminal(src) {
        MirrorAndReapAgrees(K, p.(w := a1, desired := d), q.(w := b1, desired := d), s, t, e, src);
      } else {
        EnsureAndMirrorAgrees(K, p.(w := a1, desired := d), q.(w := b1, desired := d), s, t, e, src);
      }
    }
  }

  ghost predicate KeysIn(K: iset<Key>, e: Engine, srcs: seq<CorePod>) {
    forall src :: src in srcs ==> HostKey(e, src) in K
  }

  lemma {:induction false} SyncPodsAgree(K: iset<Key>, p: Progress, q: Progress, s: Script, t: Script, e: Engine, srcs: seq<CorePod>)
    requires AgreeFlow(K, Next(p), Next(q)) && SameOwn(K, e, s, t) && KeysIn(K, e, srcs)
    ensures AgreeFlow(K, SyncPods(p, s, e, srcs), SyncPods(q, t, e, srcs))
    decreases |srcs|
  {
    if srcs != [] {
      SyncPodAgrees(K, p, q, s, t, e, srcs[0]);
      var f, g := SyncPod(p, s, e, srcs[0]), SyncPod(q, t, e, srcs[0]);
      if f.Next? { SyncPodsAgree(K, f.p, g.p, s, t, e, srcs[1..]); }
    }
  }

  lemma {:induction false} SweepAgrees(K: iset<Key>, e: Engine, p: Progress, q: Progress, s: Script, t: Script, keys: seq<Key>)
    requires AgreeFlow(K, Next(p), Next(q)) && SameOwn(K, e, s, t) && forall k :: k in keys ==> k in K
    ensures AgreeFlow(K, Sweep(p, s, keys), Sweep(q, t, keys))
    decreases |keys|
  {
    if keys != [] {
      if KeyForPod(keys[0]) in p.desired {
        SweepAgrees(K, e, p, q, s, t, keys[1..]);
      } else {
        ReapAgrees(K, e, p, q, s, t, keys[0]);
        var f, g := Reap(p, s, keys[0]), Reap(q, t, keys[0]);
        if f.Next? { SweepAgrees(K, e, f.p, g.p, s, t, keys[1..]); }
      }
    }
  }

  lemma LabelledAgrees(K: iset<Key>, a: World, b: World, e: Engine)
    requires Agree(K, a, b) && AtHome(K, e, a) && AtHome(K, e, b) && e.pool.ns != ""
    ensures Labelled(a.st, e.pool.ns, e.pool.name) == Labelled(b.st, e.pool.ns, e.pool.name)
    ensures forall k :: k in Labelled(a.st, e.pool.ns, e.pool.name) ==> k in K
  {
    forall k ensures k in Labelled(a.st, e.pool.ns, e.pool.name) <==> k in Labelled(b.st, e.pool.ns, e.pool.name) {
      if k in K {
        assert At(a.st.hostPods, k) == At(b.st.hostPods, k);
      }
    }
  }

  lemma SweepListedAgrees(K: iset<Key>, p: Progress, q: Progress, s: Script, t: Script, e: Engine)
    requires AgreeFlow(K, Next(p), Next(q)) && SameOwn(K, e, s, t) && Orderly(s) && e.pool.ns != ""
    requires AtHome(K, e, p.w) && AtHome(K, e, q.w)
    ensures AgreeFlow(K, SweepListed(p, s, e), SweepListed(q, t, e))
  {
    TickAgrees(K, e, p.w, q.w, s, t);
    var a1, b1 := Tick(p.w, s), Tick(q.w, t);
    TickStaysHome(K, e, p.w, s);
    TickStaysHome(K, e, q.w, t);
    LabelledAgrees(K, a1, b1, e);
    var listed := Labelled(a1.st, e.pool.ns, e.pool.name);
    assert Enumerates(s.hostOrder(listed), listed);
    SweepAgrees(K, e, p.(w := a1), q.(w := b1), s, t, s.hostOrder(listed));
  }

  /** Whatever pods run on these nodes, their host keys belong to the pool. */
  ghost predicate NodesIn(K: iset<Key>, e: Engine, nodes: seq<VNode>) {
    forall n, ns, name :: n in nodes ==> Key(e.pool.ns, HostName(n.name, ns, name)) in K
  }

  lemma SourcesIn(K: iset<Key>, e: Engine, st: Stores, s: Script, nodes: seq<VNode>)
    requires NodesIn(K, e, nodes)
    ensures KeysIn(K, e, Sources(st, s, ReadyNames(nodes)))
  {
  }

  // ---------- the pool's labels stay at home ----------

  ghost function StaysHome(K: iset<Key>, e: Engine): Relation {
    (a: World, b: World) => AtHome(K, e, a) ==> AtHome(K, e, b)
  }

  lemma PoliteStepStaysHome(K: iset<Key>, e: Engine, w: World, a: EnvAction)
    requires Polite(K, e, a)
    ensures StaysHome(K, e)(w, Acted(w, a))
  {
  }

  lemma HomeBackground(K: iset<Key>, e: Engine, s: Script)
    requires PoliteScript(K, e, s)
    ensures Background(StaysHome(K, e), s)
  {
    LooksAtPods(StaysHome(K, e));
    forall w: World ensures StaysHome(K, e)(w, Tick(w, s)) {
      forall i, v: World | 0 <= i < |s.env(w.calls)| ensures StaysHome(K, e)(v, Acted(v, s.env(w.calls)[i])) {
        PoliteStepStaysHome(K, e, v, s.env(w.calls)[i]);
      }
      TickWalk(StaysHome(K, e), w, s);
    }
  }

  lemma TickStaysHome(K: iset<Key>, e: Engine, w: World, s: Script)
    requires PoliteScript(K, e, s) && AtHome(K, e, w)
    ensures AtHome(K, e, Tick(w, s))
  {
    HomeBackground(K, e, s);
    assert StaysHome(K, e)(w, Tick(w, s));
  }

  lemma MarkStaysHome(K: iset<Key>, e: Engine, w: World, k: Key)
    ensures StaysHome(K, e)(w, Marked(w, k))
  {
  }

  lemma CreateStaysHome(K: iset<Key>, e: Engine, w: World, spec: PodSpec)
    requires Key(spec.ns, spec.name) in K
    ensures StaysHome(K, e)(w, Create(w, spec))
  {
  }

  lemma SourceStaysHome(K: iset<Key>, e: Engine, s: Script, src: CorePod)
    requires PoliteScript(K, e, s) && HostKey(e, src) in K
    ensures RespectsSource(StaysHome(K, e), s, e, src)
  {
    var r, k, spec := StaysHome(K, e), HostKey(e, src), Wanted(e, src);
    HomeBackground(K, e, s);
    forall w: World | k !in w.st.hostPods ensures r(w, Create(w, spec)) {
      CreateStaysHome(K, e, w, spec);
    }
    forall w: World ensures r(w, Marked(w, k)) {
      MarkStaysHome(K, e, w, k);
    }
    RespectedByLaws(r, s, e, src);
  }

  lemma SyncPodsStayHome(K: iset<Key>, p: Progress, s: Script, e: Engine, srcs: seq<CorePod>)
    requires PoliteScript(K, e, s) && KeysIn(K, e, srcs) && AtHome(K, e, p.w)
    ensures AtHome(K, e, SyncPods(p, s, e, srcs).p.w)
  {
    HomeBackground(K, e, s);
    forall i | 0 <= i < |srcs| ensures RespectsSource(StaysHome(K, e), s, e, srcs[i]) {
      SourceStaysHome(K, e, s, srcs[i]);
    }
    SyncPodsWalk(StaysHome(K, e), p, s, e, srcs);
  }

  lemma SweepListedStaysHome(K: iset<Key>, p: Progress, s: Script, e: Engine)
    requires PoliteScript(K, e, s) && AtHome(K, e, p.w)
    ensures AtHome(K, e, SweepListed(p, s, e).p.w)
  {
    HomeBackground(K, e, s);
    TickStaysHome(K, e, p.w, s);
    var w1 := Tick(p.w, s);
    var keys := s.hostOrder(Labelled(w1.st, e.pool.ns, e.pool.name));
    forall i | 0 <= i < |keys| ensures RespectsDelete(StaysHome(K, e), s, keys[i]) {
      forall w: World ensures StaysHome(K, e)(w, Marked(w, keys[i])) {
        MarkStaysHome(K, e, w, keys[i]);
      }
      DeleteByLaws(StaysHome(K, e), s, keys[i]);
    }
    SweepWalk(StaysHome(K, e), p.(w := w1), s, keys);
  }

  // ---------- whole passes ----------

  lemma SyncAndSweepAgrees(K: iset<Key>, a: World, b: World, s: Script, t: Script, e: Engine, srcs: seq<CorePod>)
    requires Agree(K, a, b) && SameOwn(K, e, s, t) && Orderly(s) && e.pool.ns != "" && KeysIn(K, e, srcs)
    requires AtHome(K, e, a) && AtHome(K, e, b)
    ensures AgreeFlow(K, SyncAndSweep(a, s, e, srcs), SyncAndSweep(b, t, e, srcs))
    ensures AtHome(K, e, SyncAndSweep(a, s, e, srcs).p.w) && AtHome(K, e, SyncAndSweep(b, t, e, srcs).p.w)
  {
    var p, q := Progress(a, {}, NoCounts.(sourcePods := |srcs|)), Progress(b, {}, NoCounts.(sourcePods := |srcs|));
    SyncPodsAgree(K, p, q, s, t, e, srcs);
    SyncPodsStayHome(K, p, s, e, srcs);
    SyncPodsStayHome(K, q, t, e, srcs);
    var f, g := SyncPods(p, s, e, srcs), SyncPods(q, t, e, srcs);
    if f.Next? {
      SweepListedAgrees(K, f.p, g.p, s, t, e);
      SweepListedStaysHome(K, f.p, s, e);
      SweepListedStaysHome(K, g.p, t, e);
    }
  }

  lemma ThreeTicksHome(K: iset<Key>, w: World, s: Script, e: Engine)
    requires PoliteScript(K, e, s) && AtHome(K, e, w)
    ensures var w1 := Tick(w, s); var w2 := Tick(w1, s);
      AtHome(K, e, w1) && AtHome(K, e, w2) && AtHome(K, e, Tick(w2, s))
  {
    TickStaysHome(K, e, w, s);
    TickStaysHome(K, e, Tick(w, s), s);
    TickStaysHome(K, e, Tick(Tick(w, s), s), s);
  }

  /**
   * A pass has the same outcome, the same counters, the same desired set and the same cells at the pool's
   * keys, whatever foreign steps are interleaved between its calls and whatever else the host holds.
   */
  lemma PassAgrees(K: iset<Key>, a: World, b: World, s: Script, t: Script, e: Engine, nodes: seq<VNode>)
    requires Agree(K, a, b) && SameOwn(K, e, s, t) && Orderly(s) && e.pool.ns != "" && NodesIn(K, e, nodes)
    requires AtHome(K, e, a) && AtHome(K, e, b)
    ensures AgreeFlow(K, Pass(a, s, e, nodes), Pass(b, t, e, nodes))
    ensures AtHome(K, e, Pass(a, s, e, nodes).p.w) && AtHome(K, e, Pass(b, t, e, nodes).p.w)
  {
    var a1, b1 := Tick(a, s), Tick(b, t);
    var a2, b2 := Tick(a1, s), Tick(b1, t);
    var a3, b3 := Tick(a2, s), Tick(b2, t);
    TickAgrees(K, e, a, b, s, t);
    TickAgrees(K, e, a1, b1, s, t);
    TickAgrees(K, e, a2, b2, s, t);
    ThreeTicksHome(K, a, s, e);
    ThreeTicksHome(K, b, t, e);
    SourcesIn(K, e, a3.st, s, nodes);
    SyncAndSweepAgrees(K, a2, b2, s, t, e, []);
    SyncAndSweepAgrees(K, a3, b3, s, t, e, Sources(a3.st, s, ReadyNames(nodes)));
  }

  // ---------- runs of one pool among others ----------

  /** A pass or a cleanup of the pool, surrounded by a script, or a step of the outside world between passes. */
  datatype Act = PassAct(nodes: seq<VNode>, s: Script) | CleanupAct(s: Script) | OutsideAct(a: EnvAction)

  /** What a pass tells its caller. */
  datatype Report = Report(c: Counters, completed: bool)

  datatype Trace = Trace(w: World, reports: seq<Report>)

  function Reported(x: Trace, f: Flow): Trace {
    Trace(f.p.w, x.reports + [Report(f.p.c, f.Next?)])
  }

  function Perform(e: Engine, x: Trace, act: Act): Trace {
    match act
    case PassAct(nodes, s) => Reported(x, Pass(x.w, s, e, nodes))
    case CleanupAct(s) => Reported(x, Cleanup(x.w, s, e))
    case OutsideAct(a) => x.(w := Acted(x.w, a))
  }

  function PerformAll(e: Engine, x: Trace, acts: seq<Act>): Trace
    decreases |acts|
  {
    if acts == [] then x else PerformAll(e, Perform(e, x, acts[0]), acts[1..])
  }

  ghost predicate PoliteAct(K: iset<Key>, e: Engine, act: Act) {
    match act
    case PassAct(nodes, s) => NodesIn(K, e, nodes) && PoliteScript(K, e, s) && Orderly(s)
    case CleanupAct(s) => PoliteScript(K, e, s) && Orderly(s)
    case OutsideAct(a) => Polite(K, e, a)
  }

  /** The script without foreign steps. */
  ghost function OwnScript(K: iset<Key>, s: Script): Script {
    s.(env := (n: nat) => Own(K, s.env(n)))
  }

  /** The run without foreign steps, neither between passes nor within them. */
  ghost function Alone(K: iset<Key>, acts: seq<Act>): seq<Act>
    decreases |acts|
  {
    if acts == [] then []
    else
      var rest := Alone(K, acts[1..]);
      match acts[0]
      case PassAct(nodes, s) => [PassAct(nodes, OwnScript(K, s))] + rest
      case CleanupAct(s) => [CleanupAct(OwnScript(K, s))] + rest
      case OutsideAct(a) => if Foreign(K, a) then rest else [OutsideAct(a)] + rest
  }

  lemma {:induction false} OwnTwice(K: iset<Key>, e: Engine, actions: seq<EnvAction>)
    requires forall i :: 0 <= i < |actions| ==> Polite(K, e, actions[i])
    ensures Own(K, Own(K, actions)) == Own(K, actions)
    ensures forall i :: 0 <= i < |Own(K, actions)| ==> Polite(K, e, Own(K, actions)[i])
    decreases |actions|
  {
    if actions != [] {
      var n := |actions| - 1;
      OwnTwice(K, e, actions[..n]);
      if !Foreign(K, actions[n]) {
        OwnSnoc(K, Own(K, actions[..n]), actions[n]);
      }
      assert Own(K, actions[..n]) + [] == Own(K, actions[..n]);
    }
  }

  lemma OwnSnoc(K: iset<Key>, actions: seq<EnvAction>, a: EnvAction)
    requires !Foreign(K, a)
    ensures Own(K, actions + [a]) == Own(K, actions) + [a]
  {
    assert (actions + [a])[..|actions|] == actions;
  }

  lemma OwnScriptIsSame(K: iset<Key>, e: Engine, s: Script)
    requires PoliteScript(K, e, s)
    ensures SameOwn(K, e, s, OwnScript(K, s))
  {
    var t := OwnScript(K, s);
    forall n: nat
      ensures Own(K, s.env(n)) == Own(K, t.env(n)) && forall i :: 0 <= i < |t.env(n)| ==> Polite(K, e, t.env(n)[i])
    {
      OwnTwice(K, e, s.env(n));
    }
  }

  ghost predicate SameSlice(K: iset<Key>, e: Engine, x: Trace, y: Trace) {
    Agree(K, x.w, y.w) && AtHome(K, e, x.w) && AtHome(K, e, y.w) && x.reports == y.reports
  }

  lemma PassKeepsSlice(K: iset<Key>, e: Engine, x: Trace, y: Trace, nodes: seq<VNode>, s: Script)
    requires SameSlice(K, e, x, y) && PoliteAct(K, e, PassAct(nodes, s)) && e.pool.ns != ""
    ensures SameSlice(K, e, Perform(e, x, PassAct(nodes, s)), Perform(e, y, PassAct(nodes, OwnScript(K, s))))
  {
    OwnScriptIsSame(K, e, s);
    PassAgrees(K, x.w, y.w, s, OwnScript(K, s), e, nodes);
  }

  lemma CleanupKeepsSlice(K: iset<Key>, e: Engine, x: Trace, y: Trace, s: Script)
    requires SameSlice(K, e, x, y) && PoliteAct(K, e, CleanupAct(s)) && e.pool.ns != ""
    ensures SameSlice(K, e, Perform(e, x, CleanupAct(s)), Perform(e, y, CleanupAct(OwnScript(K, s))))
  {
    OwnScriptIsSame(K, e, s);
    var t := OwnScript(K, s);
    SweepListedAgrees(K, Progress(x.w, {}, NoCounts), Progress(y.w, {}, NoCounts), s, t, e);
    SweepListedStaysHome(K, Progress(x.w, {}, NoCounts), s, e);
    SweepListedStaysHome(K, Progress(y.w, {}, NoCounts), t, e);
  }

  lemma OutsideKeepsSlice(K: iset<Key>, e: Engine, x: Trace, y: Trace, a: EnvAction)
    requires SameSlice(K, e, x, y) && Polite(K, e, a)
    ensures SameSlice(K, e, Perform(e, x, OutsideAct(a)), if Foreign(K, a) then y else Perform(e, y, OutsideAct(a)))
  {
    PoliteStepStaysHome(K, e, x.w, a);
    PoliteStepStaysHome(K, e, y.w, a);
    if Foreign(K, a) {
      ForeignStepIsInvisible(K, e, x.w.st, a);
      AgreeTrans(K, EnvStep(x.w.st, a), x.w.st, y.w.st);
    } else {
      OwnStepAgrees(K, x.w.st, y.w.st, a);
    }
  }

  lemma {:induction false} SlicesStaySame(K: iset<Key>, e: Engine, x: Trace, y: Trace, acts: seq<Act>)
    requires SameSlice(K, e, x, y) && e.pool.ns != "" && forall i :: 0 <= i < |acts| ==> PoliteAct(K, e, acts[i])
    ensures SameSlice(K, e, PerformAll(e, x, acts), PerformAll(e, y, Alone(K, acts)))
    decreases |acts|
  {
    if acts != [] {
      var rest := Alone(K, acts[1..]);
      assert PoliteAct(K, e, acts[0]);
      assert forall i :: 0 <= i < |acts[1..]| ==> acts[1..][i] == acts[i + 1];
      var x', first := Perform(e, x, acts[0]), OneAlone(K, acts[0]);
      var y' := PerformAll(e, y, first);
      FirstKeepsSlice(K, e, x, y, acts[0]);
      SlicesStaySame(K, e, x', y', acts[1..]);
      PerformConcat(e, y, first, rest);
      assert Alone(K, acts) == first + rest;
    }
  }

  ghost function OneAlone(K: iset<Key>, act: Act): seq<Act> {
    match act
    case PassAct(nodes, s) => [PassAct(nodes, OwnScript(K, s))]
    case CleanupAct(s) => [CleanupAct(OwnScript(K, s))]
    case OutsideAct(a) => if Foreign(K, a) then [] else [OutsideAct(a)]
  }

  lemma PerformOne(e: Engine, x: Trace, act: Act)
    ensures PerformAll(e, x, [act]) == Perform(e, x, act)
  {
    assert [act][1..] == [];
    assert PerformAll(e, Perform(e, x, act), []) == Perform(e, x, act);
  }

  lemma FirstKeepsSlice(K: iset<Key>, e: Engine, x: Trace, y: Trace, act: Act)
    requires SameSlice(K, e, x, y) && PoliteAct(K, e, act) && e.pool.ns != ""
    ensures SameSlice(K, e, Perform(e, x, act), PerformAll(e, y, OneAlone(K, act)))
  {
    match act
    case PassAct(nodes, s) =>
      PassKeepsSlice(K, e, x, y, nodes, s);
      PerformOne(e, y, PassAct(nodes, OwnScript(K, s)));
    case CleanupAct(s) =>
      CleanupKeepsSlice(K, e, x, y, s);
      PerformOne(e, y, CleanupAct(OwnScript(K, s)));
    case OutsideAct(a) =>
      OutsideKeepsSlice(K, e, x, y, a);
      PerformOne(e, y, OutsideAct(a));
  }

  lemma {:induction false} PerformConcat(e: Engine, x: Trace, acts: seq<Act>, more: seq<Act>)
    ensures PerformAll(e, x, acts + more) == PerformAll(e, PerformAll(e, x, acts), more)
    decreases |acts|
  {
    if acts == [] {
      assert acts + more == more;
    } else {
      assert (acts + more)[1..] == acts[1..] + more;
      PerformConcat(e, Perform(e, x, acts[0]), acts[1..], more);
    }
  }

  /**
   * Non-interference. Over every run of a pool, with any foreign steps between its passes and between the
   * calls of each pass, the pool's host pods, its tenant and every report of its passes are
   * exactly what they would be had no foreign step ever happened.
   */
  lemma PoolsDoNotInterfere(K: iset<Key>, e: Engine, w: World, acts: seq<Act>)
    requires AtHome(K, e, w) && e.pool.ns != "" && forall i :: 0 <= i < |acts| ==> PoliteAct(K, e, acts[i])
    ensures var x, y := PerformAll(e, Trace(w, []), acts), PerformAll(e, Trace(w, []), Alone(K, acts));
      Agree(K, x.w, y.w) && x.reports == y.reports
  {
    SlicesStaySame(K, e, Trace(w, []), Trace(w, []), acts);
  }
}
