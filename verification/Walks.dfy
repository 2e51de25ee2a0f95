/**
 * A proof principle for passes. A relation between worlds that is a preorder and that every single
 * call respects, with whatever the outside world does before it, is respected by the whole pass,
 * however the pass ends. A milestone that one source or one key reaches is kept to the end.
 */
module Walks {
  import opened PodModel
  import opened NodeModel
  import opened CorePods
  import opened Translation
  import opened Drift
  import opened Clusters
  import opened Execution
  import opened PassEffect

  type Relation = (World, World) -> bool

  ghost predicate Preorder(r: Relation) {
    && (forall a :: r(a, a))
    && (forall a, b, c :: r(a, b) && r(b, c) ==> r(a, c))
  }

  /** Stores, log and trace are the same. */
  ghost predicate SameStores(a: World, b: World) {
    a.st == b.st && a.log == b.log && a.trace == b.trace && a.calls == b.calls
  }

  ghost predicate IgnoresReads(r: Relation) {
    forall a, b :: SameStores(a, b) ==> r(a, b)
  }

  ghost predicate PutLaw(r: Relation) {
    forall w, kind, k, copy :: r(w, Put(w, kind, k, copy))
  }

  /** What holds across outside steps, reads and copies of resources. */
  ghost predicate Background(r: Relation, s: Script) {
    Preorder(r) && IgnoresReads(r) && PutLaw(r) && forall w :: r(w, Tick(w, s))
  }

  /** `q` is reached and stays reached along `r`. */
  ghost predicate Milestone(r: Relation, q: Relation) {
    && (forall a, b, c :: r(a, b) && q(b, c) ==> q(a, c))
    && (forall a, b, c :: q(a, b) && r(b, c) ==> q(a, c))
  }

  // ---------- outside steps ----------

  function Acted(w: World, a: EnvAction): World {
    w.(st := EnvStep(w.st, a), trace := w.trace + (if IsHostAction(a) then [HostEvent(false, a)] else []))
  }

  function ActedAll(w: World, actions: seq<EnvAction>): World {
    w.(st := EnvSteps(w.st, actions), trace := w.trace + Noted(actions))
  }

  lemma ActedAllSnoc(w: World, actions: seq<EnvAction>)
    requires actions != []
    ensures var n := |actions| - 1; ActedAll(w, actions) == Acted(ActedAll(w, actions[..n]), actions[n])
  {
  }

  lemma {:induction false} EnvStepsWalk(r: Relation, w: World, actions: seq<EnvAction>)
    requires Preorder(r) && forall i, v: World :: 0 <= i < |actions| ==> r(v, Acted(v, actions[i]))
    ensures r(w, ActedAll(w, actions))
    decreases |actions|
  {
    if actions == [] {
      assert w.trace + [] == w.trace;
    } else {
      var n := |actions| - 1;
      assert forall i :: 0 <= i < n ==> actions[..n][i] == actions[i];
      EnvStepsWalk(r, w, actions[..n]);
      ActedAllSnoc(w, actions);
    }
  }

  /** The number of calls so far is nobody's business. */
  ghost predicate IgnoresCalls(r: Relation) {
    forall w: World, n: nat :: r(w, w.(calls := n))
  }

  lemma TickWalk(r: Relation, w: World, s: Script)
    requires Preorder(r) && IgnoresCalls(r)
    requires forall i, v: World :: 0 <= i < |s.env(w.calls)| ==> r(v, Acted(v, s.env(w.calls)[i]))
    ensures r(w, Tick(w, s))
  {
    EnvStepsWalk(r, w, s.env(w.calls));
    var u := ActedAll(w, s.env(w.calls));
    assert Tick(w, s) == u.(calls := w.calls + 1);
  }

  // ---------- one source ----------

  lemma {:induction false} SyncResourcesWalk(r: Relation, w: World, s: Script, e: Engine, refs: seq<ResourceRef>)
    requires Background(r, s)
    ensures r(w, SyncResources(w, s, e, refs).0)
    decreases |refs|
  {
    if refs != [] {
      var ref := refs[0];
      var (w1, reply) := GetTenantResource(w, s, ref.kind, Key(ref.sourceNs, ref.sourceName));
      assert r(w, w1) by { assert r(w, Tick(w, s)) && SameStores(Tick(w, s), w1); }
      match reply
      case Err(_) =>
      case NotFound =>
        SyncResourcesWalk(r, w1, s, e, refs[1..]);
      case Got(payload) =>
        var copy := HostResource(payload, ResourceLabels(e));
        var (w2, failure) := EnsureResource(w1, s, ref.kind, Key(e.pool.ns, ref.targetName), copy);
        EnsureResourceWalk(r, w1, s, ref.kind, Key(e.pool.ns, ref.targetName), copy);
        assert r(w, w2);
        if failure.None? {
          SyncResourcesWalk(r, w2, s, e, refs[1..]);
        }
    }
  }

  lemma EnsureResourceWalk(r: Relation, w: World, s: Script, kind: VolumeType, k: Key, copy: HostResource)
    requires Background(r, s)
    ensures r(w, EnsureResource(w, s, kind, k, copy).0)
  {
    var w1, w2 := Tick(w, s), Tick(Tick(w, s), s);
    assert r(w, w1) && r(w1, w2);
    assert r(w2, Put(w2, kind, k, copy));
  }

  /** A live pod that compares different. */
  ghost predicate Drifted(w: World, spec: PodSpec) {
    var k := Key(spec.ns, spec.name);
    k in w.st.hostPods && !w.st.hostPods[k].deleting && !PodSpecsEqual(FromCore(w.st.hostPods[k]), spec)
  }

  /** What ensuring a pod may do: create it where there is none, request deletion of a drifted one. */
  ghost predicate EnsureLaws(r: Relation, s: Script, spec: PodSpec) {
    && (forall w: World :: Key(spec.ns, spec.name) !in w.st.hostPods ==> r(w, Create(w, spec)))
    && (forall w :: Drifted(w, spec) ==> r(w, Marked(Tick(w, s), Key(spec.ns, spec.name))))
  }

  lemma EnsureWalk(r: Relation, w: World, s: Script, spec: PodSpec)
    requires Background(r, s) && EnsureLaws(r, s, spec)
    ensures r(w, EnsureHostPod(w, s, spec).w)
  {
    var k := Key(spec.ns, spec.name);
    var w1, w2 := Tick(w, s), Tick(Tick(w, s), s);
    assert r(w, w1) && r(w1, w2) && r(w, w2);
    if Drifted(w1, spec) {
      assert r(w1, Marked(w2, k));
    } else if k !in w2.st.hostPods {
      assert r(w2, Create(w2, spec));
    }
  }

  /** Ensuring reaches a milestone: by finding the right pod or a dying one, by creating, or by requesting deletion. */
  ghost predicate EnsureMilestone(q: Relation, s: Script, spec: PodSpec) {
    && EnsureLaws(q, s, spec)
    && (forall w: World :: Key(spec.ns, spec.name) in w.st.hostPods && !Drifted(w, spec) ==> q(w, w))
  }

  lemma EnsureReaches(r: Relation, q: Relation, w: World, s: Script, spec: PodSpec)
    requires Background(r, s) && Milestone(r, q) && EnsureMilestone(q, s, spec)
    ensures var v := EnsureHostPod(w, s, spec); !v.verdict.ApiError? ==> q(w, v.w)
  {
    var k := Key(spec.ns, spec.name);
    var w1, w2 := Tick(w, s), Tick(Tick(w, s), s);
    assert r(w, w1) && r(w1, w2) && r(w, w2);
    if Drifted(w1, spec) {
      assert q(w1, Marked(w2, k));
    } else if k in w1.st.hostPods {
      assert q(w1, w1);
    } else if k !in w2.st.hostPods {
      assert q(w2, Create(w2, spec));
    }
  }

  /** World `b` with the status that the host pod had a moment ago, in `a`, written back to its tenant pod. */
  function WrittenBack(a: World, b: World, k: Key, tk: Key): World
    requires k in a.st.hostPods && tk in b.st.tenantPods
  {
    b.(st := WriteStatus(b.st, tk, StatusFromCore(a.st.hostPods[k].status)))
  }

  ghost predicate WriteLaw(r: Relation, k: Key, tk: Key) {
    forall a: World, b: World {:trigger WrittenBack(a, b, k, tk)} ::
      k in a.st.hostPods && tk in b.st.tenantPods && r(a, b) ==> r(a, WrittenBack(a, b, k, tk))
  }

  lemma MirrorWalk(r: Relation, w: World, s: Script, k: Key, tk: Key)
    requires Background(r, s) && WriteLaw(r, k, tk)
    ensures r(w, MirrorStatus(w, s, k, tk).w)
  {
    var w1, w2, w3 := Tick(w, s), Tick(Tick(w, s), s), Tick(Tick(Tick(w, s), s), s);
    assert r(w, w1) && r(w1, w2) && r(w2, w3) && r(w1, w3) && r(w, w2) && r(w, w3);
    if k in w1.st.hostPods && tk in w3.st.tenantPods {
      assert r(w1, WrittenBack(w1, w3, k, tk));
    }
  }

  /** The calls that touch pods on behalf of one source. */
  ghost predicate RespectsMirror(r: Relation, s: Script, e: Engine, src: CorePod) {
    forall w :: r(w, MirrorStatus(w, s, HostKey(e, src), KeyOf(src)).w)
  }

  ghost predicate RespectsEnsure(r: Relation, s: Script, e: Engine, src: CorePod) {
    forall w :: r(w, EnsureHostPod(w, s, Wanted(e, src)).w)
  }

  ghost predicate RespectsDelete(r: Relation, s: Script, k: Key) {
    forall w :: r(w, DeletePod(w, s, k).0)
  }

  ghost predicate RespectsSource(r: Relation, s: Script, e: Engine, src: CorePod) {
    && RespectsMirror(r, s, e, src)
    && (if IsTerminal(src) then RespectsDelete(r, s, HostKey(e, src)) else RespectsEnsure(r, s, e, src))
  }

  lemma ReapWalk(r: Relation, p: Progress, s: Script, k: Key)
    requires RespectsDelete(r, s, k)
    ensures r(p.w, Reap(p, s, k).p.w) && Reap(p, s, k).p.desired == p.desired
  {
    assert r(p.w, DeletePod(p.w, s, k).0);
  }

  lemma MirrorAndReapWalk(r: Relation, p: Progress, s: Script, e: Engine, src: CorePod)
    requires Preorder(r) && RespectsMirror(r, s, e, src) && (IsTerminal(src) ==> RespectsDelete(r, s, HostKey(e, src)))
    ensures var f := MirrorAndReap(p, s, e, src); r(p.w, f.p.w) && f.p.desired == p.desired
  {
    var m := MirrorStatus(p.w, s, HostKey(e, src), KeyOf(src));
    assert r(p.w, m.w);
    if m.failure.None? && IsTerminal(src) {
      ReapWalk(r, p.(w := m.w, c := if m.synced then p.c.(synced := p.c.synced + 1) else p.c), s, HostKey(e, src));
    }
  }

  lemma EnsureAndMirrorWalk(r: Relation, p: Progress, s: Script, e: Engine, src: CorePod)
    requires Preorder(r) && RespectsSource(r, s, e, src) && !IsTerminal(src)
    ensures var f := EnsureAndMirror(p, s, e, src); r(p.w, f.p.w) && f.p.desired == p.desired
  {
    var v := EnsureHostPod(p.w, s, Wanted(e, src));
    assert r(p.w, v.w);
    if v.verdict.Fine? {
      MirrorAndReapWalk(r, p.(w := v.w, c := Counted(p.c, v.created, v.deleted)), s, e, src);
    }
  }

  lemma SyncPodWalk(r: Relation, p: Progress, s: Script, e: Engine, src: CorePod)
    requires Background(r, s) && RespectsSource(r, s, e, src)
    ensures var f := SyncPod(p, s, e, src); r(p.w, f.p.w) && f.p.desired == p.desired + {KeyForPod(HostKey(e, src))}
  {
    assert SameStores(p.w, Fresh(p.w));
    SyncResourcesWalk(r, Fresh(p.w), s, e, RefsOf(src));
    var (w1, failure) := SyncResources(Fresh(p.w), s, e, RefsOf(src));
    assert r(p.w, w1);
    var q := p.(w := w1, desired := p.desired + {KeyForPod(HostKey(e, src))});
    if IsTerminal(src) {
      MirrorAndReapWalk(r, q, s, e, src);
    } else {
      EnsureAndMirrorWalk(r, q, s, e, src);
    }
  }

  // ---------- milestones of one source ----------

  /** Reaching the end of the source's part of the pass reaches the milestone. */
  ghost predicate Reaches(q: Relation, s: Script, e: Engine, src: CorePod) {
    if IsTerminal(src)
    then forall w :: DeletePod(w, s, HostKey(e, src)).1.None? ==> q(w, DeletePod(w, s, HostKey(e, src)).0)
    else forall w :: !EnsureHostPod(w, s, Wanted(e, src)).verdict.ApiError? ==> q(w, EnsureHostPod(w, s, Wanted(e, src)).w)
  }

  lemma MirrorAndReapReaches(r: Relation, q: Relation, p: Progress, s: Script, e: Engine, src: CorePod)
    requires Milestone(r, q) && RespectsMirror(r, s, e, src) && Reaches(q, s, e, src) && IsTerminal(src)
    ensures var f := MirrorAndReap(p, s, e, src); f.Next? ==> q(p.w, f.p.w)
  {
    var m := MirrorStatus(p.w, s, HostKey(e, src), KeyOf(src));
    assert r(p.w, m.w);
    var d := DeletePod(m.w, s, HostKey(e, src));
    assert d.1.None? ==> q(m.w, d.0);
  }

  lemma EnsureAndMirrorReaches(r: Relation, q: Relation, p: Progress, s: Script, e: Engine, src: CorePod)
    requires Preorder(r) && Milestone(r, q) && RespectsSource(r, s, e, src) && Reaches(q, s, e, src) && !IsTerminal(src)
    ensures var f := EnsureAndMirror(p, s, e, src); f.Next? ==> q(p.w, f.p.w)
  {
    var v := EnsureHostPod(p.w, s, Wanted(e, src));
    assert !v.verdict.ApiError? ==> q(p.w, v.w);
    if v.verdict.Fine? {
      var g := p.(w := v.w, c := Counted(p.c, v.created, v.deleted));
      MirrorAndReapWalk(r, g, s, e, src);
      assert q(p.w, MirrorAndReap(g, s, e, src).p.w);
    }
  }

  lemma SyncPodReaches(r: Relation, q: Relation, p: Progress, s: Script, e: Engine, src: CorePod)
    requires Background(r, s) && Milestone(r, q) && RespectsSource(r, s, e, src) && Reaches(q, s, e, src)
    ensures var f := SyncPod(p, s, e, src); f.Next? ==> q(p.w, f.p.w)
  {
    assert SameStores(p.w, Fresh(p.w));
    SyncResourcesWalk(r, Fresh(p.w), s, e, RefsOf(src));
    var (w1, failure) := SyncResources(Fresh(p.w), s, e, RefsOf(src));
    assert r(p.w, w1);
    var g := p.(w := w1, desired := p.desired + {KeyForPod(HostKey(e, src))});
    if IsTerminal(src) {
      MirrorAndReapReaches(r, q, g, s, e, src);
    } else {
      EnsureAndMirrorReaches(r, q, g, s, e, src);
    }
  }

  // ---------- all sources, and the sweep ----------

  ghost predicate RespectsSources(r: Relation, s: Script, e: Engine, srcs: seq<CorePod>) {
    forall i :: 0 <= i < |srcs| ==> RespectsSource(r, s, e, srcs[i])
  }

  lemma {:induction false} SyncPodsWalk(r: Relation, p: Progress, s: Script, e: Engine, srcs: seq<CorePod>)
    requires Background(r, s) && RespectsSources(r, s, e, srcs)
    ensures var f := SyncPods(p, s, e, srcs); r(p.w, f.p.w) && (f.Next? ==> f.p.desired == p.desired + Desired(e, srcs))
    decreases |srcs|
  {
    if srcs != [] {
      SyncPodWalk(r, p, s, e, srcs[0]);
      var g := SyncPod(p, s, e, srcs[0]);
      DesiredCons(e, srcs);
      if g.Next? {
        SyncPodsWalk(r, g.p, s, e, srcs[1..]);
      }
    }
  }

  lemma {:induction false} SyncPodsReach(r: Relation, q: Relation, p: Progress, s: Script, e: Engine, srcs: seq<CorePod>, i: nat)
    requires Background(r, s) && Milestone(r, q) && RespectsSources(r, s, e, srcs)
    requires i < |srcs| && Reaches(q, s, e, srcs[i])
    ensures var f := SyncPods(p, s, e, srcs); f.Next? ==> q(p.w, f.p.w)
    decreases |srcs|
  {
    var g := SyncPod(p, s, e, srcs[0]);
    SyncPodWalk(r, p, s, e, srcs[0]);
    if g.Next? {
      if i == 0 {
        SyncPodReaches(r, q, p, s, e, srcs[0]);
        SyncPodsWalk(r, g.p, s, e, srcs[1..]);
      } else {
        SyncPodsReach(r, q, g.p, s, e, srcs[1..], i - 1);
      }
    }
  }

  ghost predicate RespectsSweep(r: Relation, s: Script, desired: set<string>, keys: seq<Key>) {
    forall i :: 0 <= i < |keys| && KeyForPod(keys[i]) !in desired ==> RespectsDelete(r, s, keys[i])
  }

  lemma {:induction false} SweepWalk(r: Relation, p: Progress, s: Script, keys: seq<Key>)
    requires Preorder(r) && RespectsSweep(r, s, p.desired, keys)
    ensures r(p.w, Sweep(p, s, keys).p.w)
    decreases |keys|
  {
    if keys != [] {
      assert forall i :: 0 <= i < |keys[1..]| ==> keys[1..][i] == keys[i + 1];
      if KeyForPod(keys[0]) in p.desired {
        SweepWalk(r, p, s, keys[1..]);
      } else {
        ReapWalk(r, p, s, keys[0]);
        var g := Reap(p, s, keys[0]);
        if g.Next? {
          SweepWalk(r, g.p, s, keys[1..]);
        }
      }
    }
  }

  ghost predicate ReachesByDelete(q: Relation, s: Script, k: Key) {
    forall w :: DeletePod(w, s, k).1.None? ==> q(w, DeletePod(w, s, k).0)
  }

  lemma {:induction false} SweepReaches(r: Relation, q: Relation, p: Progress, s: Script, keys: seq<Key>, i: nat)
    requires Preorder(r) && Milestone(r, q) && RespectsSweep(r, s, p.desired, keys)
    requires i < |keys| && KeyForPod(keys[i]) !in p.desired && ReachesByDelete(q, s, keys[i])
    ensures var f := Sweep(p, s, keys); f.Next? ==> q(p.w, f.p.w)
    decreases |keys|
  {
    assert forall j :: 0 <= j < |keys[1..]| ==> keys[1..][j] == keys[j + 1];
    if KeyForPod(keys[0]) in p.desired {
      SweepReaches(r, q, p, s, keys[1..], i - 1);
    } else {
      ReapWalk(r, p, s, keys[0]);
      var g := Reap(p, s, keys[0]);
      if g.Next? {
        if i == 0 {
          assert q(p.w, g.p.w);
          SweepWalk(r, g.p, s, keys[1..]);
        } else {
          SweepReaches(r, q, g.p, s, keys[1..], i - 1);
        }
      }
    }
  }

  // ---------- relations that tolerate every call ----------

  /** A relation that tolerates creation and deletion at the source's key and any write-back is respected by the source's calls. */
  lemma RespectedByLaws(r: Relation, s: Script, e: Engine, src: CorePod)
    requires Background(r, s)
    requires forall w: World :: HostKey(e, src) !in w.st.hostPods ==> r(w, Create(w, Wanted(e, src)))
    requires forall w: World :: r(w, Marked(w, HostKey(e, src)))
    requires WriteLaw(r, HostKey(e, src), KeyOf(src))
    ensures RespectsSource(r, s, e, src)
  {
    var k, spec := HostKey(e, src), Wanted(e, src);
    forall w: World | Drifted(w, spec) ensures r(w, Marked(Tick(w, s), k)) {
      assert r(w, Tick(w, s)) && r(Tick(w, s), Marked(Tick(w, s), k));
    }
    forall w: World ensures r(w, EnsureHostPod(w, s, spec).w) {
      EnsureWalk(r, w, s, spec);
    }
    forall w: World ensures r(w, MirrorStatus(w, s, k, KeyOf(src)).w) {
      MirrorWalk(r, w, s, k, KeyOf(src));
    }
    DeleteByLaws(r, s, k);
  }

  lemma DeleteByLaws(r: Relation, s: Script, k: Key)
    requires Background(r, s) && forall w: World :: r(w, Marked(w, k))
    ensures RespectsDelete(r, s, k)
  {
    forall w: World ensures r(w, DeletePod(w, s, k).0) {
      assert r(w, Tick(w, s)) && r(Tick(w, s), Marked(Tick(w, s), k));
    }
  }

  ghost predicate CallLaws(r: Relation) {
    && (forall w: World, spec: PodSpec :: Key(spec.ns, spec.name) !in w.st.hostPods ==> r(w, Create(w, spec)))
    && (forall w: World, k :: r(w, Marked(w, k)))
    && (forall k, tk :: WriteLaw(r, k, tk))
  }

  lemma SweepByLaws(r: Relation, p: Progress, s: Script, e: Engine)
    requires Background(r, s) && CallLaws(r)
    ensures r(p.w, SweepListed(p, s, e).p.w)
  {
    var w1 := Tick(p.w, s);
    assert r(p.w, w1);
    SweepKeysByLaws(r, p.(w := w1), s, s.hostOrder(Labelled(w1.st, e.pool.ns, e.pool.name)));
  }

  lemma SweepKeysByLaws(r: Relation, p: Progress, s: Script, keys: seq<Key>)
    requires Background(r, s) && CallLaws(r)
    ensures r(p.w, Sweep(p, s, keys).p.w)
  {
    forall i | 0 <= i < |keys| ensures RespectsDelete(r, s, keys[i]) {
      DeleteByLaws(r, s, keys[i]);
    }
    SweepWalk(r, p, s, keys);
  }

  lemma SyncPodsByLaws(r: Relation, p: Progress, s: Script, e: Engine, srcs: seq<CorePod>)
    requires Background(r, s) && CallLaws(r)
    ensures r(p.w, SyncPods(p, s, e, srcs).p.w)
  {
    forall i | 0 <= i < |srcs| ensures RespectsSource(r, s, e, srcs[i]) {
      RespectedByLaws(r, s, e, srcs[i]);
    }
    SyncPodsWalk(r, p, s, e, srcs);
  }

  lemma SyncAndSweepByLaws(r: Relation, w: World, s: Script, e: Engine, srcs: seq<CorePod>)
    requires Background(r, s) && CallLaws(r)
    ensures r(w, SyncAndSweep(w, s, e, srcs).p.w)
  {
    var p := Progress(w, {}, NoCounts.(sourcePods := |srcs|));
    SyncPodsByLaws(r, p, s, e, srcs);
    var g := SyncPods(p, s, e, srcs);
    if g.Next? {
      SweepByLaws(r, g.p, s, e);
    }
  }

  // ---------- the pass ----------

  /** A pass ends early without touching a pod, or runs its two loops from a world and a source list. */
  lemma PassShape(r: Relation, w: World, s: Script, e: Engine, nodes: seq<VNode>) returns (v: World, srcs: seq<CorePod>)
    requires Background(r, s)
    ensures r(w, v)
    ensures srcs == if ReadyNames(nodes) == {} then [] else Sources(v.st, s, ReadyNames(nodes))
    ensures v.log == w.log
    ensures var f := Pass(w, s, e, nodes);
      f == SyncAndSweep(v, s, e, srcs) || (f.Stop? && r(w, f.p.w) && f.p.w.log == w.log && f.p.c == NoCounts)
  {
    var w1, w2, w3 := Tick(w, s), Tick(Tick(w, s), s), Tick(Tick(Tick(w, s), s), s);
    assert r(w, w1) && r(w1, w2) && r(w2, w3) && r(w, w2) && r(w, w3);
    if ReadyNames(nodes) == {} {
      v, srcs := w2, [];
    } else {
      v, srcs := w3, Sources(w3.st, s, ReadyNames(nodes));
    }
  }

  /** What every single call respects, every pass and every cleanup respects. */
  lemma PassByLaws(r: Relation, w: World, s: Script, e: Engine, nodes: seq<VNode>)
    requires Background(r, s) && CallLaws(r)
    ensures r(w, Pass(w, s, e, nodes).p.w) && r(w, Cleanup(w, s, e).p.w)
  {
    var v, srcs := PassShape(r, w, s, e, nodes);
    SyncAndSweepByLaws(r, v, s, e, srcs);
    SweepByLaws(r, Progress(w, {}, NoCounts), s, e);
  }

  // ---------- relations that look at pods only ----------

  /** Pods are the same on both sides, and the log. */
  ghost predicate SamePods(a: World, b: World) {
    a.st.hostPods == b.st.hostPods && a.st.tenantPods == b.st.tenantPods && a.log == b.log
  }

  lemma LooksAtPods(r: Relation)
    requires forall a, b :: SamePods(a, b) ==> r(a, b)
    ensures IgnoresReads(r) && IgnoresCalls(r) && PutLaw(r)
  {
    forall w: World, kind: VolumeType, k: Key, copy: HostResource ensures r(w, Put(w, kind, k, copy)) {
      assert SamePods(w, Put(w, kind, k, copy));
    }
    forall w: World, n: nat ensures r(w, w.(calls := n)) {
      assert SamePods(w, w.(calls := n));
    }
    forall a, b | SameStores(a, b) ensures r(a, b) {
      assert SamePods(a, b);
    }
  }
}
