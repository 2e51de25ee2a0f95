/**
 * What an undisturbed pass does to the host, stated one key at a time. The pass is a chain of
 * API calls over lists; here it is a function of each key's own cell and of the source that
 * claims the key.
 */
module PassEffect {
  import opened Lists
  import opened CorePods
  import opened Translation
  import opened Drift
  import opened Clusters
  import opened Execution

  /** The host pod at a key, if any. */
  function Cell(w: World, k: Key): Option<CorePod> {
    At(w.st.hostPods, k)
  }

  function Doomed(cur: Option<CorePod>): Option<CorePod> {
    match cur case None => None case Some(p) => Some(p.(deleting := true))
  }

  /** A claimed key: finished sources reap, others create if absent, wait if deleting, keep if equal, delete on drift. */
  function ClaimedStep(e: Engine, src: CorePod, cur: Option<CorePod>): Option<CorePod> {
    if IsTerminal(src) then Doomed(cur)
    else if cur.None? then Some(Stored(Wanted(e, src)))
    else if cur.value.deleting || PodSpecsEqual(FromCore(cur.value), Wanted(e, src)) then cur
    else Doomed(cur)
  }

  /** An unclaimed key: pods of the pool are deleted, others left alone. */
  function UnclaimedStep(e: Engine, k: Key, cur: Option<CorePod>): Option<CorePod> {
    if cur.Some? && k.ns == e.pool.ns && HasPoolLabels(cur.value, e.pool.name) then Doomed(cur) else cur
  }

  /** The source that wants key `k`. */
  function Claimant(e: Engine, srcs: seq<CorePod>, k: Key): (r: Option<CorePod>)
    ensures r.Some? ==> r.value in srcs && HostKey(e, r.value) == k
    ensures r.None? ==> forall src :: src in srcs ==> HostKey(e, src) != k
  {
    if srcs == [] then None
    else if HostKey(e, srcs[0]) == k then Some(srcs[0])
    else Claimant(e, srcs[1..], k)
  }

  function NextCell(e: Engine, srcs: seq<CorePod>, k: Key, cur: Option<CorePod>): Option<CorePod> {
    match Claimant(e, srcs, k)
    case Some(src) => ClaimedStep(e, src, cur)
    case None => UnclaimedStep(e, k, cur)
  }

  ghost predicate DistinctKeys(e: Engine, srcs: seq<CorePod>) {
    forall i, j :: 0 <= i < j < |srcs| ==> HostKey(e, srcs[i]) != HostKey(e, srcs[j])
  }

  // ---------- one source ----------

  /** Host pods and the tenant side are as before; only host ConfigMaps and Secrets may differ. */
  ghost predicate OnlyResourcesDiffer(a: World, b: World) {
    && a.st.hostPods == b.st.hostPods && a.st.tenantPods == b.st.tenantPods
    && a.st.tenantMaps == b.st.tenantMaps && a.st.tenantSecrets == b.st.tenantSecrets
    && a.log == b.log
  }

  lemma {:induction false} SyncResourcesEffect(w: World, s: Script, e: Engine, refs: seq<ResourceRef>)
    requires Quiet(s)
    ensures OnlyResourcesDiffer(w, SyncResources(w, s, e, refs).0)
    decreases |refs|
  {
    if refs != [] {
      var r := refs[0];
      var (w1, reply) := GetTenantResource(w, s, r.kind, Key(r.sourceNs, r.sourceName));
      match reply
      case Err(_) =>
      case NotFound => SyncResourcesEffect(w1, s, e, refs[1..]);
      case Got(payload) =>
        var (w2, failure) :=
          EnsureResource(w1, s, r.kind, Key(e.pool.ns, r.targetName), HostResource(payload, ResourceLabels(e)));
        if failure.None? { SyncResourcesEffect(w2, s, e, refs[1..]); }
    }
  }

  /** Only the cell at `k` may differ. */
  ghost predicate OnlyCell(a: World, b: World, k: Key) {
    forall j :: j != k ==> Cell(a, j) == Cell(b, j)
  }

  /** Tenant pods are the same except that `tk` may carry a new status whose phase is that of the host pod at `k`. */
  ghost predicate StatusMirrored(a: World, b: World, k: Key, tk: Key) {
    && a.st.tenantPods.Keys == b.st.tenantPods.Keys
    && (forall j :: j in a.st.tenantPods && j != tk ==> b.st.tenantPods[j] == a.st.tenantPods[j])
    && (tk in a.st.tenantPods ==>
          || b.st.tenantPods[tk] == a.st.tenantPods[tk]
          || (k in b.st.hostPods && b.st.tenantPods[tk].status.phase == b.st.hostPods[k].status.phase
              && b.st.tenantPods[tk] == a.st.tenantPods[tk].(status := b.st.tenantPods[tk].status)))
  }

  lemma EnsureEffect(w: World, s: Script, e: Engine, src: CorePod)
    requires Quiet(s) && !IsTerminal(src)
    ensures var r := EnsureHostPod(w, s, Wanted(e, src)); var k := HostKey(e, src);
      && OnlyCell(w, r.w, k) && r.w.st.tenantPods == w.st.tenantPods
      && (r.verdict.ApiError? ==> r.w.st.hostPods == w.st.hostPods)
      && (!r.verdict.ApiError? ==> Cell(r.w, k) == ClaimedStep(e, src, Cell(w, k)))
      && (r.verdict.Fine? ==> k in r.w.st.hostPods)
  {
  }

  lemma MirrorEffect(w: World, s: Script, k: Key, tk: Key)
    requires Quiet(s)
    ensures var m := MirrorStatus(w, s, k, tk);
      m.w.st.hostPods == w.st.hostPods && StatusMirrored(w, m.w, k, tk)
  {
    var w1, w2, w3 := Tick(w, s), Tick(Tick(w, s), s), Tick(Tick(Tick(w, s), s), s);
    assert w1.st == w.st && w2.st == w.st && w3.st == w.st;
    if k in w.st.hostPods && tk in w.st.tenantPods {
      assert WriteStatus(w.st, tk, StatusFromCore(w.st.hostPods[k].status)).tenantPods[tk].status.phase == w.st.hostPods[k].status.phase;
    }
  }

  lemma ReapEffect(p: Progress, s: Script, k: Key)
    requires Quiet(s)
    ensures var f := Reap(p, s, k);
      && OnlyCell(p.w, f.p.w, k) && f.p.w.st.tenantPods == p.w.st.tenantPods && f.p.desired == p.desired
      && (f.Next? ==> Cell(f.p.w, k) == Doomed(Cell(p.w, k)))
      && (f.Stop? ==> f.p.w.st.hostPods == p.w.st.hostPods)
  {
  }

  lemma MirrorAndReapEffect(p: Progress, s: Script, e: Engine, src: CorePod)
    requires Quiet(s)
    ensures var f := MirrorAndReap(p, s, e, src); var k := HostKey(e, src);
      && OnlyCell(p.w, f.p.w, k) && StatusMirrored(p.w, f.p.w, k, KeyOf(src))
      && f.p.desired == p.desired
      && (!IsTerminal(src) ==> f.p.w.st.hostPods == p.w.st.hostPods)
      && (IsTerminal(src) && f.Next? ==> Cell(f.p.w, k) == Doomed(Cell(p.w, k)))
      && (f.Stop? ==> f.p.w.st.hostPods == p.w.st.hostPods)
  {
    var k := HostKey(e, src);
    var m := MirrorStatus(p.w, s, k, KeyOf(src));
    MirrorEffect(p.w, s, k, KeyOf(src));
    if m.failure.None? && IsTerminal(src) {
      var q := p.(w := m.w, c := if m.synced then p.c.(synced := p.c.synced + 1) else p.c);
      ReapEffect(q, s, k);
      assert k in m.w.st.hostPods ==> Cell(Reap(q, s, k).p.w, k).value.status == Cell(m.w, k).value.status;
    }
  }

  /** The world as a source's copy begins. */
  function Fresh(w: World): World {
    w.(seen := map[])
  }

  lemma EnsureAndMirrorEffect(p: Progress, s: Script, e: Engine, src: CorePod)
    requires Quiet(s) && !IsTerminal(src)
    ensures var f := EnsureAndMirror(p, s, e, src); var k := HostKey(e, src);
      && OnlyCell(p.w, f.p.w, k) && StatusMirrored(p.w, f.p.w, k, KeyOf(src))
      && f.p.desired == p.desired
      && (f.Next? ==> Cell(f.p.w, k) == ClaimedStep(e, src, Cell(p.w, k)))
      && (f.Stop? ==> Cell(f.p.w, k) == Cell(p.w, k) || Cell(f.p.w, k) == ClaimedStep(e, src, Cell(p.w, k)))
  {
    EnsureEffect(p.w, s, e, src);
    var r := EnsureHostPod(p.w, s, Wanted(e, src));
    if r.verdict.Fine? {
      MirrorAndReapEffect(p.(w := r.w, c := Counted(p.c, r.created, r.deleted)), s, e, src);
    }
  }

  lemma SyncPodEffect(p: Progress, s: Script, e: Engine, src: CorePod)
    requires Quiet(s)
    ensures var f := SyncPod(p, s, e, src); var k := HostKey(e, src);
      && OnlyCell(p.w, f.p.w, k) && StatusMirrored(p.w, f.p.w, k, KeyOf(src))
      && f.p.desired == p.desired + {KeyForPod(k)}
      && (f.Next? ==> Cell(f.p.w, k) == ClaimedStep(e, src, Cell(p.w, k)))
      && (f.Stop? ==> Cell(f.p.w, k) == Cell(p.w, k) || Cell(f.p.w, k) == ClaimedStep(e, src, Cell(p.w, k)))
  {
    var q := p.(w := SyncResources(Fresh(p.w), s, e, RefsOf(src)).0, desired := p.desired + {KeyForPod(HostKey(e, src))});
    SyncResourcesEffect(Fresh(p.w), s, e, RefsOf(src));
    if IsTerminal(src) {
      MirrorAndReapEffect(q, s, e, src);
    } else {
      EnsureAndMirrorEffect(q, s, e, src);
    }
  }

  // ---------- all sources ----------

  /** Cell by cell: a finished run applied every step, a stopped run applied each step or not. */
  ghost predicate Applied(a: World, f: Flow, k: Key, next: Option<CorePod>) {
    Cell(f.p.w, k) == next || (f.Stop? && Cell(f.p.w, k) == Cell(a, k))
  }

  ghost predicate TenantMirrors(e: Engine, srcs: seq<CorePod>, a: World, b: World, j: Key)
    requires j in a.st.tenantPods && j in b.st.tenantPods
  {
    || b.st.tenantPods[j] == a.st.tenantPods[j]
    || exists src :: src in srcs && PhaseFrom(e, src, a, b, j)
  }

  ghost predicate PhaseFrom(e: Engine, src: CorePod, a: World, b: World, j: Key)
    requires j in a.st.tenantPods && j in b.st.tenantPods
  {
    && KeyOf(src) == j && HostKey(e, src) in b.st.hostPods
    && b.st.tenantPods[j] == a.st.tenantPods[j].(status := b.st.tenantPods[j].status)
    && b.st.tenantPods[j].status.phase == b.st.hostPods[HostKey(e, src)].status.phase
  }

  /** Every tenant pod keeps everything but possibly its status, which then follows its host pod. */
  ghost predicate TenantFollows(e: Engine, srcs: seq<CorePod>, a: World, b: World) {
    && a.st.tenantPods.Keys == b.st.tenantPods.Keys
    && forall j :: j in a.st.tenantPods ==> TenantMirrors(e, srcs, a, b, j)
  }

  function Desired(e: Engine, srcs: seq<CorePod>): set<string> {
    set src | src in srcs :: KeyForPod(HostKey(e, src))
  }

  lemma DesiredCons(e: Engine, srcs: seq<CorePod>)
    requires srcs != []
    ensures Desired(e, srcs) == {KeyForPod(HostKey(e, srcs[0]))} + Desired(e, srcs[1..])
  {
  }

  lemma TailIsUnclaimed(e: Engine, srcs: seq<CorePod>)
    requires srcs != [] && DistinctKeys(e, srcs)
    ensures DistinctKeys(e, srcs[1..]) && Claimant(e, srcs[1..], HostKey(e, srcs[0])).None?
  {
  }

  lemma TenantFollowsStep(e: Engine, srcs: seq<CorePod>, a: World, b: World, c: World)
    requires srcs != [] && DistinctKeys(e, srcs)
    requires StatusMirrored(a, b, HostKey(e, srcs[0]), KeyOf(srcs[0]))
    requires TenantFollows(e, srcs[1..], b, c)
    requires Cell(b, HostKey(e, srcs[0])) == Cell(c, HostKey(e, srcs[0]))
    ensures TenantFollows(e, srcs, a, c)
  {
    forall j | j in a.st.tenantPods ensures TenantMirrors(e, srcs, a, c, j) {
      assert TenantMirrors(e, srcs[1..], b, c, j);
      if c.st.tenantPods[j] == b.st.tenantPods[j] {
        if b.st.tenantPods[j] != a.st.tenantPods[j] {
          assert PhaseFrom(e, srcs[0], a, c, j);
        }
      } else {
        var src :| src in srcs[1..] && PhaseFrom(e, src, b, c, j);
        assert PhaseFrom(e, src, a, c, j);
      }
    }
  }

  lemma {:induction false} SyncPodsEffect(p: Progress, s: Script, e: Engine, srcs: seq<CorePod>)
    requires Quiet(s) && DistinctKeys(e, srcs)
    ensures var f := SyncPods(p, s, e, srcs);
      && (forall k :: Claimant(e, srcs, k).None? ==> Cell(f.p.w, k) == Cell(p.w, k))
      && (forall k :: Claimant(e, srcs, k).Some? ==>
            Applied(p.w, f, k, ClaimedStep(e, Claimant(e, srcs, k).value, Cell(p.w, k))))
      && (f.Next? ==> f.p.desired == p.desired + Desired(e, srcs))
      && TenantFollows(e, srcs, p.w, f.p.w)
    decreases |srcs|
  {
    if srcs == [] {
    } else {
      var src := srcs[0];
      var k0 := HostKey(e, src);
      SyncPodEffect(p, s, e, src);
      TailIsUnclaimed(e, srcs);
      var g := SyncPod(p, s, e, src);
      var f := SyncPods(p, s, e, srcs);
      if g.Next? {
        SyncPodsEffect(g.p, s, e, srcs[1..]);
        DesiredCons(e, srcs);
        TenantFollowsStep(e, srcs, p.w, g.p.w, f.p.w);
      } else {
        assert TenantFollows(e, srcs[1..], g.p.w, f.p.w);
        TenantFollowsStep(e, srcs, p.w, g.p.w, f.p.w);
      }
      forall k | Claimant(e, srcs, k).Some?
        ensures Applied(p.w, f, k, ClaimedStep(e, Claimant(e, srcs, k).value, Cell(p.w, k)))
      {
        if k == k0 {
          assert Claimant(e, srcs, k) == Some(src);
        } else {
          assert Claimant(e, srcs, k) == Claimant(e, srcs[1..], k);
          assert Cell(g.p.w, k) == Cell(p.w, k);
        }
      }
    }
  }

  // ---------- the sweep ----------

  lemma {:induction false} SweepEffect(p: Progress, s: Script, keys: seq<Key>)
    requires Quiet(s)
    ensures var f := Sweep(p, s, keys);
      && f.p.w.st.tenantPods == p.w.st.tenantPods
      && (forall k :: k !in keys || KeyForPod(k) in p.desired ==> Cell(f.p.w, k) == Cell(p.w, k))
      && (forall k :: k in keys && KeyForPod(k) !in p.desired ==> Applied(p.w, f, k, Doomed(Cell(p.w, k))))
    decreases |keys|
  {
    if keys != [] {
      assert keys == [keys[0]] + keys[1..];
      if KeyForPod(keys[0]) in p.desired {
        SweepEffect(p, s, keys[1..]);
      } else {
        ReapEffect(p, s, keys[0]);
        var g := Reap(p, s, keys[0]);
        if g.Next? { SweepEffect(g.p, s, keys[1..]); }
      }
    }
  }

  /** Within the pool's namespace the textual key identifies the claim. */
  lemma DesiredMeansClaimed(e: Engine, srcs: seq<CorePod>, k: Key)
    requires k.ns == e.pool.ns
    ensures KeyForPod(k) in Desired(e, srcs) <==> Claimant(e, srcs, k).Some?
  {
    if KeyForPod(k) in Desired(e, srcs) {
      var src :| src in srcs && KeyForPod(HostKey(e, src)) == KeyForPod(k);
      var h := HostKey(e, src);
      assert KeyForPod(k)[|k.ns| + 1..] == k.name && KeyForPod(h)[|k.ns| + 1..] == h.name;
      assert h == k;
    }
  }

  lemma SweepListedEffect(p: Progress, s: Script, e: Engine, srcs: seq<CorePod>)
    requires Quiet(s) && Orderly(s) && e.pool.ns != "" && p.desired == Desired(e, srcs)
    ensures var f := SweepListed(p, s, e);
      && f.p.w.st.tenantPods == p.w.st.tenantPods
      && (forall k :: Claimant(e, srcs, k).Some? ==> Cell(f.p.w, k) == Cell(p.w, k))
      && (forall k :: Claimant(e, srcs, k).None? ==> Applied(p.w, f, k, UnclaimedStep(e, k, Cell(p.w, k))))
  {
    var w1 := Tick(p.w, s);
    assert w1.st == p.w.st;
    if Fails(p.w, s).None? {
      var listed := Labelled(w1.st, e.pool.ns, e.pool.name);
      var keys := s.hostOrder(listed);
      assert Enumerates(keys, listed);
      SweepEffect(p.(w := w1), s, keys);
      var f := SweepListed(p, s, e);
      forall k
        ensures Claimant(e, srcs, k).Some? ==> Cell(f.p.w, k) == Cell(p.w, k)
        ensures Claimant(e, srcs, k).None? ==> Applied(p.w, f, k, UnclaimedStep(e, k, Cell(p.w, k)))
      {
        if k in listed {
          DesiredMeansClaimed(e, srcs, k);
        }
        assert Cell(w1, k) == Cell(p.w, k);
      }
    }
  }

  /**
   * An undisturbed pass acts on every host key independently: a completed pass applies the key's
   * step, and a pass stopped by a failure anywhere leaves each key either stepped or untouched.
   */
  lemma PassActsPointwise(w: World, s: Script, e: Engine, srcs: seq<CorePod>)
    requires Quiet(s) && Orderly(s) && e.pool.ns != "" && DistinctKeys(e, srcs)
    ensures var f := SyncAndSweep(w, s, e, srcs);
      && (forall k :: Applied(w, f, k, NextCell(e, srcs, k, Cell(w, k))))
      && TenantFollows(e, srcs, w, f.p.w)
  {
    var p := Progress(w, {}, NoCounts.(sourcePods := |srcs|));
    SyncPodsEffect(p, s, e, srcs);
    var g := SyncPods(p, s, e, srcs);
    if g.Next? {
      SweepListedEffect(g.p, s, e, srcs);
      var f := SweepListed(g.p, s, e);
      forall k ensures Applied(w, f, k, NextCell(e, srcs, k, Cell(w, k))) {
        assert Claimant(e, srcs, k).Some? || Claimant(e, srcs, k).None?;
      }
      forall j | j in w.st.tenantPods ensures TenantMirrors(e, srcs, w, f.p.w, j) {
        assert TenantMirrors(e, srcs, w, g.p.w, j);
        if g.p.w.st.tenantPods[j] != w.st.tenantPods[j] {
          var src :| src in srcs && PhaseFrom(e, src, w, g.p.w, j);
          assert Claimant(e, srcs, HostKey(e, src)).Some?;
          assert Cell(f.p.w, HostKey(e, src)) == Cell(g.p.w, HostKey(e, src));
          assert PhaseFrom(e, src, w, f.p.w, j);
        }
      }
    }
  }
}
