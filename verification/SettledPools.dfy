/** What passes do to a settled pool: nothing, except to report the finished sources over and over. */
module SettledPools {
  import opened Lists
  import opened PodModel
  import opened CorePods
  import opened Translation
  import opened Drift
  import opened Clusters
  import opened Execution
  import opened PassEffect
  import opened Convergence
  import opened Walks
  import opened History
  import opened Settling

  // ---------- settled is not always the image ----------

  /**
   * At any running source of a settled pool there could be a host pod of no pool at all that still
   * passes for the wanted one. The pool would be settled, hence left alone, and not the image.
   */
  lemma SettledNeedNotBeImage(l: Workload, w: World, tk: Key) returns (v: World)
    requires Admissible(l) && Holds(l, w) && Settled(l, w) && IsSourceKey(l, tk) && tk !in l.finished
    ensures Holds(l, v) && Settled(l, v) && !Image(l, v) && OnlyCell(w, v, HostKey(l.e, l.pods[tk]))
  {
    var k := HostKey(l.e, l.pods[tk]);
    var want := Wanted(l.e, l.pods[tk]);
    var labels := HiddenLabels(l.e, l.pods[tk]);
    PodsInPlace(l, w, tk);
    SwappedCell(l.e, k, w.st.hostPods[k], labels, want);
    v := SwapLabels(w, k, labels);
    SwappedPool(l, w, v, tk);
  }

  lemma SwapLabels(w: World, k: Key, labels: map<string, string>) returns (v: World)
    requires k in w.st.hostPods
    ensures OnlyCell(w, v, k) && v.st.tenantPods == w.st.tenantPods
    ensures k in v.st.hostPods && v.st.hostPods[k] == w.st.hostPods[k].(labels := labels)
  {
    v := w.(st := w.st.(hostPods := w.st.hostPods[k := w.st.hostPods[k].(labels := labels)]));
  }

  lemma HiddenLabels(e: Engine, src: CorePod) returns (labels: map<string, string>)
    ensures StringMapEqual(labels, Wanted(e, src).labels) && labels != Wanted(e, src).labels
  {
    labels := EntryCanBeHidden(Wanted(e, src).labels, LABEL_VNODE_POOL);
  }

  lemma PodsInPlace(l: Workload, w: World, tk: Key)
    requires Admissible(l) && Holds(l, w) && Settled(l, w) && IsSourceKey(l, tk) && tk !in l.finished
    ensures var k := HostKey(l.e, l.pods[tk]); var want := Wanted(l.e, l.pods[tk]);
      && k in w.st.hostPods && !w.st.hostPods[k].deleting && PodSpecsEqual(FromCore(w.st.hostPods[k]), want)
      && DemandAt(l, k) == Serve(want) && Fits(Serve(want), Some(w.st.hostPods[k]))
  {
    var k := HostKey(l.e, l.pods[tk]);
    assert Serves(w, k, Wanted(l.e, l.pods[tk]));
    DemandIs(l, tk, k);
    assert Fits(DemandAt(l, k), Cell(w, k));
  }

  lemma SwappedPool(l: Workload, w: World, v: World, tk: Key)
    requires Admissible(l) && Holds(l, w) && Settled(l, w) && IsSourceKey(l, tk) && tk !in l.finished
    requires var k := HostKey(l.e, l.pods[tk]); var want := Wanted(l.e, l.pods[tk]);
      && OnlyCell(w, v, k) && v.st.tenantPods == w.st.tenantPods && k in v.st.hostPods
      && Fits(DemandAt(l, k), Cell(v, k)) && RankAt(l, v, k) == 0
      && Compared(FromCore(v.st.hostPods[k])) != Compared(want)
    ensures Holds(l, v) && Settled(l, v) && !Image(l, v)
  {
    RankZeroMeansSettled(l, w);
    OtherPodInPlace(l, w, v, HostKey(l.e, l.pods[tk]));
    RankZeroMeansSettled(l, v);
  }

  lemma SwappedCell(e: Engine, k: Key, pod: CorePod, labels: map<string, string>, want: PodSpec)
    requires !pod.deleting && PodSpecsEqual(FromCore(pod), want)
    requires StringMapEqual(labels, want.labels) && labels != want.labels && Fits(Serve(want), Some(pod))
    ensures var other := pod.(labels := labels);
      && Rank(e, Serve(want), k, Some(other)) == 0 && Fits(Serve(want), Some(other))
      && Compared(FromCore(other)) != Compared(want)
  {
    SwappedLabelsServe(pod, labels, want);
  }

  /** One pod of a settled pool exchanged for another that serves as well. */
  lemma OtherPodInPlace(l: Workload, w: World, v: World, k: Key)
    requires Holds(l, w) && AllBelow(l, w, 0) && OnlyCell(w, v, k) && v.st.tenantPods == w.st.tenantPods
    requires Fits(DemandAt(l, k), Cell(v, k)) && RankAt(l, v, k) == 0
    ensures Holds(l, v) && AllBelow(l, v, 0)
  {
    forall j ensures Fits(DemandAt(l, j), Cell(v, j)) && RankAt(l, v, j) <= 0 {
      assert Fits(DemandAt(l, j), Cell(w, j)) && RankAt(l, w, j) <= 0;
    }
  }

  lemma SwappedLabelsServe(pod: CorePod, labels: map<string, string>, want: PodSpec)
    requires PodSpecsEqual(FromCore(pod), want) && StringMapEqual(labels, want.labels) && labels != want.labels
    ensures var other := FromCore(pod.(labels := labels));
      PodSpecsEqual(other, want) && Compared(other) != Compared(want)
  {
  }

  // ---------- an undisturbed pass ----------

  lemma {:induction false} DistinctSources(l: Workload, srcs: seq<CorePod>, at: seq<Key>)
    requires Admissible(l) && |at| == |srcs| && (forall i :: 0 <= i < |at| ==> SeenAs(l, srcs[i], at[i]))
    requires forall i, j :: 0 <= i < j < |at| ==> at[i] != at[j]
    ensures DistinctKeys(l.e, srcs)
  {
    forall i, j | 0 <= i < j < |srcs| ensures HostKey(l.e, srcs[i]) != HostKey(l.e, srcs[j]) {
      SeenDemand(l, srcs[i], at[i]);
      SeenDemand(l, srcs[j], at[j]);
    }
  }

  /** The step of a settled cell is to stay. */
  lemma SettledCellStays(l: Workload, w: World, srcs: seq<CorePod>, k: Key)
    requires Admissible(l) && SeesWorkload(l, srcs) && RankAt(l, w, k) == 0
    ensures NextCell(l.e, srcs, k, Cell(w, k)) == Cell(w, k)
  {
    ClaimantMatchesDemand(l, srcs, k);
    if Claimant(l.e, srcs, k).Some? {
      var src := Claimant(l.e, srcs, k).value;
      var i :| 0 <= i < |srcs| && srcs[i] == src;
      assert Seen(l, srcs[i]);
      var tk :| SeenAs(l, src, tk);
      SeenDemand(l, src, tk);
    }
  }

  ghost function PodsStay(): Relation {
    (a: World, b: World) => SamePods(a, b)
  }

  lemma QuietBackground(s: Script)
    requires Quiet(s)
    ensures Background(PodsStay(), s)
  {
    forall v ensures PodsStay()(v, Tick(v, s)) {
      assert s.env(v.calls) == [];
    }
    LooksAtPods(PodsStay());
  }

  lemma SamePodsSettled(l: Workload, w: World, v: World)
    requires PodsStay()(w, v) && Holds(l, w) && AllBelow(l, w, 0)
    ensures TenantHolds(l, v) && AllBelow(l, v, 0)
  {
    forall k ensures RankAt(l, v, k) <= 0 {
      assert RankAt(l, w, k) <= 0;
    }
  }

  /** Nothing else happening, a pass over a settled pool changes no host pod, even if it is cut short. */
  lemma SettledPassIsIdle(l: Workload, w: World, s: Script)
    requires Admissible(l) && Holds(l, w) && Settled(l, w) && Quiet(s) && Orderly(s)
    ensures Pass(w, s, l.e, l.nodes).p.w.st.hostPods == w.st.hostPods
  {
    QuietBackground(s);
    var v, srcs := PassShape(PodsStay(), w, s, l.e, l.nodes);
    var f := Pass(w, s, l.e, l.nodes);
    if f == SyncAndSweep(v, s, l.e, srcs) {
      RankZeroMeansSettled(l, w);
      SamePodsSettled(l, w, v);
      var at := SourcesSeeWorkload(l, v, s);
      SettledLoopsAreIdle(l, v, s, srcs, if ReadyNames(l.nodes) == {} then [] else at);
    }
  }

  lemma SettledLoopsAreIdle(l: Workload, v: World, s: Script, srcs: seq<CorePod>, at: seq<Key>)
    requires Admissible(l) && AllBelow(l, v, 0) && Quiet(s) && Orderly(s) && SeesWorkload(l, srcs)
    requires |at| == |srcs| && (forall i :: 0 <= i < |at| ==> SeenAs(l, srcs[i], at[i]))
    requires forall i, j :: 0 <= i < j < |at| ==> at[i] != at[j]
    ensures SyncAndSweep(v, s, l.e, srcs).p.w.st.hostPods == v.st.hostPods
  {
    DistinctSources(l, srcs, at);
    PassActsPointwise(v, s, l.e, srcs);
    var f := SyncAndSweep(v, s, l.e, srcs);
    forall k ensures Cell(f.p.w, k) == Cell(v, k) {
      assert RankAt(l, v, k) <= 0;
      SettledCellStays(l, v, srcs, k);
      assert Applied(v, f, k, NextCell(l.e, srcs, k, Cell(v, k)));
    }
    SameCells(f.p.w, v);
  }

  lemma SameCells(a: World, b: World)
    requires forall k :: Cell(a, k) == Cell(b, k)
    ensures a.st.hostPods == b.st.hostPods
  {
    forall k ensures k in a.st.hostPods <==> k in b.st.hostPods {
      assert Cell(a, k) == Cell(b, k);
    }
    forall k | k in a.st.hostPods ensures a.st.hostPods[k] == b.st.hostPods[k] {
      assert Cell(a, k) == Cell(b, k);
    }
  }

  // ---------- what a pass over a settled pool reports ----------

  function FinishedCount(srcs: seq<CorePod>): nat {
    if srcs == [] then 0 else (if IsTerminal(srcs[0]) then 1 else 0) + FinishedCount(srcs[1..])
  }

  ghost function FinishedSources(l: Workload): set<Key> {
    set tk | tk in l.finished && IsSourceKey(l, tk)
  }

  ghost function FinishedAmong(l: Workload, at: seq<Key>): set<Key> {
    set tk | tk in at && tk in l.finished
  }

  lemma {:induction false} CountFinished(l: Workload, srcs: seq<CorePod>, at: seq<Key>)
    requires |at| == |srcs| && (forall i :: 0 <= i < |at| ==> SeenAs(l, srcs[i], at[i]))
    requires forall i, j :: 0 <= i < j < |at| ==> at[i] != at[j]
    ensures FinishedCount(srcs) == |FinishedAmong(l, at)|
    decreases |srcs|
  {
    if srcs != [] {
      CountFinished(l, srcs[1..], at[1..]);
      assert SeenAs(l, srcs[0], at[0]);
      assert at == [at[0]] + at[1..] && at[0] !in at[1..];
      var rest := FinishedAmong(l, at[1..]);
      assert FinishedAmong(l, at) == if IsTerminal(srcs[0]) then rest + {at[0]} else rest;
    }
  }

  /** In a settled world a running source's pod is found in place. */
  lemma EnsureFindsPod(l: Workload, w: World, s: Script, src: CorePod)
    requires Holds(l, w) && RankAt(l, w, HostKey(l.e, src)) == 0 && CalmScript(l, s) && ServesFor(l, src)
    ensures var r := EnsureHostPod(w, s, Wanted(l.e, src));
      r.w == Tick(w, s) && !r.created && !r.deleted && (r.verdict.Fine? || r.verdict.ApiError?)
  {
    RankStaysZero(l, w, s, HostKey(l.e, src));
    FoundInPlace(w, s, Wanted(l.e, src));
  }

  lemma RankStaysZero(l: Workload, w: World, s: Script, k: Key)
    requires Holds(l, w) && RankAt(l, w, k) == 0 && CalmScript(l, s)
    ensures RankAt(l, Tick(w, s), k) == 0
  {
    CalmBackground(l, s);
    assert Keeps(l)(w, Tick(w, s));
    NoWorseMeans(l, w, Tick(w, s));
  }

  lemma FoundInPlace(w: World, s: Script, spec: PodSpec)
    requires var v := Tick(w, s); Serves(v, Key(spec.ns, spec.name), spec)
    ensures var r := EnsureHostPod(w, s, spec);
      r.w == Tick(w, s) && !r.created && !r.deleted && (r.verdict.Fine? || r.verdict.ApiError?)
  {
  }

  ghost predicate Reports(p: Progress, f: Flow, deletions: nat) {
    && f.p.w.log == p.w.log && f.p.c.created == p.c.created
    && p.c.deleted <= f.p.c.deleted <= p.c.deleted + deletions
    && (f.Next? ==> f.p.c.deleted == p.c.deleted + deletions)
  }

  lemma ReportsThen(p: Progress, g: Flow, f: Flow, n: nat, m: nat)
    requires Reports(p, g, n) && g.Next? && Reports(g.p, f, m)
    ensures Reports(p, f, n + m)
  {
  }

  lemma MirrorAndReapReports(p: Progress, s: Script, e: Engine, src: CorePod)
    ensures Reports(p, MirrorAndReap(p, s, e, src), if IsTerminal(src) then 1 else 0)
  {
  }

  lemma EnsureAndMirrorReports(l: Workload, p: Progress, s: Script, src: CorePod)
    requires Holds(l, p.w) && AllBelow(l, p.w, 0) && CalmScript(l, s) && ServesFor(l, src) && !IsTerminal(src)
    ensures Reports(p, EnsureAndMirror(p, s, l.e, src), 0)
  {
    assert RankAt(l, p.w, HostKey(l.e, src)) <= 0;
    EnsureFindsPod(l, p.w, s, src);
    MirrorAndReapReports(p.(w := Tick(p.w, s)), s, l.e, src);
  }

  lemma SyncPodReports(l: Workload, p: Progress, s: Script, src: CorePod, tk: Key)
    requires Admissible(l) && Holds(l, p.w) && AllBelow(l, p.w, 0) && CalmScript(l, s) && SeenAs(l, src, tk)
    ensures Reports(p, SyncPod(p, s, l.e, src), if IsTerminal(src) then 1 else 0)
  {
    SeenDemand(l, src, tk);
    var (w1, failure) := SyncResources(Fresh(p.w), s, l.e, RefsOf(src));
    CopyCountsNothing(Fresh(p.w), s, l.e, RefsOf(src));
    var q := p.(w := w1, desired := p.desired + {KeyForPod(HostKey(l.e, src))});
    if failure.None? {
      if IsTerminal(src) {
        MirrorAndReapReports(q, s, l.e, src);
      } else {
        StillSettledAfterCopy(l, p.w, s, RefsOf(src));
        EnsureAndMirrorReports(l, q, s, src);
      }
    }
  }

  lemma StillSettledAfterCopy(l: Workload, w: World, s: Script, refs: seq<ResourceRef>)
    requires Holds(l, w) && AllBelow(l, w, 0) && CalmScript(l, s)
    ensures var w1 := SyncResources(Fresh(w), s, l.e, refs).0; Holds(l, w1) && AllBelow(l, w1, 0)
  {
    CalmBackground(l, s);
    assert SameStores(w, Fresh(w));
    SyncResourcesWalk(Keeps(l), Fresh(w), s, l.e, refs);
    var w1 := SyncResources(Fresh(w), s, l.e, refs).0;
    assert Keeps(l)(w, w1);
    NoWorseMeans(l, w, w1);
    BelowAfter(l, w, w1, 0);
  }

  lemma FirstSourceReports(l: Workload, p: Progress, s: Script, srcs: seq<CorePod>)
    requires Admissible(l) && Holds(l, p.w) && AllBelow(l, p.w, 0) && CalmScript(l, s) && AllSeen(l, srcs) && srcs != []
    ensures var g := SyncPod(p, s, l.e, srcs[0]);
      Reports(p, g, if IsTerminal(srcs[0]) then 1 else 0) && Holds(l, g.p.w) && AllBelow(l, g.p.w, 0)
  {
    assert Seen(l, srcs[0]);
    var tk :| SeenAs(l, srcs[0], tk);
    SyncPodReports(l, p, s, srcs[0], tk);
    StillSettledAfterSource(l, p, s, srcs[0], tk);
  }

  lemma {:induction false} SyncPodsReport(l: Workload, p: Progress, s: Script, srcs: seq<CorePod>)
    requires Admissible(l) && Holds(l, p.w) && AllBelow(l, p.w, 0) && CalmScript(l, s) && AllSeen(l, srcs)
    ensures Reports(p, SyncPods(p, s, l.e, srcs), FinishedCount(srcs))
    decreases |srcs|
  {
    if srcs != [] {
      FirstSourceReports(l, p, s, srcs);
      var g := SyncPod(p, s, l.e, srcs[0]);
      if g.Next? {
        SyncPodsReport(l, g.p, s, srcs[1..]);
        ReportsThen(p, g, SyncPods(g.p, s, l.e, srcs[1..]), if IsTerminal(srcs[0]) then 1 else 0, FinishedCount(srcs[1..]));
      }
    }
  }

  lemma StillSettledAfterSource(l: Workload, p: Progress, s: Script, src: CorePod, tk: Key)
    requires Admissible(l) && Holds(l, p.w) && AllBelow(l, p.w, 0) && CalmScript(l, s) && SeenAs(l, src, tk)
    ensures var f := SyncPod(p, s, l.e, src); Holds(l, f.p.w) && AllBelow(l, f.p.w, 0)
  {
    CalmBackground(l, s);
    SourceIsProgress(l, s, src, tk);
    SyncPodWalk(Keeps(l), p, s, l.e, src);
    var f := SyncPod(p, s, l.e, src);
    NoWorseMeans(l, p.w, f.p.w);
    BelowAfter(l, p.w, f.p.w, 0);
  }

  lemma {:induction false} DesiredKeysAreNotSwept(p: Progress, s: Script, keys: seq<Key>)
    requires forall k :: k in keys ==> KeyForPod(k) in p.desired
    ensures Sweep(p, s, keys) == Next(p)
    decreases |keys|
  {
    if keys != [] {
      DesiredKeysAreNotSwept(p, s, keys[1..]);
    }
  }

  lemma SettledSweepFindsNothing(l: Workload, p: Progress, s: Script, srcs: seq<CorePod>)
    requires Admissible(l) && Holds(l, p.w) && AllBelow(l, p.w, 0) && CalmScript(l, s)
    requires SeesWorkload(l, srcs) && p.desired == Desired(l.e, srcs)
    ensures Reports(p, SweepListed(p, s, l.e), 0)
  {
    var w1 := Tick(p.w, s);
    CalmBackground(l, s);
    assert Keeps(l)(p.w, w1);
    BelowAfter(l, p.w, w1, 0);
    var listed := Labelled(w1.st, l.e.pool.ns, l.e.pool.name);
    var keys := s.hostOrder(listed);
    assert Enumerates(keys, listed);
    SweptKeysAreNobodys(l, srcs, w1.st, s, keys);
    forall k | k in keys ensures KeyForPod(k) in p.desired {
      var i :| 0 <= i < |keys| && keys[i] == k;
      assert k in listed && RankAt(l, w1, k) <= 0;
    }
    DesiredKeysAreNotSwept(p.(w := w1), s, keys);
  }

  lemma SettledLoopsReport(l: Workload, v: World, s: Script, srcs: seq<CorePod>)
    requires Admissible(l) && Holds(l, v) && AllBelow(l, v, 0) && CalmScript(l, s) && SeesWorkload(l, srcs)
    ensures var p := Progress(v, {}, NoCounts.(sourcePods := |srcs|));
      Reports(p, SyncAndSweep(v, s, l.e, srcs), FinishedCount(srcs))
  {
    var p := Progress(v, {}, NoCounts.(sourcePods := |srcs|));
    var g := SyncPods(p, s, l.e, srcs);
    SyncPodsReport(l, p, s, srcs);
    SweepReportsNothing(l, p, s, srcs);
    ReportsOfLoops(v, s, l.e, srcs, FinishedCount(srcs));
  }

  lemma SweepReportsNothing(l: Workload, p: Progress, s: Script, srcs: seq<CorePod>)
    requires Admissible(l) && Holds(l, p.w) && AllBelow(l, p.w, 0) && CalmScript(l, s) && SeesWorkload(l, srcs)
    requires p.desired == {}
    ensures var g := SyncPods(p, s, l.e, srcs); g.Next? ==> Reports(g.p, SweepListed(g.p, s, l.e), 0)
  {
    var g := SyncPods(p, s, l.e, srcs);
    StillSettledAfterSources(l, p, s, srcs);
    if g.Next? {
      SettledSweepFindsNothing(l, g.p, s, srcs);
    }
  }

  lemma ReportsOfLoops(v: World, s: Script, e: Engine, srcs: seq<CorePod>, n: nat)
    requires var p := Progress(v, {}, NoCounts.(sourcePods := |srcs|)); var g := SyncPods(p, s, e, srcs);
      Reports(p, g, n) && (g.Next? ==> Reports(g.p, SweepListed(g.p, s, e), 0))
    ensures Reports(Progress(v, {}, NoCounts.(sourcePods := |srcs|)), SyncAndSweep(v, s, e, srcs), n)
  {
  }

  lemma StillSettledAfterSources(l: Workload, p: Progress, s: Script, srcs: seq<CorePod>)
    requires Admissible(l) && Holds(l, p.w) && AllBelow(l, p.w, 0) && CalmScript(l, s) && AllSeen(l, srcs)
    ensures var f := SyncPods(p, s, l.e, srcs);
      Holds(l, f.p.w) && AllBelow(l, f.p.w, 0) && (f.Next? ==> f.p.desired == p.desired + Desired(l.e, srcs))
  {
    CalmBackground(l, s);
    SourcesAreProgress(l, s, srcs);
    SyncPodsWalk(Keeps(l), p, s, l.e, srcs);
    var f := SyncPods(p, s, l.e, srcs);
    NoWorseMeans(l, p.w, f.p.w);
    BelowAfter(l, p.w, f.p.w, 0);
  }

  /**
   * A pass over a settled pool keeps it settled and creates nothing, whatever calm steps surround its
   * calls. Completed, it reports one deletion for each finished source, although there is nothing to delete.
   */
  lemma SettledPassReports(l: Workload, w: World, s: Script)
    requires Admissible(l) && Holds(l, w) && Settled(l, w) && CalmScript(l, s)
    ensures var f := Pass(w, s, l.e, l.nodes);
      && Settled(l, f.p.w) && Holds(l, f.p.w) && f.p.w.log == w.log && f.p.c.created == 0
      && f.p.c.deleted <= |FinishedSources(l)| && (f.Next? ==> f.p.c.deleted == |FinishedSources(l)|)
  {
    RankZeroMeansSettled(l, w);
    PassMakesProgress(l, w, s);
    var f := Pass(w, s, l.e, l.nodes);
    NoWorseMeans(l, w, f.p.w);
    BelowAfter(l, w, f.p.w, 0);
    RankZeroMeansSettled(l, f.p.w);
    SettledCounters(l, w, s);
  }

  lemma SettledCounters(l: Workload, w: World, s: Script)
    requires Admissible(l) && Holds(l, w) && AllBelow(l, w, 0) && CalmScript(l, s)
    ensures var f := Pass(w, s, l.e, l.nodes);
      && f.p.w.log == w.log && f.p.c.created == 0
      && f.p.c.deleted <= |FinishedSources(l)| && (f.Next? ==> f.p.c.deleted == |FinishedSources(l)|)
  {
    CalmBackground(l, s);
    var v, srcs := PassShape(Keeps(l), w, s, l.e, l.nodes);
    var f := Pass(w, s, l.e, l.nodes);
    if f == SyncAndSweep(v, s, l.e, srcs) {
      NoWorseMeans(l, w, v);
      BelowAfter(l, w, v, 0);
      var at := SourcesSeeWorkload(l, v, s);
      CountSources(l, srcs, if ReadyNames(l.nodes) == {} then [] else at);
      SettledLoopsReport(l, v, s, srcs);
    }
  }

  lemma CountSources(l: Workload, srcs: seq<CorePod>, at: seq<Key>)
    requires |at| == |srcs| && (forall i :: 0 <= i < |at| ==> SeenAs(l, srcs[i], at[i]))
    requires forall i, j :: 0 <= i < j < |at| ==> at[i] != at[j]
    requires forall tk :: IsSourceKey(l, tk) ==> tk in at
    ensures FinishedCount(srcs) == |FinishedSources(l)|
  {
    CountFinished(l, srcs, at);
    forall tk ensures tk in FinishedAmong(l, at) <==> tk in FinishedSources(l) {
      if tk in at {
        var i :| 0 <= i < |at| && at[i] == tk;
        assert SeenAs(l, srcs[i], at[i]);
      }
    }
    assert FinishedAmong(l, at) == FinishedSources(l);
  }
}
