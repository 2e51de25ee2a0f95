/** Repeated passes settle: aborted attempts, slow deletions and outside steps between API calls never undo progress. */
module Settling {
  import opened Lists
  import opened PodModel
  import opened NodeModel
  import opened CorePods
  import opened Drift
  import opened Clusters
  import opened Execution
  import opened PassEffect
  import opened Convergence
  import opened Walks

  // ---------- workloads and how far a host is from them ----------

  /** A fixed set of tenant pods on a fixed set of ready nodes; the ones in `finished` have run to their end. */
  datatype Workload = Workload(e: Engine, pods: map<Key, CorePod>, nodes: seq<VNode>, finished: set<Key>)

  ghost predicate IsSourceKey(l: Workload, tk: Key) {
    SourceAt(l.pods, ReadyNames(l.nodes), tk)
  }

  ghost predicate Admissible(l: Workload) {
    && l.e.pool.ns != ""
    && Coherent(l.pods)
    && DistinctClaims(l.e, l.pods, ReadyNames(l.nodes))
    && forall tk :: IsSourceKey(l, tk) && tk !in l.finished ==> Storable(Wanted(l.e, l.pods[tk]))
  }

  ghost predicate Claims(l: Workload, tk: Key, k: Key) {
    IsSourceKey(l, tk) && HostKey(l.e, l.pods[tk]) == k
  }

  /** What the workload asks of a host key. */
  datatype Demand = Nobody | Serve(spec: PodSpec) | Retire

  ghost function DemandOf(l: Workload, tk: Key): Demand
    requires tk in l.pods
  {
    if tk in l.finished then Retire else Serve(Wanted(l.e, l.pods[tk]))
  }

  ghost function DemandAt(l: Workload, k: Key): Demand {
    if tk :| Claims(l, tk, k) then DemandOf(l, tk) else Nobody
  }

  lemma DemandIs(l: Workload, tk: Key, k: Key)
    requires Admissible(l) && Claims(l, tk, k)
    ensures DemandAt(l, k) == DemandOf(l, tk)
  {
  }

  /** Distance from settled: 0 settled, 1 missing, 2 being deleted, 3 to be deleted. */
  ghost function Rank(e: Engine, d: Demand, k: Key, cur: Option<CorePod>): nat {
    match d
    case Serve(spec) =>
      if cur.None? then 1
      else if cur.value.deleting then 2
      else if PodSpecsEqual(FromCore(cur.value), spec) then 0 else 3
    case Retire =>
      if cur.None? then 0 else if cur.value.deleting then 2 else 3
    case Nobody =>
      if cur.None? || k.ns != e.pool.ns || !HasPoolLabels(cur.value, e.pool.name) then 0
      else if cur.value.deleting then 2 else 3
  }

  /** A host pod has finished exactly if its source has. */
  ghost predicate Fits(d: Demand, cur: Option<CorePod>) {
    cur.Some? && !d.Nobody? ==> (IsTerminal(cur.value) <==> d.Retire?)
  }

  /** A live pod that passes the drift comparison is the image of the spec in every compared field. */
  ghost predicate Clear(d: Demand, cur: Option<CorePod>) {
    cur.Some? && d.Serve? && !cur.value.deleting && PodSpecsEqual(FromCore(cur.value), d.spec) ==>
      Compared(FromCore(cur.value)) == Compared(d.spec)
  }

  ghost function RankAt(l: Workload, w: World, k: Key): nat
  {
    Rank(l.e, DemandAt(l, k), k, Cell(w, k))
  }

  ghost predicate AllBelow(l: Workload, w: World, bound: nat)
  {
    forall k :: RankAt(l, w, k) <= bound
  }

  /** The tenant still holds the workload, up to statuses. */
  ghost predicate TenantHolds(l: Workload, w: World) {
    && w.st.tenantPods.Keys == l.pods.Keys
    && (forall tk :: tk in l.pods ==> w.st.tenantPods[tk] == l.pods[tk].(status := w.st.tenantPods[tk].status))
    && (forall tk :: IsSourceKey(l, tk) ==> (IsTerminal(w.st.tenantPods[tk]) <==> tk in l.finished))
  }

  ghost predicate Holds(l: Workload, w: World)
  {
    TenantHolds(l, w) && forall k :: Fits(DemandAt(l, k), Cell(w, k))
  }

  ghost predicate AllClear(l: Workload, w: World)
  {
    forall k :: Clear(DemandAt(l, k), Cell(w, k))
  }

  /** Every running source is served, a finished one has no host pod, and the pool has no other host pod. */
  ghost predicate Settled(l: Workload, w: World) {
    && (forall tk :: IsSourceKey(l, tk) && tk !in l.finished ==>
          Serves(w, HostKey(l.e, l.pods[tk]), Wanted(l.e, l.pods[tk])))
    && (forall tk :: IsSourceKey(l, tk) && tk in l.finished ==> HostKey(l.e, l.pods[tk]) !in w.st.hostPods)
    && (forall k :: Ours(l.e, w, k) ==> exists tk :: Claims(l, tk, k))
  }

  /** Every running source's host pod is its image in every compared field. */
  ghost predicate Image(l: Workload, w: World) {
    forall tk :: IsSourceKey(l, tk) && tk !in l.finished ==> IsImage(l, w, tk)
  }

  ghost predicate IsImage(l: Workload, w: World, tk: Key)
    requires IsSourceKey(l, tk)
  {
    var k := HostKey(l.e, l.pods[tk]);
    Live(w, k) && Compared(FromCore(w.st.hostPods[k])) == Compared(Wanted(l.e, l.pods[tk]))
  }

  lemma RankZeroMeansSettled(l: Workload, w: World)
    requires Admissible(l)
    ensures AllBelow(l, w, 0) <==> Settled(l, w)
  {
    forall tk | IsSourceKey(l, tk)
      ensures var k := HostKey(l.e, l.pods[tk]);
        RankAt(l, w, k) <= 0 <==>
        if tk in l.finished then k !in w.st.hostPods else Serves(w, k, Wanted(l.e, l.pods[tk]))
    {
      assert Claims(l, tk, HostKey(l.e, l.pods[tk]));
    }
    if AllBelow(l, w, 0) {
      forall k | Ours(l.e, w, k) ensures exists tk :: Claims(l, tk, k) {
        assert RankAt(l, w, k) <= 0;
      }
    } else {
      var k :| RankAt(l, w, k) > 0;
      if DemandAt(l, k).Nobody? {
        assert Ours(l.e, w, k);
      } else {
        var tk :| Claims(l, tk, k);
      }
    }
  }

  /** A settled pool is the image of the workload if and only if the comparison is not fooled anywhere. */
  lemma SettledIsImageIff(l: Workload, w: World)
    requires Admissible(l) && Settled(l, w)
    ensures AllClear(l, w) <==> Image(l, w)
  {
    if AllClear(l, w) {
      forall tk | IsSourceKey(l, tk) && tk !in l.finished ensures IsImage(l, w, tk) {
        assert Clear(DemandAt(l, HostKey(l.e, l.pods[tk])), Cell(w, HostKey(l.e, l.pods[tk])));
        ClearSourceIsImage(l, w, tk);
      }
    }
    if Image(l, w) {
      forall k ensures Clear(DemandAt(l, k), Cell(w, k)) {
        if tk :| Claims(l, tk, k) {
          assert tk !in l.finished ==> IsImage(l, w, tk);
          DemandIs(l, tk, k);
        }
      }
    }
  }

  lemma ClearSourceIsImage(l: Workload, w: World, tk: Key)
    requires Admissible(l) && Settled(l, w) && IsSourceKey(l, tk) && tk !in l.finished
    requires var k := HostKey(l.e, l.pods[tk]); Clear(DemandAt(l, k), Cell(w, k))
    ensures IsImage(l, w, tk)
  {
    var k := HostKey(l.e, l.pods[tk]);
    assert Serves(w, k, Wanted(l.e, l.pods[tk]));
    DemandIs(l, tk, k);
  }

  /** Host pods without empty label and selector values fool nobody. */
  lemma NoEmptyValuesAreClear(l: Workload, w: World)
    requires forall k :: DemandAt(l, k).Serve? && k in w.st.hostPods ==>
      NoEmptyValue(w.st.hostPods[k].labels) && NoEmptyValue(w.st.hostPods[k].nodeSelector)
    ensures AllClear(l, w)
  {
    forall k ensures Clear(DemandAt(l, k), Cell(w, k)) {
      if DemandAt(l, k).Serve? && k in w.st.hostPods {
        DriftIsExactFor(FromCore(w.st.hostPods[k]), DemandAt(l, k).spec);
      }
    }
  }

  // ---------- steps that undo nothing ----------

  ghost predicate CellNoWorse(e: Engine, d: Demand, k: Key, a: Option<CorePod>, b: Option<CorePod>) {
    Fits(d, b) && Rank(e, d, k, b) <= Rank(e, d, k, a) && (Clear(d, a) <==> Clear(d, b))
  }

  ghost predicate NoWorse(l: Workload, a: World, b: World)
  {
    TenantHolds(l, b) && forall k :: CellNoWorse(l.e, DemandAt(l, k), k, Cell(a, k), Cell(b, k))
  }

  /** `NoWorse` as a relation along which a pass can walk. */
  ghost function Keeps(l: Workload): Relation {
    (a: World, b: World) => Holds(l, a) ==> NoWorse(l, a, b)
  }

  lemma NoWorseTrans(l: Workload, a: World, b: World, c: World)
    requires NoWorse(l, a, b) && NoWorse(l, b, c)
    ensures NoWorse(l, a, c)
  {
    forall k ensures CellNoWorse(l.e, DemandAt(l, k), k, Cell(a, k), Cell(c, k)) {
      assert CellNoWorse(l.e, DemandAt(l, k), k, Cell(a, k), Cell(b, k));
      assert CellNoWorse(l.e, DemandAt(l, k), k, Cell(b, k), Cell(c, k));
    }
  }

  lemma NoWorseMeans(l: Workload, a: World, b: World)
    requires NoWorse(l, a, b)
    ensures Holds(l, b) && (forall k :: RankAt(l, b, k) <= RankAt(l, a, k)) && (AllClear(l, a) <==> AllClear(l, b))
  {
    forall k
      ensures Fits(DemandAt(l, k), Cell(b, k)) && RankAt(l, b, k) <= RankAt(l, a, k)
      ensures Clear(DemandAt(l, k), Cell(a, k)) <==> Clear(DemandAt(l, k), Cell(b, k))
    {
      assert CellNoWorse(l.e, DemandAt(l, k), k, Cell(a, k), Cell(b, k));
    }
  }

  /** Same pods on both sides. */
  lemma SamePodsNoWorse(l: Workload, a: World, b: World)
    requires Holds(l, a) && a.st.hostPods == b.st.hostPods && a.st.tenantPods == b.st.tenantPods
    ensures NoWorse(l, a, b)
  {
    forall k ensures CellNoWorse(l.e, DemandAt(l, k), k, Cell(a, k), Cell(b, k)) {
      assert Fits(DemandAt(l, k), Cell(a, k));
    }
  }

  /** One host cell changes, and changes for the better. */
  lemma OneCellNoWorse(l: Workload, a: World, b: World, k: Key)
    requires Holds(l, a) && OnlyCell(a, b, k) && a.st.tenantPods == b.st.tenantPods
    requires CellNoWorse(l.e, DemandAt(l, k), k, Cell(a, k), Cell(b, k))
    ensures NoWorse(l, a, b)
  {
    forall j ensures CellNoWorse(l.e, DemandAt(l, j), j, Cell(a, j), Cell(b, j)) {
      assert Fits(DemandAt(l, j), Cell(a, j));
    }
  }

  // ---------- the outside world ----------

  /**
   * What may happen between any two calls without upsetting the workload: deletions complete, host pods
   * report, tenant data changes, other parties work on their own host objects. Not: eviction of a
   * serving pod, a pod finishing, changes of the tenant's pods.
   */
  ghost predicate Calm(l: Workload, a: EnvAction)
  {
    match a
    case HostStatus(k, status) => DemandAt(l, k).Serve? ==> status.phase != PhaseSucceeded && status.phase != PhaseFailed
    case HostEvicted(k) => !DemandAt(l, k).Serve?
    case HostRemoved(_) => true
    case TenantResources(_, _) => true
    case HostCreated(k, pod) => DemandAt(l, k).Nobody? && !(k.ns == l.e.pool.ns && HasPoolLabels(pod, l.e.pool.name))
    case HostWritten(_, _, _) => true
    case _ => false
  }

  ghost predicate CalmScript(l: Workload, s: Script)
  {
    && Orderly(s)
    && forall n: nat, i :: 0 <= i < |s.env(n)| ==> Calm(l, s.env(n)[i])
  }

  /** The pod at a key has at most changed status, or its requested deletion has completed. */
  ghost predicate Still(a: Option<CorePod>, b: Option<CorePod>) {
    match b
    case None => a.None? || a.value.deleting
    case Some(pod) => a.Some? && pod == a.value.(status := pod.status)
  }

  /** The one host cell an outside step can touch. */
  ghost function Touched(a: EnvAction): Key {
    match a
    case HostStatus(k, _) => k
    case HostEvicted(k) => k
    case HostRemoved(k) => k
    case HostCreated(k, _) => k
    case _ => Key("", "")
  }

  lemma CalmTouches(w: World, a: EnvAction)
    requires !a.TenantCreated? && !a.TenantBound? && !a.TenantEdited? && !a.TenantDeleted? && !a.TenantRemoved?
    ensures OnlyCell(w, Acted(w, a), Touched(a)) && Acted(w, a).st.tenantPods == w.st.tenantPods
  {
  }

  lemma CalmCell(l: Workload, w: World, a: EnvAction)
    requires Fits(DemandAt(l, Touched(a)), Cell(w, Touched(a))) && Calm(l, a)
    ensures var v := Acted(w, a); var k := Touched(a);
      && CellNoWorse(l.e, DemandAt(l, k), k, Cell(w, k), Cell(v, k))
      && (DemandAt(l, k).Serve? ==> Still(Cell(w, k), Cell(v, k)))
  {
  }

  lemma CalmStep(l: Workload, w: World, a: EnvAction)
    requires Calm(l, a)
    ensures Keeps(l)(w, Acted(w, a))
  {
    CalmTouches(w, a);
    if Holds(l, w) {
      assert Fits(DemandAt(l, Touched(a)), Cell(w, Touched(a)));
      CalmCell(l, w, a);
      OneCellNoWorse(l, w, Acted(w, a), Touched(a));
    }
  }

  /** At a key that is to be served, the pod in place changes status at most, or completes its deletion. */
  ghost function Serving(l: Workload, k: Key): Relation {
    (a: World, b: World) => Holds(l, a) ==> Holds(l, b) && Still(Cell(a, k), Cell(b, k))
  }

  lemma CalmServing(l: Workload, w: World, a: EnvAction, k: Key)
    requires Calm(l, a) && DemandAt(l, k).Serve?
    ensures Serving(l, k)(w, Acted(w, a))
  {
    CalmStep(l, w, a);
    if Holds(l, w) {
      NoWorseMeans(l, w, Acted(w, a));
      CalmStill(l, w, a, k);
    }
  }

  lemma CalmStill(l: Workload, w: World, a: EnvAction, k: Key)
    requires Holds(l, w) && Calm(l, a) && DemandAt(l, k).Serve?
    ensures Still(Cell(w, k), Cell(Acted(w, a), k))
  {
    assert Fits(DemandAt(l, Touched(a)), Cell(w, Touched(a)));
    if k == Touched(a) {
      CalmCell(l, w, a);
    } else {
      CalmTouches(w, a);
    }
  }

  lemma ServingIsPreorder(l: Workload, k: Key)
    ensures Preorder(Serving(l, k)) && IgnoresCalls(Serving(l, k))
  {
    forall a, b | SamePods(a, b) ensures Serving(l, k)(a, b) {
      if Holds(l, a) {
        SamePodsNoWorse(l, a, b);
        NoWorseMeans(l, a, b);
      }
    }
    LooksAtPods(Serving(l, k));
  }

  lemma TickServing(l: Workload, w: World, s: Script, k: Key)
    requires CalmScript(l, s) && DemandAt(l, k).Serve?
    ensures Serving(l, k)(w, Tick(w, s))
  {
    ServingIsPreorder(l, k);
    forall i, v: World | 0 <= i < |s.env(w.calls)| ensures Serving(l, k)(v, Acted(v, s.env(w.calls)[i])) {
      CalmServing(l, v, s.env(w.calls)[i], k);
    }
    TickWalk(Serving(l, k), w, s);
  }

  lemma KeepsIsPreorder(l: Workload)
    ensures Preorder(Keeps(l)) && IgnoresReads(Keeps(l)) && IgnoresCalls(Keeps(l)) && PutLaw(Keeps(l))
  {
    forall a, b | SamePods(a, b) ensures Keeps(l)(a, b) {
      if Holds(l, a) {
        SamePodsNoWorse(l, a, b);
      }
    }
    forall a, b, c | Keeps(l)(a, b) && Keeps(l)(b, c) ensures Keeps(l)(a, c) {
      if Holds(l, a) {
        NoWorseMeans(l, a, b);
        NoWorseTrans(l, a, b, c);
      }
    }
    forall a ensures Keeps(l)(a, a) {
      assert SamePods(a, a);
    }
    LooksAtPods(Keeps(l));
  }

  lemma CalmBackground(l: Workload, s: Script)
    requires CalmScript(l, s)
    ensures Background(Keeps(l), s)
  {
    KeepsIsPreorder(l);
    forall w: World ensures Keeps(l)(w, Tick(w, s)) {
      forall i, v: World | 0 <= i < |s.env(w.calls)| ensures Keeps(l)(v, Acted(v, s.env(w.calls)[i])) {
        CalmStep(l, v, s.env(w.calls)[i]);
      }
      TickWalk(Keeps(l), w, s);
    }
  }

  // ---------- the calls of a pass ----------

  /** What a completed pass makes of a rank. */
  function PassRank(r: nat): nat {
    if r >= 3 then 2 else if r == 1 then 0 else r
  }

  ghost predicate Stepped(l: Workload, a: World, b: World, k: Key) {
    RankAt(l, b, k) <= PassRank(RankAt(l, a, k))
  }

  /** The milestone of a key: a step nearer to settled, with nothing undone elsewhere. */
  ghost function Reaching(l: Workload, k: Key): Relation {
    (a: World, b: World) => Holds(l, a) ==> NoWorse(l, a, b) && Stepped(l, a, b, k)
  }

  lemma SteppedLater(l: Workload, a: World, b: World, c: World, k: Key)
    requires NoWorse(l, a, b) && NoWorse(l, b, c)
    ensures Stepped(l, a, b, k) || Stepped(l, b, c, k) ==> Stepped(l, a, c, k)
  {
    assert CellNoWorse(l.e, DemandAt(l, k), k, Cell(a, k), Cell(b, k));
    assert CellNoWorse(l.e, DemandAt(l, k), k, Cell(b, k), Cell(c, k));
  }

  lemma ReachingIsMilestone(l: Workload, k: Key)
    ensures Milestone(Keeps(l), Reaching(l, k))
  {
    forall a, b, c | Keeps(l)(a, b) && Reaching(l, k)(b, c) ensures Reaching(l, k)(a, c) {
      if Holds(l, a) {
        NoWorseMeans(l, a, b);
        NoWorseTrans(l, a, b, c);
        SteppedLater(l, a, b, c, k);
      }
    }
    forall a, b, c | Reaching(l, k)(a, b) && Keeps(l)(b, c) ensures Reaching(l, k)(a, c) {
      if Holds(l, a) {
        NoWorseMeans(l, a, b);
        NoWorseTrans(l, a, b, c);
        SteppedLater(l, a, b, c, k);
      }
    }
  }

  ghost predicate ServesFor(l: Workload, src: CorePod) {
    DemandAt(l, HostKey(l.e, src)) == Serve(Wanted(l.e, src)) && Storable(Wanted(l.e, src))
  }

  lemma CreatedCell(l: Workload, k: Key, src: CorePod)
    requires ServesFor(l, src)
    ensures var pod := Some(Stored(Wanted(l.e, src))); var d := Serve(Wanted(l.e, src));
      CellNoWorse(l.e, d, k, None, pod) && Rank(l.e, d, k, pod) == 0
  {
    ReadBackMatchesExactly(src, Opts(l.e, src.nodeName));
  }

  lemma CreateReaches(l: Workload, w: World, src: CorePod)
    requires ServesFor(l, src) && HostKey(l.e, src) !in w.st.hostPods
    ensures Reaching(l, HostKey(l.e, src))(w, Create(w, Wanted(l.e, src)))
  {
    var k := HostKey(l.e, src);
    var v := Create(w, Wanted(l.e, src));
    CreatedCell(l, k, src);
    assert OnlyCell(w, v, k) && Cell(v, k) == Some(Stored(Wanted(l.e, src)));
    if Holds(l, w) {
      OneCellNoWorse(l, w, v, k);
    }
  }

  lemma MarkedCell(e: Engine, d: Demand, k: Key, cur: Option<CorePod>)
    requires Fits(d, cur) && (d.Serve? ==> Rank(e, d, k, cur) > 1)
    ensures CellNoWorse(e, d, k, cur, Doomed(cur)) && Rank(e, d, k, Doomed(cur)) <= PassRank(Rank(e, d, k, cur))
  {
  }

  /** A deletion request is progress at every key that does not hold the pod it should. */
  lemma MarkReaches(l: Workload, w: World, k: Key)
    requires DemandAt(l, k).Serve? ==> RankAt(l, w, k) > 1
    ensures Reaching(l, k)(w, Marked(w, k))
  {
    var v := Marked(w, k);
    assert OnlyCell(w, v, k) && Cell(v, k) == Doomed(Cell(w, k));
    if Holds(l, w) {
      assert Fits(DemandAt(l, k), Cell(w, k));
      MarkedCell(l.e, DemandAt(l, k), k, Cell(w, k));
      OneCellNoWorse(l, w, v, k);
    }
  }

  /** A pod that is live and different stays so until the engine deletes it. */
  lemma StillDrifted(l: Workload, src: CorePod, a: World, b: World)
    requires ServesFor(l, src) && Drifted(a, Wanted(l.e, src)) && Still(Cell(a, HostKey(l.e, src)), Cell(b, HostKey(l.e, src)))
    ensures RankAt(l, b, HostKey(l.e, src)) == 3
  {
  }

  lemma DeleteDriftedReaches(l: Workload, w: World, s: Script, src: CorePod)
    requires CalmScript(l, s) && ServesFor(l, src) && Drifted(w, Wanted(l.e, src))
    ensures Reaching(l, HostKey(l.e, src))(w, Marked(Tick(w, s), HostKey(l.e, src)))
  {
    var k := HostKey(l.e, src);
    if Holds(l, w) {
      TickServing(l, w, s, k);
      StillDrifted(l, src, w, Tick(w, s));
      MarkReaches(l, Tick(w, s), k);
      CalmBackground(l, s);
      ReachingIsMilestone(l, k);
      assert Keeps(l)(w, Tick(w, s));
    }
  }

  lemma FoundReaches(l: Workload, w: World, src: CorePod)
    requires ServesFor(l, src) && HostKey(l.e, src) in w.st.hostPods && !Drifted(w, Wanted(l.e, src))
    ensures Reaching(l, HostKey(l.e, src))(w, w)
  {
    if Holds(l, w) {
      SamePodsNoWorse(l, w, w);
    }
  }

  lemma EnsureIsProgress(l: Workload, s: Script, src: CorePod)
    requires CalmScript(l, s) && ServesFor(l, src) && !IsTerminal(src)
    ensures RespectsEnsure(Keeps(l), s, l.e, src) && Reaches(Reaching(l, HostKey(l.e, src)), s, l.e, src)
  {
    var q := Reaching(l, HostKey(l.e, src));
    CalmBackground(l, s);
    ReachingIsMilestone(l, HostKey(l.e, src));
    forall w: World | HostKey(l.e, src) !in w.st.hostPods ensures q(w, Create(w, Wanted(l.e, src))) {
      CreateReaches(l, w, src);
    }
    forall w | Drifted(w, Wanted(l.e, src)) ensures q(w, Marked(Tick(w, s), HostKey(l.e, src))) {
      DeleteDriftedReaches(l, w, s, src);
    }
    forall w: World | HostKey(l.e, src) in w.st.hostPods && !Drifted(w, Wanted(l.e, src)) ensures q(w, w) {
      FoundReaches(l, w, src);
    }
    ReachingKeeps(l, HostKey(l.e, src));
    EnsureByLaws(l, s, src);
  }

  lemma ReachingKeeps(l: Workload, k: Key)
    ensures forall a, b :: Reaching(l, k)(a, b) ==> Keeps(l)(a, b)
  {
  }

  lemma EnsureByLaws(l: Workload, s: Script, src: CorePod)
    requires Background(Keeps(l), s) && Milestone(Keeps(l), Reaching(l, HostKey(l.e, src))) && !IsTerminal(src)
    requires forall a, b :: Reaching(l, HostKey(l.e, src))(a, b) ==> Keeps(l)(a, b)
    requires EnsureMilestone(Reaching(l, HostKey(l.e, src)), s, Wanted(l.e, src))
    ensures RespectsEnsure(Keeps(l), s, l.e, src) && Reaches(Reaching(l, HostKey(l.e, src)), s, l.e, src)
  {
    var r, q := Keeps(l), Reaching(l, HostKey(l.e, src));
    assert EnsureLaws(r, s, Wanted(l.e, src));
    forall w ensures r(w, EnsureHostPod(w, s, Wanted(l.e, src)).w) {
      EnsureWalk(r, w, s, Wanted(l.e, src));
    }
    forall w | !EnsureHostPod(w, s, Wanted(l.e, src)).verdict.ApiError?
      ensures q(w, EnsureHostPod(w, s, Wanted(l.e, src)).w)
    {
      EnsureReaches(r, q, w, s, Wanted(l.e, src));
    }
  }

  lemma DeleteIsProgress(l: Workload, s: Script, k: Key)
    requires CalmScript(l, s) && !DemandAt(l, k).Serve?
    ensures RespectsDelete(Keeps(l), s, k) && ReachesByDelete(Reaching(l, k), s, k)
  {
    CalmBackground(l, s);
    ReachingIsMilestone(l, k);
    forall w: World ensures Keeps(l)(w, DeletePod(w, s, k).0) && (DeletePod(w, s, k).1.None? ==> Reaching(l, k)(w, DeletePod(w, s, k).0)) {
      var v := Tick(w, s);
      assert Keeps(l)(w, v);
      MarkReaches(l, v, k);
      assert Reaching(l, k)(w, Marked(v, k));
    }
  }

  /** A status that fits the source may be written back to it. */
  lemma WriteKeepsTenant(l: Workload, w: World, tk: Key, status: PodStatus)
    requires TenantHolds(l, w) && IsSourceKey(l, tk)
    requires (status.phase == PhaseSucceeded || status.phase == PhaseFailed) <==> tk in l.finished
    ensures tk in w.st.tenantPods && TenantHolds(l, w.(st := WriteStatus(w.st, tk, status)))
  {
  }

  lemma WriteNoWorse(l: Workload, w: World, tk: Key, status: PodStatus)
    requires Holds(l, w) && IsSourceKey(l, tk)
    requires (status.phase == PhaseSucceeded || status.phase == PhaseFailed) <==> tk in l.finished
    ensures tk in w.st.tenantPods && NoWorse(l, w, w.(st := WriteStatus(w.st, tk, status)))
  {
    WriteKeepsTenant(l, w, tk, status);
    var v := w.(st := WriteStatus(w.st, tk, status));
    forall k ensures CellNoWorse(l.e, DemandAt(l, k), k, Cell(w, k), Cell(v, k)) {
      assert Fits(DemandAt(l, k), Cell(w, k));
    }
  }

  lemma MirrorIsProgress(l: Workload, s: Script, tk: Key)
    requires Admissible(l) && CalmScript(l, s) && IsSourceKey(l, tk)
    ensures forall w :: Keeps(l)(w, MirrorStatus(w, s, HostKey(l.e, l.pods[tk]), tk).w)
  {
    var k := HostKey(l.e, l.pods[tk]);
    CalmBackground(l, s);
    DemandIs(l, tk, k);
    forall a, b: World | Keeps(l)(a, b) && k in a.st.hostPods && tk in b.st.tenantPods
      ensures Keeps(l)(a, WrittenBack(a, b, k, tk))
    {
      MirroredStatusFits(l, a, b, tk, k);
    }
    forall w: World ensures Keeps(l)(w, MirrorStatus(w, s, k, tk).w) {
      MirrorWalk(Keeps(l), w, s, k, tk);
    }
  }

  lemma MirroredStatusFits(l: Workload, a: World, b: World, tk: Key, k: Key)
    requires Keeps(l)(a, b) && IsSourceKey(l, tk) && DemandAt(l, k) == DemandOf(l, tk)
    requires k in a.st.hostPods && tk in b.st.tenantPods
    ensures Keeps(l)(a, WrittenBack(a, b, k, tk))
  {
    if Holds(l, a) {
      NoWorseMeans(l, a, b);
      assert Fits(DemandAt(l, k), Cell(a, k));
      var status := StatusFromCore(a.st.hostPods[k].status);
      WriteNoWorse(l, b, tk, status);
      NoWorseTrans(l, a, b, b.(st := WriteStatus(b.st, tk, status)));
    }
  }

  // ---------- a whole pass ----------

  /** `src` is the workload's pod `tk` as a pass saw it. */
  ghost predicate SeenAs(l: Workload, src: CorePod, tk: Key) {
    && IsSourceKey(l, tk) && src == l.pods[tk].(status := src.status)
    && (IsTerminal(src) <==> tk in l.finished)
  }

  lemma SeenDemand(l: Workload, src: CorePod, tk: Key)
    requires Admissible(l) && SeenAs(l, src, tk)
    ensures KeyOf(src) == tk && HostKey(l.e, src) == HostKey(l.e, l.pods[tk])
    ensures if IsTerminal(src) then DemandAt(l, HostKey(l.e, src)).Retire? else ServesFor(l, src)
  {
    DemandIs(l, tk, HostKey(l.e, src));
    assert Wanted(l.e, src) == Wanted(l.e, l.pods[tk]);
  }

  /** Each source's calls undo nothing, and take its key a step further. */
  lemma SourceIsProgress(l: Workload, s: Script, src: CorePod, tk: Key)
    requires Admissible(l) && CalmScript(l, s) && SeenAs(l, src, tk)
    ensures RespectsSource(Keeps(l), s, l.e, src) && Reaches(Reaching(l, HostKey(l.e, src)), s, l.e, src)
  {
    SeenDemand(l, src, tk);
    MirrorIsProgress(l, s, tk);
    if IsTerminal(src) {
      DeleteIsProgress(l, s, HostKey(l.e, src));
    } else {
      EnsureIsProgress(l, s, src);
    }
  }

  ghost predicate Seen(l: Workload, src: CorePod) {
    exists tk :: SeenAs(l, src, tk)
  }

  ghost predicate AllSeen(l: Workload, srcs: seq<CorePod>) {
    forall i :: 0 <= i < |srcs| ==> Seen(l, srcs[i])
  }

  /** The source list of a pass, for any list order: exactly the workload's sources. */
  ghost predicate SeesWorkload(l: Workload, srcs: seq<CorePod>) {
    && AllSeen(l, srcs)
    && forall tk :: IsSourceKey(l, tk) ==> exists i :: 0 <= i < |srcs| && SeenAs(l, srcs[i], tk)
  }

  /** Demanded keys are exactly the keys of the sources. */
  lemma ClaimantMatchesDemand(l: Workload, srcs: seq<CorePod>, k: Key)
    requires Admissible(l) && SeesWorkload(l, srcs)
    ensures Claimant(l.e, srcs, k).Some? <==> !DemandAt(l, k).Nobody?
    ensures !DemandAt(l, k).Nobody? ==> exists i :: 0 <= i < |srcs| && HostKey(l.e, srcs[i]) == k
  {
    if Claimant(l.e, srcs, k).Some? {
      var i :| 0 <= i < |srcs| && srcs[i] == Claimant(l.e, srcs, k).value;
      SourceIsDemanded(l, srcs, i);
    }
    if !DemandAt(l, k).Nobody? {
      var i := DemandHasSource(l, srcs, k);
    }
  }

  lemma SourceIsDemanded(l: Workload, srcs: seq<CorePod>, i: nat)
    requires Admissible(l) && AllSeen(l, srcs) && i < |srcs|
    ensures !DemandAt(l, HostKey(l.e, srcs[i])).Nobody?
  {
    assert Seen(l, srcs[i]);
    var tk :| SeenAs(l, srcs[i], tk);
    SeenDemand(l, srcs[i], tk);
  }

  lemma DemandHasSource(l: Workload, srcs: seq<CorePod>, k: Key) returns (i: nat)
    requires Admissible(l) && SeesWorkload(l, srcs) && !DemandAt(l, k).Nobody?
    ensures i < |srcs| && HostKey(l.e, srcs[i]) == k
  {
    var tk :| Claims(l, tk, k);
    i :| 0 <= i < |srcs| && SeenAs(l, srcs[i], tk);
    SeenDemand(l, srcs[i], tk);
  }

  /** Swept keys: those of the pool that nobody claims. */
  lemma SweptKeysAreNobodys(l: Workload, srcs: seq<CorePod>, st: Stores, s: Script, keys: seq<Key>)
    requires Admissible(l) && SeesWorkload(l, srcs) && CalmScript(l, s)
    requires keys == s.hostOrder(Labelled(st, l.e.pool.ns, l.e.pool.name))
    ensures forall i :: 0 <= i < |keys| ==> (KeyForPod(keys[i]) in Desired(l.e, srcs) <==> !DemandAt(l, keys[i]).Nobody?)
    ensures RespectsSweep(Keeps(l), s, Desired(l.e, srcs), keys)
  {
    assert Enumerates(keys, Labelled(st, l.e.pool.ns, l.e.pool.name));
    forall i | 0 <= i < |keys|
      ensures KeyForPod(keys[i]) in Desired(l.e, srcs) <==> !DemandAt(l, keys[i]).Nobody?
      ensures KeyForPod(keys[i]) !in Desired(l.e, srcs) ==> RespectsDelete(Keeps(l), s, keys[i])
    {
      assert keys[i] in keys;
      DesiredMeansClaimed(l.e, srcs, keys[i]);
      ClaimantMatchesDemand(l, srcs, keys[i]);
      if KeyForPod(keys[i]) !in Desired(l.e, srcs) {
        DeleteIsProgress(l, s, keys[i]);
      }
    }
  }

  lemma SweepListedKeeps(l: Workload, p: Progress, s: Script, srcs: seq<CorePod>)
    requires Admissible(l) && CalmScript(l, s) && SeesWorkload(l, srcs) && p.desired == Desired(l.e, srcs)
    ensures Keeps(l)(p.w, SweepListed(p, s, l.e).p.w)
  {
    var w1 := Tick(p.w, s);
    CalmBackground(l, s);
    assert Keeps(l)(p.w, w1);
    var keys := s.hostOrder(Labelled(w1.st, l.e.pool.ns, l.e.pool.name));
    SweptKeysAreNobodys(l, srcs, w1.st, s, keys);
    SweepWalk(Keeps(l), p.(w := w1), s, keys);
  }

  /** A key that nobody claims and that holds no pod of the pool is settled. */
  lemma NotOursReaches(l: Workload, a: World, b: World, k: Key)
    requires DemandAt(l, k).Nobody? && !Ours(l.e, a, k) && Keeps(l)(a, b)
    ensures Reaching(l, k)(a, b)
  {
    if Holds(l, a) {
      assert CellNoWorse(l.e, DemandAt(l, k), k, Cell(a, k), Cell(b, k));
    }
  }

  lemma SweepListedReaches(l: Workload, p: Progress, s: Script, srcs: seq<CorePod>, k: Key)
    requires Admissible(l) && CalmScript(l, s) && SeesWorkload(l, srcs) && p.desired == Desired(l.e, srcs)
    requires DemandAt(l, k).Nobody?
    ensures var f := SweepListed(p, s, l.e); f.Next? ==> Reaching(l, k)(p.w, f.p.w)
  {
    var w1 := Tick(p.w, s);
    CalmBackground(l, s);
    ReachingIsMilestone(l, k);
    assert Keeps(l)(p.w, w1);
    var listed := Labelled(w1.st, l.e.pool.ns, l.e.pool.name);
    var keys := s.hostOrder(listed);
    SweptKeysAreNobodys(l, srcs, w1.st, s, keys);
    var f := Sweep(p.(w := w1), s, keys);
    assert f.Next? ==> Reaching(l, k)(w1, f.p.w) by {
      if k in listed {
        assert Enumerates(keys, listed);
        var i :| 0 <= i < |keys| && keys[i] == k;
        DeleteIsProgress(l, s, k);
        SweepReaches(Keeps(l), Reaching(l, k), p.(w := w1), s, keys, i);
      } else {
        SweepWalk(Keeps(l), p.(w := w1), s, keys);
        NotOursReaches(l, w1, f.p.w, k);
      }
    }
  }

  lemma SourcesAreProgress(l: Workload, s: Script, srcs: seq<CorePod>)
    requires Admissible(l) && CalmScript(l, s) && AllSeen(l, srcs)
    ensures RespectsSources(Keeps(l), s, l.e, srcs)
  {
    forall i | 0 <= i < |srcs| ensures RespectsSource(Keeps(l), s, l.e, srcs[i]) {
      assert Seen(l, srcs[i]);
      var tk :| SeenAs(l, srcs[i], tk);
      SourceIsProgress(l, s, srcs[i], tk);
    }
  }

  lemma SyncAndSweepKeeps(l: Workload, w: World, s: Script, srcs: seq<CorePod>)
    requires Admissible(l) && CalmScript(l, s) && SeesWorkload(l, srcs)
    ensures Keeps(l)(w, SyncAndSweep(w, s, l.e, srcs).p.w)
  {
    var p := Progress(w, {}, NoCounts.(sourcePods := |srcs|));
    CalmBackground(l, s);
    SourcesAreProgress(l, s, srcs);
    SyncPodsWalk(Keeps(l), p, s, l.e, srcs);
    var g := SyncPods(p, s, l.e, srcs);
    if g.Next? {
      SweepListedKeeps(l, g.p, s, srcs);
    }
  }

  lemma SyncAndSweepReaches(l: Workload, w: World, s: Script, srcs: seq<CorePod>, k: Key)
    requires Admissible(l) && CalmScript(l, s) && SeesWorkload(l, srcs)
    ensures var f := SyncAndSweep(w, s, l.e, srcs); f.Next? ==> Reaching(l, k)(w, f.p.w)
  {
    var p := Progress(w, {}, NoCounts.(sourcePods := |srcs|));
    CalmBackground(l, s);
    ReachingIsMilestone(l, k);
    SourcesAreProgress(l, s, srcs);
    SyncPodsWalk(Keeps(l), p, s, l.e, srcs);
    var g := SyncPods(p, s, l.e, srcs);
    if g.Next? {
      if DemandAt(l, k).Nobody? {
        SweepListedReaches(l, g.p, s, srcs, k);
      } else {
        ClaimantMatchesDemand(l, srcs, k);
        var i :| 0 <= i < |srcs| && HostKey(l.e, srcs[i]) == k;
        var tk :| SeenAs(l, srcs[i], tk);
        SourceIsProgress(l, s, srcs[i], tk);
        SyncPodsReach(Keeps(l), Reaching(l, k), p, s, l.e, srcs, i);
        SweepListedKeeps(l, g.p, s, srcs);
      }
    }
  }

  lemma SourcesSeeWorkload(l: Workload, w: World, s: Script) returns (at: seq<Key>)
    requires Admissible(l) && TenantHolds(l, w) && Orderly(s)
    ensures var srcs := Sources(w.st, s, ReadyNames(l.nodes));
      && SeesWorkload(l, srcs) && |at| == |srcs|
      && (forall i :: 0 <= i < |at| ==> SeenAs(l, srcs[i], at[i]))
      && (forall i, j :: 0 <= i < j < |at| ==> at[i] != at[j])
      && (forall tk :: IsSourceKey(l, tk) ==> tk in at)
    ensures ReadyNames(l.nodes) == {} ==> SeesWorkload(l, []) && forall tk :: !IsSourceKey(l, tk)
  {
    var ready := ReadyNames(l.nodes);
    forall tk | tk in l.pods ensures SourceAt(w.st.tenantPods, ready, tk) <==> IsSourceKey(l, tk) {
    }
    at := SourcesByKey(w.st, s, ready);
    var srcs := Sources(w.st, s, ready);
    forall i | 0 <= i < |at| ensures SeenAs(l, srcs[i], at[i]) {
      assert SourceAt(w.st.tenantPods, ready, at[i]);
    }
    SeenByKey(l, srcs, at);
  }

  lemma SeenByKey(l: Workload, srcs: seq<CorePod>, at: seq<Key>)
    requires |at| == |srcs| && (forall i :: 0 <= i < |at| ==> SeenAs(l, srcs[i], at[i]))
    requires forall tk :: IsSourceKey(l, tk) ==> tk in at
    ensures SeesWorkload(l, srcs)
  {
    assert AllSeen(l, srcs) by {
      forall i | 0 <= i < |srcs| ensures Seen(l, srcs[i]) {
        assert SeenAs(l, srcs[i], at[i]);
      }
    }
    forall tk | IsSourceKey(l, tk) ensures exists i :: 0 <= i < |srcs| && SeenAs(l, srcs[i], tk) {
      var i :| 0 <= i < |at| && at[i] == tk;
      assert SeenAs(l, srcs[i], tk);
    }
  }

  /**
   * One pass over the workload, with outside steps before every call: however it ends it undoes
   * nothing at any key, and a completed one takes every key a step further.
   */
  lemma PassMakesProgress(l: Workload, w: World, s: Script)
    requires Admissible(l) && Holds(l, w) && CalmScript(l, s)
    ensures var f := Pass(w, s, l.e, l.nodes);
      NoWorse(l, w, f.p.w) && (f.Next? ==> forall k :: Stepped(l, w, f.p.w, k))
  {
    CalmBackground(l, s);
    var v, srcs := PassShape(Keeps(l), w, s, l.e, l.nodes);
    var f := Pass(w, s, l.e, l.nodes);
    if f == SyncAndSweep(v, s, l.e, srcs) {
      NoWorseMeans(l, w, v);
      var at := SourcesSeeWorkload(l, v, s);
      FromTicks(l, w, v, s, srcs);
    }
  }

  lemma FromTicks(l: Workload, w: World, v: World, s: Script, srcs: seq<CorePod>)
    requires Admissible(l) && Holds(l, w) && Keeps(l)(w, v) && CalmScript(l, s) && SeesWorkload(l, srcs)
    ensures var f := SyncAndSweep(v, s, l.e, srcs);
      NoWorse(l, w, f.p.w) && (f.Next? ==> forall k :: Stepped(l, w, f.p.w, k))
  {
    var f := SyncAndSweep(v, s, l.e, srcs);
    KeepsIsPreorder(l);
    SyncAndSweepKeeps(l, v, s, srcs);
    assert Keeps(l)(w, f.p.w);
    forall k | f.Next? ensures Stepped(l, w, f.p.w, k) {
      SyncAndSweepReaches(l, v, s, srcs, k);
      ReachingIsMilestone(l, k);
      assert Reaching(l, k)(w, f.p.w);
    }
  }

  /**
   * The pool has no live pod that no source claims, a finished source has no live pod, and a running
   * source is served, or its old pod is on the way out or gone.
   */
  ghost predicate NothingToDelete(l: Workload, w: World) {
    && (forall k :: Ours(l.e, w, k) && Live(w, k) ==> exists tk :: Claims(l, tk, k))
    && (forall tk :: IsSourceKey(l, tk) && tk in l.finished ==> !Live(w, HostKey(l.e, l.pods[tk])))
    && (forall tk :: IsSourceKey(l, tk) && tk !in l.finished && Live(w, HostKey(l.e, l.pods[tk])) ==>
          Serves(w, HostKey(l.e, l.pods[tk]), Wanted(l.e, l.pods[tk])))
  }

  /** What a completed pass leaves behind, whatever calm steps surrounded its calls. */
  lemma PassPostcondition(l: Workload, w: World, s: Script)
    requires Admissible(l) && Holds(l, w) && CalmScript(l, s)
    ensures var f := Pass(w, s, l.e, l.nodes);
      f.Next? ==> NothingToDelete(l, f.p.w)
  {
    PassMakesProgress(l, w, s);
    var f := Pass(w, s, l.e, l.nodes);
    if f.Next? {
      assert AllBelow(l, f.p.w, 2) by {
        forall k ensures RankAt(l, f.p.w, k) <= 2 {
          assert Stepped(l, w, f.p.w, k);
        }
      }
      BelowTwoMeans(l, f.p.w);
    }
  }

  lemma BelowTwoMeans(l: Workload, w: World)
    requires Admissible(l) && AllBelow(l, w, 2)
    ensures NothingToDelete(l, w)
  {
    forall tk | IsSourceKey(l, tk) ensures DemandAt(l, HostKey(l.e, l.pods[tk])) == DemandOf(l, tk) {
      DemandIs(l, tk, HostKey(l.e, l.pods[tk]));
    }
    forall tk | IsSourceKey(l, tk) ensures RankAt(l, w, HostKey(l.e, l.pods[tk])) <= 2 {
    }
    forall k | Ours(l.e, w, k) && Live(w, k) ensures exists tk :: Claims(l, tk, k) {
      assert RankAt(l, w, k) <= 2;
    }
  }

  // ---------- runs ----------

  /** A pass attempt with any list order and any failing call, a calm outside step, or completion of requested deletions. */
  datatype Move = Attempt(s: Script) | Outside(a: EnvAction) | Removal(keys: set<Key>)

  function Play(l: Workload, w: World, m: Move): World {
    match m
    case Attempt(s) => Pass(w, s, l.e, l.nodes).p.w
    case Outside(a) => Acted(w, a)
    case Removal(keys) => w.(st := w.st.(hostPods := w.st.hostPods - (set k | k in keys && k in w.st.hostPods && w.st.hostPods[k].deleting)))
  }

  function PlayAll(l: Workload, w: World, moves: seq<Move>): World
    decreases |moves|
  {
    if moves == [] then w else PlayAll(l, Play(l, w, moves[0]), moves[1..])
  }

  ghost predicate CalmMove(l: Workload, m: Move)
  {
    match m
    case Attempt(s) => CalmScript(l, s)
    case Outside(a) => Calm(l, a)
    case Removal(_) => true
  }

  ghost predicate CalmMoves(l: Workload, moves: seq<Move>)
  {
    forall i :: 0 <= i < |moves| ==> CalmMove(l, moves[i])
  }

  lemma RemovalNoWorse(l: Workload, w: World, keys: set<Key>)
    requires Admissible(l) && Holds(l, w)
    ensures var v := Play(l, w, Removal(keys));
      NoWorse(l, w, v) && (forall k :: k in keys && RankAt(l, w, k) <= 2 ==> RankAt(l, v, k) <= 1)
  {
    var v := Play(l, w, Removal(keys));
    forall k ensures CellNoWorse(l.e, DemandAt(l, k), k, Cell(w, k), Cell(v, k)) {
      assert Fits(DemandAt(l, k), Cell(w, k));
    }
  }

  lemma MoveNoWorse(l: Workload, w: World, m: Move)
    requires Admissible(l) && Holds(l, w) && CalmMove(l, m)
    ensures NoWorse(l, w, Play(l, w, m))
  {
    match m
    case Attempt(s) => PassMakesProgress(l, w, s);
    case Outside(a) => CalmStep(l, w, a);
    case Removal(keys) => RemovalNoWorse(l, w, keys);
  }

  /** Whatever attempts fail, whatever calm steps intervene and whenever deletions finish, no key moves away from settled. */
  lemma {:induction false} RunsNeverRegress(l: Workload, w: World, moves: seq<Move>)
    requires Admissible(l) && Holds(l, w) && CalmMoves(l, moves)
    ensures NoWorse(l, w, PlayAll(l, w, moves))
    decreases |moves|
  {
    if moves == [] {
      SamePodsNoWorse(l, w, w);
    } else {
      assert CalmMove(l, moves[0]);
      MoveNoWorse(l, w, moves[0]);
      var u := Play(l, w, moves[0]);
      NoWorseMeans(l, w, u);
      forall i | 0 <= i < |moves[1..]| ensures CalmMove(l, moves[1..][i]) {
        assert moves[1..][i] == moves[i + 1];
      }
      RunsNeverRegress(l, u, moves[1..]);
      NoWorseTrans(l, w, u, PlayAll(l, u, moves[1..]));
    }
  }

  lemma BelowAfter(l: Workload, a: World, b: World, bound: nat)
    requires NoWorse(l, a, b) && AllBelow(l, a, bound)
    ensures AllBelow(l, b, bound)
  {
    forall k ensures RankAt(l, b, k) <= bound {
      assert CellNoWorse(l.e, DemandAt(l, k), k, Cell(a, k), Cell(b, k)) && RankAt(l, a, k) <= bound;
    }
  }

  lemma AfterRemoval(l: Workload, w: World)
    requires Admissible(l) && Holds(l, w) && AllBelow(l, w, 2)
    ensures var v := Play(l, w, Removal(w.st.hostPods.Keys)); NoWorse(l, w, v) && AllBelow(l, v, 1)
  {
    var v := Play(l, w, Removal(w.st.hostPods.Keys));
    RemovalNoWorse(l, w, w.st.hostPods.Keys);
    forall k ensures RankAt(l, v, k) <= 1 {
      assert RankAt(l, w, k) <= 2;
      assert k !in w.st.hostPods ==> RankAt(l, w, k) <= 1;
      assert CellNoWorse(l.e, DemandAt(l, k), k, Cell(w, k), Cell(v, k));
    }
  }

  lemma AfterPass(l: Workload, w: World, s: Script, bound: nat)
    requires Admissible(l) && Holds(l, w) && CalmScript(l, s) && AllBelow(l, w, bound)
    ensures var f := Pass(w, s, l.e, l.nodes);
      NoWorse(l, w, f.p.w) && (f.Next? ==> (bound <= 3 ==> AllBelow(l, f.p.w, 2)) && (bound <= 1 ==> AllBelow(l, f.p.w, 0)))
  {
    PassMakesProgress(l, w, s);
    var f := Pass(w, s, l.e, l.nodes);
    forall k | f.Next? && bound <= 3 ensures RankAt(l, f.p.w, k) <= 2 && (bound <= 1 ==> RankAt(l, f.p.w, k) <= 0) {
      assert Stepped(l, w, f.p.w, k) && RankAt(l, w, k) <= bound;
    }
  }

  /**
   * Convergence. From any host state, any run that contains a completed pass, then completion of all
   * pending deletions, then another completed pass, with failed attempts, calm outside steps and
   * partial deletions before, between, during and after, ends settled. It ends as the workload's image
   * if and only if at first no live host pod passed for one that a source wants without being it.
   */
  lemma Converges(l: Workload, w: World, a: seq<Move>, s1: Script, b: seq<Move>, c: seq<Move>, s2: Script, d: seq<Move>)
    requires Admissible(l) && Holds(l, w) && CalmMoves(l, a) && CalmMoves(l, b) && CalmMoves(l, c) && CalmMoves(l, d)
    requires CalmScript(l, s1) && CalmScript(l, s2)
    ensures
      var w1 := PlayAll(l, w, a);
      var w2 := Pass(w1, s1, l.e, l.nodes);
      var w3 := PlayAll(l, w2.p.w, b);
      var w4 := Play(l, w3, Removal(w3.st.hostPods.Keys));
      var w5 := PlayAll(l, w4, c);
      var w6 := Pass(w5, s2, l.e, l.nodes);
      var v := PlayAll(l, w6.p.w, d);
      w2.Next? && w6.Next? ==> Settled(l, v) && Holds(l, v) && (AllClear(l, w) <==> Image(l, v))
  {
    FirstRound(l, w, a, s1);
    var w2 := Pass(PlayAll(l, w, a), s1, l.e, l.nodes);
    if w2.Next? {
      SecondRound(l, w2.p.w, b, c, s2, d);
    }
  }

  lemma FirstRound(l: Workload, w: World, a: seq<Move>, s1: Script)
    requires Admissible(l) && Holds(l, w) && CalmMoves(l, a) && CalmScript(l, s1)
    ensures var w2 := Pass(PlayAll(l, w, a), s1, l.e, l.nodes);
      w2.Next? ==> Holds(l, w2.p.w) && AllBelow(l, w2.p.w, 2) && (AllClear(l, w) <==> AllClear(l, w2.p.w))
  {
    var w1 := PlayAll(l, w, a);
    RunsNeverRegress(l, w, a);
    NoWorseMeans(l, w, w1);
    RankIsAtMostThree(l, w1);
    AfterPass(l, w1, s1, 3);
    NoWorseMeans(l, w1, Pass(w1, s1, l.e, l.nodes).p.w);
  }

  lemma RankIsAtMostThree(l: Workload, w: World)
    ensures AllBelow(l, w, 3)
  {
  }

  /** From a state without live strays or drifted pods, the rest of the run settles. */
  lemma SecondRound(l: Workload, w2: World, b: seq<Move>, c: seq<Move>, s2: Script, d: seq<Move>)
    requires Admissible(l) && Holds(l, w2) && AllBelow(l, w2, 2)
    requires CalmMoves(l, b) && CalmMoves(l, c) && CalmMoves(l, d) && CalmScript(l, s2)
    ensures
      var w3 := PlayAll(l, w2, b);
      var w4 := Play(l, w3, Removal(w3.st.hostPods.Keys));
      var w5 := PlayAll(l, w4, c);
      var w6 := Pass(w5, s2, l.e, l.nodes);
      var v := PlayAll(l, w6.p.w, d);
      w6.Next? ==> Settled(l, v) && Holds(l, v) && (AllClear(l, w2) <==> Image(l, v))
  {
    var w3 := PlayAll(l, w2, b);
    RunsNeverRegress(l, w2, b);
    NoWorseMeans(l, w2, w3);
    BelowAfter(l, w2, w3, 2);
    var w4 := Play(l, w3, Removal(w3.st.hostPods.Keys));
    AfterRemoval(l, w3);
    NoWorseMeans(l, w3, w4);
    ThirdRound(l, w4, c, s2, d);
  }

  /** From a state that only misses pods, one completed pass settles. */
  lemma ThirdRound(l: Workload, w4: World, c: seq<Move>, s2: Script, d: seq<Move>)
    requires Admissible(l) && Holds(l, w4) && AllBelow(l, w4, 1)
    requires CalmMoves(l, c) && CalmMoves(l, d) && CalmScript(l, s2)
    ensures
      var w6 := Pass(PlayAll(l, w4, c), s2, l.e, l.nodes);
      var v := PlayAll(l, w6.p.w, d);
      w6.Next? ==> Settled(l, v) && Holds(l, v) && (AllClear(l, w4) <==> Image(l, v))
  {
    var w5 := PlayAll(l, w4, c);
    RunsNeverRegress(l, w4, c);
    NoWorseMeans(l, w4, w5);
    BelowAfter(l, w4, w5, 1);
    var w6 := Pass(w5, s2, l.e, l.nodes);
    AfterPass(l, w5, s2, 1);
    NoWorseMeans(l, w5, w6.p.w);
    if w6.Next? {
      var v := PlayAll(l, w6.p.w, d);
      RunsNeverRegress(l, w6.p.w, d);
      NoWorseMeans(l, w6.p.w, v);
      BelowAfter(l, w6.p.w, v, 0);
      RankZeroMeansSettled(l, v);
      SettledIsImageIff(l, v);
    }
  }
}
