/** The pool's status: when a reconcile counts exactly what is stored, and when the status is true. */
module PoolStatus {
  import opened Lists
  import opened PodModel
  import opened NodeModel
  import opened HostKeys
  import opened Registrar
  import opened NodeRecords
  import opened NodeLifecycle
  import opened PoolScaling
  import opened PoolController
  import opened PoolEvents
  import opened ScalingRuns

  // ---------- what a reconcile counts ----------

  ghost predicate NothingLost(s: NodeScript) {
    forall k: nat :: !s.save(k).SaveLost?
  }

  /** No record bears a number that provisioning would use on the way to `upto` records. */
  ghost predicate FreeAhead(display: string, records: map<string, Record>, upto: int) {
    forall j: nat :: |records| < j <= upto ==> NodeName(display, j) !in records
  }

  /** No save is swallowed by an ending context, or the numbers of the nodes to be added are free. */
  ghost predicate Harmless(s: NodeScript, pool: VNodePool, n: Nodes) {
    NothingLost(s) || FreeAhead(DisplayName(pool), n.store.records, pool.nodeCount)
  }

  /** After a successful save that was not lost the record holds the phase, and a change of phase was noticed. */
  lemma SaveIsSeen(w: NodeWorld, s: NodeScript, node: VNode)
    requires !s.save(w.calls).SaveLost? && SaveIn(w, s, node).1.None?
    ensures var v := SaveIn(w, s, node).0;
      && node.name in v.n.store.records && v.n.store.records[node.name].phase == node.phase
      && (!v.n.store.queued && node.name in w.n.store.records ==> w.n.store.records[node.name].phase == node.phase)
  {
    TickIsNoticed(w, s);
    assert s.save(w.calls).SaveOk?;
  }

  /** Provisioning that reports success always queues the pool: Pending and Ready cannot both be old news. */
  lemma ProvisionIsNoticed(w: NodeWorld, s: NodeScript, pool: VNodePool)
    requires NothingLost(s)
    ensures Provision(w, s, pool).err.None? ==> Provision(w, s, pool).w.n.store.queued
  {
    var w1 := Tick(w, s);
    var node := NewNode(pool, |w1.n.store.records| + 1);
    if s.fail(w.calls).None? {
      var (w2, saved) := SaveIn(w1, s, node);
      if saved.None? {
        SaveIsSeen(w1, s, node);
        RegisterAndSaveIsNoticed(w2, s, node);
        assert Provision(w, s, pool) == RegisterAndSave(w2, s, node);
      }
    }
  }

  lemma RegisterAndSaveIsNoticed(w: NodeWorld, s: NodeScript, node: VNode)
    requires NothingLost(s) && node.phase == Pending
    requires node.name in w.n.store.records && w.n.store.records[node.name].phase == Pending
    ensures var p := RegisterAndSave(w, s, node); p.err.None? ==> p.w.n.store.queued
  {
    var (w3, registered) := RegisterIn(w, s, node);
    TickIsNoticed(w, s);
    assert w3.n.store == Tick(w, s).n.store;
    if registered.None? {
      var up := node.(phase := Ready, conditions := ReadyConditions());
      SaveInSticks(w3, s, up);
      if SaveIn(w3, s, up).1.None? {
        SaveIsSeen(w3, s, up);
      }
    }
  }

  /** A save that goes unnoticed either changed no phase or made a record without status, which counts as ready. */
  ghost predicate Unnoticed(a: map<string, Record>, b: map<string, Record>, name: string) {
    && b.Keys == a.Keys + {name}
    && (forall x :: x in a ==> b[x].phase == a[x].phase)
    && (name !in a ==> b[name].phase == Unset)
  }

  lemma SaveUnnoticed(w: NodeWorld, s: NodeScript, node: VNode)
    requires node.phase != Unset && SaveIn(w, s, node).1.None? && !SaveIn(w, s, node).0.n.store.queued
    ensures Unnoticed(w.n.store.records, SaveIn(w, s, node).0.n.store.records, node.name)
  {
    TickIsNoticed(w, s);
  }

  lemma ProvisionIs(w: NodeWorld, s: NodeScript, pool: VNodePool)
    requires Provision(w, s, pool).err.None?
    ensures Provision(w, s, pool) == SaveRegisterSave(Tick(w, s), s, NewNode(pool, |Tick(w, s).n.store.records| + 1))
  {
  }

  lemma UnnoticedFromBefore(a: Store, b: Store, c: Store, name: string)
    requires Noticed(a, b) && Later(b, c) && !c.queued && Unnoticed(b.records, c.records, name)
    ensures Unnoticed(a.records, c.records, name) && |a.records| == |b.records|
  {
    assert |a.records| == |a.records.Keys| && |b.records| == |b.records.Keys|;
  }

  /** Provisioning that nobody noticed has added one record, which counts as ready, if its number was free. */
  lemma ProvisionUnnoticed(w: NodeWorld, s: NodeScript, pool: VNodePool, p: Provisioned)
    requires p == Provision(w, s, pool) && p.err.None? && !p.w.n.store.queued
    ensures Unnoticed(w.n.store.records, p.w.n.store.records, NodeName(DisplayName(pool), |w.n.store.records| + 1))
    ensures p.node.phase == Ready
  {
    ProvisionIs(w, s, pool);
    var w1 := Tick(w, s);
    TickIsNoticed(w, s);
    var node := NewNode(pool, |w1.n.store.records| + 1);
    SaveRegisterSaveSticks(w1, s, node);
    SaveRegisterSaveUnnoticed(w1, s, node);
    UnnoticedFromBefore(w.n.store, w1.n.store, p.w.n.store, node.name);
  }

  lemma SaveRegisterSaveUnnoticed(w: NodeWorld, s: NodeScript, node: VNode)
    requires var p := SaveRegisterSave(w, s, node); p.err.None? && !p.w.n.store.queued && node.phase == Pending
    ensures var p := SaveRegisterSave(w, s, node);
      Unnoticed(w.n.store.records, p.w.n.store.records, node.name) && p.node.phase == Ready
  {
    var w1 := SaveIn(w, s, node).0;
    RegisterAndSaveSticks(w1, s, node);
    SaveUnnoticed(w, s, node);
    RegisterAndSaveUnnoticed(w1, s, node);
  }

  lemma RegisterAndSaveUnnoticed(w: NodeWorld, s: NodeScript, node: VNode)
    requires RegisterAndSave(w, s, node).err.None? && !RegisterAndSave(w, s, node).w.n.store.queued
    requires node.name in w.n.store.records
    ensures var p := RegisterAndSave(w, s, node);
      && p.w.n.store.records.Keys == w.n.store.records.Keys && p.node.phase == Ready
      && forall x :: x in w.n.store.records ==> p.w.n.store.records[x].phase == w.n.store.records[x].phase
  {
    var w3 := RegisterIn(w, s, node).0;
    TickIsNoticed(w, s);
    assert w3.n.store == Tick(w, s).n.store;
    var up := node.(phase := Ready, conditions := ReadyConditions());
    SaveInSticks(w3, s, up);
    SaveUnnoticed(w3, s, up);
  }

  lemma UnnoticedCounts(a: map<string, Record>, b: map<string, Record>, name: string)
    requires Unnoticed(a, b, name) && name !in a
    ensures |ReadySet(b)| == |ReadySet(a)| + 1
  {
    assert ReadySet(b) == ReadySet(a) + {name};
  }

  lemma TakenCounts(a: map<string, Record>, b: map<string, Record>, name: string)
    requires Unnoticed(a, b, name) && name in a
    ensures |ReadySet(b)| == |ReadySet(a)| && b.Keys == a.Keys && |b| == |a|
  {
    assert b.Keys == a.Keys;
    assert ReadySet(b) == ReadySet(a);
    assert |b| == |b.Keys| && |a| == |a.Keys|;
  }

  /** One free number is used up; those behind it are as free as before. */
  lemma FreeAfterOne(display: string, a: map<string, Record>, b: map<string, Record>, upto: int)
    requires b.Keys == a.Keys + {NodeName(display, |a| + 1)} && NodeName(display, |a| + 1) !in a
    ensures |b| == |a| + 1 && (FreeAhead(display, b, upto) <==> FreeAhead(display, a, upto))
  {
    assert |b| == |b.Keys| && |a| == |a.Keys|;
    forall j: nat | |a| + 1 < j ensures NodeName(display, j) in b <==> NodeName(display, j) in a {
      if NodeName(display, j) == NodeName(display, |a| + 1) {
        NodeNameIsInjective(display, j, |a| + 1);
      }
    }
    if FreeAhead(display, b, upto) {
      forall j: nat | |a| < j <= upto ensures NodeName(display, j) !in a {
        assert j > |a| + 1 ==> NodeName(display, j) !in b;
      }
    } else {
      var j: nat :| |b| < j <= upto && NodeName(display, j) in b;
      assert NodeName(display, j) in a;
    }
  }

  /** The working list counts at least what is stored. */
  ghost predicate Covers(w: NodeWorld, working: seq<VNode>) {
    ReadyNodes(working) >= |ReadySet(w.n.store.records)|
  }

  ghost predicate Counts(w: NodeWorld, working: seq<VNode>) {
    ReadyNodes(working) == |ReadySet(w.n.store.records)|
  }

  /** An addition that reported success and raised no event. */
  ghost predicate Silent(p: Provisioned) {
    p.err.None? && !p.w.n.store.queued
  }

  /** All that such an addition can have done. */
  ghost predicate AddsUnnoticed(display: string, w: NodeWorld, p: Provisioned) {
    p.node.phase == Ready && Unnoticed(w.n.store.records, p.w.n.store.records, NodeName(display, |w.n.store.records| + 1))
  }

  /** One addition that nobody noticed keeps the count exact if and only if its number was free. */
  lemma AdditionCountsIff(display: string, w: NodeWorld, working: seq<VNode>, p: Provisioned, more: nat)
    requires AddsUnnoticed(display, w, p) && Covers(w, working) && more > 0
    ensures var a, b := w.n.store.records, p.w.n.store.records;
      && Covers(p.w, working + [p.node])
      && (Counts(p.w, working + [p.node]) && FreeAhead(display, b, |b| + more - 1) <==>
            Counts(w, working) && FreeAhead(display, a, |a| + more))
  {
    var a, b := w.n.store.records, p.w.n.store.records;
    var name := NodeName(display, |a| + 1);
    ReadyNodesSnoc(working, p.node);
    if name in a {
      TakenCounts(a, b, name);
    } else {
      UnnoticedCounts(a, b, name);
      FreeAfterOne(display, a, b, |a| + more);
    }
  }

  lemma RoundsAreLater(add: NodeWorld -> Provisioned, w: NodeWorld, working: seq<VNode>, toAdd: nat)
    requires forall a: NodeWorld :: Later(a.n.store, add(a).w.n.store)
    ensures Later(w.n.store, Rounds(add, w, working, toAdd).w.n.store)
  {
    var r := (a: NodeWorld, b: NodeWorld, k: nat) => Later(a.n.store, b.n.store);
    RoundsWalk(r, add, w, working, toAdd);
  }

  lemma {:induction false} RoundsCountIff(
    add: NodeWorld -> Provisioned, display: string, w: NodeWorld, working: seq<VNode>, toAdd: nat)
    requires (forall a: NodeWorld :: Later(a.n.store, add(a).w.n.store)) && (forall a :: Silent(add(a)) ==> AddsUnnoticed(display, a, add(a)))
    requires var r := Rounds(add, w, working, toAdd); r.err.None? && !r.w.n.store.queued
    requires Covers(w, working)
    ensures var r := Rounds(add, w, working, toAdd); var records := w.n.store.records;
      Counts(r.w, r.working) <==> Counts(w, working) && FreeAhead(display, records, |records| + toAdd)
    decreases toAdd
  {
    if toAdd > 0 {
      var p := add(w);
      RoundsAreLater(add, p.w, working + [p.node], toAdd - 1);
      assert Silent(p);
      AdditionCountsIff(display, w, working, p, toAdd);
      RoundsCountIff(add, display, p.w, working + [p.node], toAdd - 1);
    }
  }

  lemma ProvisionLater(w: NodeWorld, s: NodeScript, pool: VNodePool)
    ensures Later(w.n.store, Provision(w, s, pool).w.n.store)
  {
    var index := ProvisionSticks(w, s, pool);
  }

  /** Scaling up without any event counts exactly if and only if every number it was to use was free. */
  lemma ScaleUpCountsIff(w: NodeWorld, s: NodeScript, pool: VNodePool, working: seq<VNode>, toAdd: nat)
    requires var r := ScaleUp(w, s, pool, working, toAdd); r.err.None? && !r.w.n.store.queued
    requires Covers(w, working)
    ensures var r := ScaleUp(w, s, pool, working, toAdd); var records := w.n.store.records;
      Counts(r.w, r.working) <==> Counts(w, working) && FreeAhead(DisplayName(pool), records, |records| + toAdd)
  {
    var add := Adder(s, pool);
    forall a: NodeWorld
      ensures Later(a.n.store, add(a).w.n.store)
      ensures Silent(add(a)) ==> AddsUnnoticed(DisplayName(pool), a, add(a))
    {
      ProvisionLater(a, s, pool);
      if Silent(add(a)) {
        ProvisionUnnoticed(a, s, pool, add(a));
      }
    }
    ScaleUpIsRounds(w, s, pool, working, toAdd);
    RoundsCountIff(add, DisplayName(pool), w, working, toAdd);
  }

  lemma SameKeysFree(display: string, a: map<string, Record>, b: map<string, Record>, upto: int)
    requires a.Keys == b.Keys
    ensures FreeAhead(display, a, upto) <==> FreeAhead(display, b, upto)
  {
    assert |a| == |a.Keys| && |b| == |b.Keys|;
  }

  /**
   * A reconcile that reports success and raises no event counts exactly what is stored if and only if no record
   * bears a number that it was to use. Which saves were swallowed does not matter.
   */
  lemma ReconcileCountsIff(w: NodeWorld, s: NodeScript, pool: VNodePool)
    requires Complete(s)
    ensures var r := Reconcile(w, s, pool);
      r.err.None? && !r.w.n.store.queued ==>
        (Counts(r.w, r.working) <==> FreeAhead(DisplayName(pool), w.n.store.records, pool.nodeCount))
  {
    var w1 := Tick(w, s);
    TickIsNoticed(w, s);
    var r := Reconcile(w, s, pool);
    if r.err.None? && !r.w.n.store.queued {
      var records := w1.n.store.records;
      var names := s.order(records.Keys);
      assert ListsAll(names, records.Keys);
      var working := ListNodes(records, names);
      CompleteListCountsReady(records, names);
      CompleteListLength(records, names);
      assert |records| == |records.Keys|;
      LoopsCountIff(w1, s, pool, working);
      LoopsStick(w1, s, pool, working);
      SameKeysFree(DisplayName(pool), w.n.store.records, records, pool.nodeCount);
    }
  }

  lemma LoopsCountIff(w: NodeWorld, s: NodeScript, pool: VNodePool, working: seq<VNode>)
    requires Counts(w, working) && |working| == |w.n.store.records|
    requires forall node :: node in working ==> node.name in w.n.store.records
    requires var r := Loops(w, s, pool, working); r.err.None? && !r.w.n.store.queued
    ensures var r := Loops(w, s, pool, working);
      Counts(r.w, r.working) <==> FreeAhead(DisplayName(pool), w.n.store.records, pool.nodeCount)
  {
    var (toAdd, toRemove) := DesiredScaleActions(pool.nodeCount, |working|);
    if toAdd > 0 {
      ScaleUpCountsIff(w, s, pool, working, toAdd);
    } else {
      ScaleDownIsNoticed(w, s, working, toRemove, w.n.store.records.Keys);
    }
  }

  /** If no save is swallowed, adding nodes always raises an event. */
  lemma NothingLostIsNoticed(w: NodeWorld, s: NodeScript, pool: VNodePool)
    requires Complete(s) && NothingLost(s)
    ensures var r := Reconcile(w, s, pool); r.err.None? && !r.w.n.store.queued ==> pool.nodeCount <= |w.n.store.records|
  {
    var w1 := Tick(w, s);
    TickIsNoticed(w, s);
    var r := Reconcile(w, s, pool);
    SubsetIsSmaller(w1.n.store.records.Keys, w.n.store.records.Keys);
    assert |w1.n.store.records| == |w1.n.store.records.Keys| && |w.n.store.records| == |w.n.store.records.Keys|;
    AddingIsNoticed(w1, s, pool);
  }

  lemma AddingIsNoticed(w: NodeWorld, s: NodeScript, pool: VNodePool)
    requires Complete(s) && NothingLost(s)
    ensures var records := w.n.store.records; var working := ListNodes(records, s.order(records.Keys));
      var r := Loops(w, s, pool, working);
      r.err.None? && pool.nodeCount > |records| ==> r.w.n.store.queued
  {
    var records := w.n.store.records;
    var names := s.order(records.Keys);
    assert ListsAll(names, records.Keys);
    var working := ListNodes(records, names);
    CompleteListLength(records, names);
    assert |records| == |records.Keys|;
    if pool.nodeCount > |records| {
      ScaleUpIsNoticed(w, s, pool, working, pool.nodeCount - |working|);
    }
  }

  lemma ScaleUpIsNoticed(w: NodeWorld, s: NodeScript, pool: VNodePool, working: seq<VNode>, toAdd: nat)
    requires NothingLost(s) && toAdd > 0
    ensures var r := ScaleUp(w, s, pool, working, toAdd); r.err.None? ==> r.w.n.store.queued
  {
    var add := Adder(s, pool);
    forall a: NodeWorld ensures Later(a.n.store, add(a).w.n.store) {
      ProvisionLater(a, s, pool);
    }
    ProvisionIsNoticed(w, s, pool);
    ScaleUpIsRounds(w, s, pool, working, toAdd);
    var p := add(w);
    RoundsAreLater(add, p.w, working + [p.node], toAdd - 1);
  }

  /** A reconcile that reports success either queued the pool again or counted exactly what is stored. */
  lemma ReconcileCountsOrQueues(w: NodeWorld, s: NodeScript, pool: VNodePool)
    requires Complete(s) && Harmless(s, pool, w.n)
    ensures var r := Reconcile(w, s, pool); r.err.None? && !r.w.n.store.queued ==> Counts(r.w, r.working)
  {
    ReconcileCountsIff(w, s, pool);
    if NothingLost(s) {
      NothingLostIsNoticed(w, s, pool);
    }
  }

  // ---------- status agrees with the nodes ----------

  /** A valid pool that is neither queued nor going away shows the number of nodes that count as ready. */
  ghost predicate StatusAgrees(n: Nodes) {
    n.store.pool.present && !n.store.pool.deleting && Valid(n.store.pool.spec) && !n.store.queued ==>
      n.store.pool.readyNodes == |ReadySet(n.store.records)|
  }

  /** A status written without any event is true if and only if the reconcile counted exactly. */
  lemma ReportAgreesIff(w: NodeWorld, s: NodeScript, f: Faults, spec: VNodePool)
    requires Complete(s) && Valid(spec) && !ScaleAndReport(w, s, f, spec).store.queued
    requires w.n.store.pool.spec == spec && w.n.store.pool.present && !w.n.store.pool.deleting
    ensures StatusAgrees(ScaleAndReport(w, s, f, spec)) <==> FreeAhead(DisplayName(spec), w.n.store.records, spec.nodeCount)
  {
    var r := Reconcile(w, s, spec);
    ReconcileCountsIff(w, s, spec);
    ReconcileSticks(w, s, spec);
    var w1 := Tick(r.w, s);
    TickIsNoticed(r.w, s);
    NoticedCounts(r.w.n.store, w1.n.store);
  }

  lemma ScaleAndReportAgrees(w: NodeWorld, s: NodeScript, f: Faults, spec: VNodePool)
    requires Complete(s) && (!w.n.store.queued ==> w.n.store.pool.spec == spec && Harmless(s, spec, w.n))
    ensures StatusAgrees(ScaleAndReport(w, s, f, spec))
  {
    if Valid(spec) {
      var r := Reconcile(w, s, spec);
      ReconcileSticks(w, s, spec);
      if r.err.None? {
        var w1 := Tick(r.w, s);
        TickIsNoticed(r.w, s);
        if !w1.n.store.queued {
          ReconcileCountsOrQueues(w, s, spec);
          NoticedCounts(r.w.n.store, w1.n.store);
        }
      }
    }
  }

  lemma NoticedHarmless(a: Nodes, b: Nodes, s: NodeScript, pool: VNodePool)
    requires Noticed(a.store, b.store) && !b.store.queued && Harmless(s, pool, a)
    ensures Harmless(s, pool, b)
  {
    SameKeysFree(DisplayName(pool), a.store.records, b.store.records, pool.nodeCount);
  }

  /** What a swallowed save may meet when a reconcile starts. */
  ghost predicate HarmlessStep(n: Nodes, step: Step) {
    step.ReconcileStep? ==> Complete(step.s) && Harmless(step.s, n.store.pool.spec, n)
  }

  lemma ReconcileAgrees(n: Nodes, s: NodeScript, f: Faults)
    requires Complete(s) && Harmless(s, n.store.pool.spec, n)
    ensures StatusAgrees(ReconcilePool(n, s, f))
  {
    var w0 := Dequeue(n);
    var w := Tick(w0, s);
    TickIsNoticed(w0, s);
    assert Harmless(s, n.store.pool.spec, w0.n);
    if !w.n.store.queued {
      NoticedHarmless(w0.n, w.n, s, n.store.pool.spec);
    }
    var cr := w.n.store.pool;
    if cr.present && !cr.deleting {
      if cr.finalizer {
        ScaleAndReportAgrees(w, s, f, cr.spec);
      } else {
        AddFinalizerAgrees(w, s, f);
      }
    } else if cr.present && cr.deleting {
      DeletionAgrees(w, s, f);
    }
  }

  lemma AddFinalizerAgrees(w: NodeWorld, s: NodeScript, f: Faults)
    requires Complete(s) && (!w.n.store.queued ==> Harmless(s, w.n.store.pool.spec, w.n))
    ensures var cr := w.n.store.pool; var w1 := Tick(w, s);
      w1.n.store.pool == cr ==>
        StatusAgrees(ScaleAndReport(w1.(n := WithPool(w1.n, cr.(finalizer := true))), s, f, cr.spec))
  {
    var cr, w1 := w.n.store.pool, Tick(w, s);
    TickIsNoticed(w, s);
    if !w1.n.store.queued {
      NoticedHarmless(w.n, w1.n, s, cr.spec);
    }
    ScaleAndReportAgrees(w1.(n := WithPool(w1.n, cr.(finalizer := true))), s, f, cr.spec);
  }

  lemma DeletionAgrees(w: NodeWorld, s: NodeScript, f: Faults)
    requires Complete(s) && w.n.store.pool.deleting
    ensures StatusAgrees(HandleDeletion(w, s, f, w.n.store.pool))
  {
    var zero := w.n.store.pool.spec.(nodeCount := 0);
    ReconcileSticks(w, s, zero);
    var r := Reconcile(w, s, zero);
    TickIsNoticed(r.w, s);
    TickIsNoticed(Tick(r.w, s), s);
  }

  lemma StepKeepsAgreement(n: Nodes, step: Step)
    requires StatusAgrees(n) && HarmlessStep(n, step)
    ensures StatusAgrees(Take(n, step))
  {
    match step
    case Outside(a) =>
      ActionIsNoticed(n, a);
      if !Take(n, step).store.queued {
        NoticedCounts(n.store, Take(n, step).store);
      }
    case ReconcileStep(s, f) => ReconcileAgrees(n, s, f);
    case Restarted =>
  }

  ghost predicate HarmlessRun(n: Nodes, steps: seq<Step>)
    decreases |steps|
  {
    steps != [] ==> HarmlessStep(n, steps[0]) && HarmlessRun(Take(n, steps[0]), steps[1..])
  }

  /**
   * At quiescence the status tells the truth: in every reachable state, whatever failed, whatever happened to
   * the pool and its nodes before each call, and although creations and same-phase updates raise no
   * event, a valid, live pool is either queued or its status counts exactly the nodes whose phase is
   * neither NotReady nor Terminating.
   */
  lemma {:induction false} StatusAgreesAtQuiescence(n: Nodes, steps: seq<Step>)
    requires StatusAgrees(n) && HarmlessRun(n, steps)
    ensures StatusAgrees(TakeAll(n, steps))
    decreases |steps|
  {
    if steps != [] {
      StepKeepsAgreement(n, steps[0]);
      StatusAgreesAtQuiescence(Take(n, steps[0]), steps[1..]);
    }
  }

  // ---------- when the status is wrong ----------

  /** A record made by anybody else raises no event: it falsifies the status exactly when its phase counts as ready. */
  lemma UnseenCreationBreaksStatus(n: Nodes, name: string, r: Record)
    requires StatusAgrees(n) && n.store.pool.present && !n.store.pool.deleting && Valid(n.store.pool.spec) && !n.store.queued
    requires name !in n.store.records
    ensures StatusAgrees(n.(store := n.store.(records := n.store.records[name := r]))) <==> !CountsAsReady(r.phase)
  {
    var before := ReadySet(n.store.records);
    var after := ReadySet(n.store.records[name := r]);
    if CountsAsReady(r.phase) {
      assert after == before + {name};
    } else {
      assert after == before;
    }
  }

  /** One reconcile of a live pool that raises no event leaves a true status if and only if the numbers ahead are free. */
  lemma ReconcileAgreesIff(n: Nodes, s: NodeScript, f: Faults)
    requires Complete(s) && Steady(n.store.pool) && !ReconcilePool(n, s, f).store.queued
    ensures StatusAgrees(ReconcilePool(n, s, f)) <==>
      FreeAhead(DisplayName(n.store.pool.spec), n.store.records, n.store.pool.spec.nodeCount)
  {
    var w0 := Dequeue(n);
    var w := Tick(w0, s);
    TickIsNoticed(w0, s);
    var spec := n.store.pool.spec;
    SilentReconcile(n, s, f);
    ReportAgreesIff(w, s, f, spec);
    SameKeysFree(DisplayName(spec), n.store.records, w.n.store.records, spec.nodeCount);
  }

  /** A reconcile that raises no event read the pool as it was, and scaled it. */
  lemma SilentReconcile(n: Nodes, s: NodeScript, f: Faults)
    requires Complete(s) && Steady(n.store.pool) && !ReconcilePool(n, s, f).store.queued
    ensures var w := Tick(Dequeue(n), s);
      && !w.n.store.queued && w.n.store.pool == n.store.pool
      && ReconcilePool(n, s, f) == ScaleAndReport(w, s, f, n.store.pool.spec)
  {
    var w := Tick(Dequeue(n), s);
    TickIsNoticed(Dequeue(n), s);
    var cr := w.n.store.pool;
    assert cr.present && cr.finalizer;
    if cr.deleting {
      DeletionIsQueued(w, s, f);
    } else if w.n.store.queued {
      ReportIsQueued(w, s, f, cr.spec);
    }
  }

  lemma ReportIsQueued(w: NodeWorld, s: NodeScript, f: Faults, spec: VNodePool)
    requires Complete(s) && w.n.store.queued
    ensures ScaleAndReport(w, s, f, spec).store.queued
  {
    ReconcileSticks(w, s, spec);
    TickIsNoticed(Reconcile(w, s, spec).w, s);
  }

  lemma DeletionIsQueued(w: NodeWorld, s: NodeScript, f: Faults)
    requires Complete(s) && w.n.store.queued
    ensures HandleDeletion(w, s, f, w.n.store.pool).store.queued
  {
    var zero := w.n.store.pool.spec.(nodeCount := 0);
    ReconcileSticks(w, s, zero);
    var r := Reconcile(w, s, zero);
    TickIsNoticed(r.w, s);
    TickIsNoticed(Tick(r.w, s), s);
  }

  /** A pool that exists, is not going away, holds its finalizer and is valid. */
  predicate Steady(pool: PoolResource) {
    pool.present && !pool.deleting && pool.finalizer && Valid(pool.spec)
  }

  // ---------- swallowed saves ----------

  /** Nothing else happens, the store loses every save, and all other calls succeed. */
  ghost predicate LosesSaves(s: NodeScript) {
    forall k: nat :: s.env(k) == [] && s.save(k) == SaveLost(false) && s.api(k).NoFault? && s.fail(k).None?
  }

  lemma QuietTick(w: NodeWorld, s: NodeScript)
    requires LosesSaves(s)
    ensures Tick(w, s) == w.(calls := w.calls + 1)
  {
    assert s.env(w.calls) == [];
  }

  lemma LostSave(w: NodeWorld, s: NodeScript, node: VNode)
    requires LosesSaves(s)
    ensures var (v, failure) := SaveIn(w, s, node);
      failure.None? && v.n.store.queued == w.n.store.queued && v.n.store.pool == w.n.store.pool
  {
    QuietTick(w, s);
    assert s.save(w.calls) == SaveLost(false);
  }

  lemma LostProvision(w: NodeWorld, s: NodeScript, pool: VNodePool)
    requires LosesSaves(s)
    ensures var p := Provision(w, s, pool);
      p.err.None? && p.w.n.store.queued == w.n.store.queued && p.w.n.store.pool == w.n.store.pool
  {
    var w1 := Tick(w, s);
    QuietTick(w, s);
    assert s.fail(w.calls).None?;
    var node := NewNode(pool, |w1.n.store.records| + 1);
    LostSave(w1, s, node);
    LostRegistration(SaveIn(w1, s, node).0, s, node);
  }

  lemma LostRegistration(w: NodeWorld, s: NodeScript, node: VNode)
    requires LosesSaves(s)
    ensures var p := RegisterAndSave(w, s, node);
      p.err.None? && p.w.n.store.queued == w.n.store.queued && p.w.n.store.pool == w.n.store.pool
  {
    QuietTick(w, s);
    assert s.api(w.calls).NoFault?;
    RegisterShowsNode(w.n.tenant, node, NoFault);
    LostSave(RegisterIn(w, s, node).0, s, node.(phase := Ready, conditions := ReadyConditions()));
  }

  lemma {:induction false} LostScaleUp(w: NodeWorld, s: NodeScript, pool: VNodePool, working: seq<VNode>, toAdd: nat)
    requires LosesSaves(s)
    ensures var r := ScaleUp(w, s, pool, working, toAdd);
      r.err.None? && r.w.n.store.queued == w.n.store.queued && r.w.n.store.pool == w.n.store.pool
    decreases toAdd
  {
    if toAdd > 0 {
      ScaleUpStep(w, s, pool, working, toAdd);
      LostProvision(w, s, pool);
      var p := Provision(w, s, pool);
      LostScaleUp(p.w, s, pool, working + [p.node], toAdd - 1);
    }
  }

  lemma LostReconcile(w: NodeWorld, s: NodeScript, pool: VNodePool)
    requires LosesSaves(s) && Complete(s) && |w.n.store.records| <= pool.nodeCount
    ensures var r := Reconcile(w, s, pool);
      r.err.None? && r.w.n.store.queued == w.n.store.queued && r.w.n.store.pool == w.n.store.pool
  {
    var w1 := Tick(w, s);
    QuietTick(w, s);
    assert s.fail(w.calls).None?;
    var records := w1.n.store.records;
    var names := s.order(records.Keys);
    assert ListsAll(names, records.Keys);
    var working := ListNodes(records, names);
    CompleteListLength(records, names);
    assert |records| == |records.Keys|;
    LostScaleUp(w1, s, pool, working, pool.nodeCount - |working|);
  }

  /** With every save lost a reconcile that is to add nodes raises no event at all. */
  lemma LostSavesAreSilent(n: Nodes, s: NodeScript, f: Faults)
    requires LosesSaves(s) && Complete(s) && Steady(n.store.pool) && !f.writeStatus
    requires |n.store.records| <= n.store.pool.spec.nodeCount
    ensures !ReconcilePool(n, s, f).store.queued
  {
    var w := Tick(Dequeue(n), s);
    QuietTick(Dequeue(n), s);
    var spec := n.store.pool.spec;
    LostReconcile(w, s, spec);
    QuietTick(Reconcile(w, s, spec).w, s);
  }

  /** Some complete listing of a set of names. */
  ghost function Listing(names: set<string>): (q: seq<string>)
    ensures ListsAll(q, names)
    decreases |names|
  {
    if names == {} then [] else var x :| x in names; Listing(names - {x}) + [x]
  }

  ghost function LosingScript(): (s: NodeScript)
    ensures LosesSaves(s) && Complete(s)
  {
    NodeScript((k: nat) => [], (k: nat) => SaveLost(false), (k: nat) => NoFault, (k: nat) => None, (names: set<string>) => Listing(names))
  }

  /**
   * For any pool, of any size and with any records: every reconcile leaves a true status, whatever saves are
   * swallowed and whatever else happens, if and only if no record bears a number from the next one to the target.
   */
  lemma LostSavesHarmlessIff(n: Nodes)
    requires Steady(n.store.pool)
    ensures (forall s, f :: Complete(s) ==> StatusAgrees(ReconcilePool(n, s, f))) <==>
      FreeAhead(DisplayName(n.store.pool.spec), n.store.records, n.store.pool.spec.nodeCount)
  {
    var spec := n.store.pool.spec;
    if FreeAhead(DisplayName(spec), n.store.records, spec.nodeCount) {
      forall s, f | Complete(s) ensures StatusAgrees(ReconcilePool(n, s, f)) {
        ReconcileAgrees(n, s, f);
      }
    } else {
      var j: nat :| |n.store.records| < j <= spec.nodeCount && NodeName(DisplayName(spec), j) in n.store.records;
      var s, f := LosingScript(), Faults(false, false, false, false);
      LostSavesAreSilent(n, s, f);
      ReconcileAgreesIff(n, s, f);
      assert !StatusAgrees(ReconcilePool(n, s, f));
    }
  }

  /** Numbers without a gap are free ahead. */
  lemma DenseIsFreeAhead(display: string, n: Nodes, upto: int)
    requires Dense(display, NodeWorld(n, 0))
    ensures FreeAhead(display, n.store.records, upto)
  {
    forall j: nat | |n.store.records| < j <= upto ensures NodeName(display, j) !in n.store.records {
      if NodeName(display, j) in n.store.records {
        var i: nat :| 1 <= i <= |n.store.records| && NodeName(display, i) == NodeName(display, j);
        NodeNameIsInjective(display, i, j);
      }
    }
  }
}
