/** Deletion of a pool: the finalizer, which nodes can still appear, and that cleanup completes. */
module PoolDeletion {
  import opened Lists
  import opened PodModel
  import opened NodeModel
  import opened HostKeys
  import opened NodeRecords
  import opened NodeLifecycle
  import opened PoolScaling
  import opened PoolController
  import opened PoolEvents
  import ScalingRuns

  // ---------- deletion ----------

  /** Records exist only under a pool that exists and holds its finalizer. */
  ghost predicate NoOrphans(n: Nodes) {
    n.store.records.Keys != {} ==> n.store.pool.present && n.store.pool.finalizer
  }

  /** The pool as a reconcile that starts now would read it. */
  function ReadPool(n: Nodes, s: NodeScript): PoolResource {
    Tick(Dequeue(n), s).n.store.pool
  }

  /** Handling a deletion never adds a node, and drops the finalizer only when none is left. */
  lemma DeletionOnlyShrinks(w: NodeWorld, s: NodeScript, f: Faults, cr: PoolResource)
    requires Complete(s) && cr == w.n.store.pool && cr.present
    ensures var v := HandleDeletion(w, s, f, cr);
      && v.store.records.Keys <= w.n.store.records.Keys
      && (v.store.pool.finalizer || v.store.records.Keys == {} || !cr.finalizer)
      && (v.store.pool.finalizer ==> v.store.pool.present) && (!cr.finalizer ==> v == w.n)
      && (cr.deleting ==> v.store.pool.deleting)
  {
    var zero := cr.spec.(nodeCount := 0);
    ReconcileSticks(w, s, zero);
    var r := Reconcile(w, s, zero);
    TickIsNoticed(r.w, s);
    TickIsNoticed(Tick(r.w, s), s);
  }

  /** New records are numbered nodes of the pool as it was read, and there are never more than before or than it asked for. */
  ghost predicate BoundedGrowth(a: set<string>, b: set<string>, read: VNodePool) {
    && (|b| <= |a| || |b| <= read.nodeCount)
    && forall x :: x in b ==> x in a || exists i: nat :: x == NodeName(DisplayName(read), i)
  }

  lemma ScaleAndReportIsBounded(w: NodeWorld, s: NodeScript, f: Faults, spec: VNodePool)
    requires Complete(s) && w.n.store.pool.present && w.n.store.pool.finalizer
    ensures var v := ScaleAndReport(w, s, f, spec);
      && BoundedGrowth(w.n.store.records.Keys, v.store.records.Keys, spec)
      && v.store.pool.present && v.store.pool.finalizer && (w.n.store.pool.deleting ==> v.store.pool.deleting)
  {
    if Valid(spec) {
      ReconcileSticks(w, s, spec);
      var r := Reconcile(w, s, spec);
      TickIsNoticed(r.w, s);
      SubsetIsSmaller(Tick(r.w, s).n.store.records.Keys, r.w.n.store.records.Keys);
    }
  }

  /** What one reconcile does to the records and the finalizer, by what it read. */
  ghost predicate SafeReconcile(n: Nodes, v: Nodes, read: PoolResource) {
    && (read.deleting || !read.present ==> v.store.records.Keys <= n.store.records.Keys)
    && (!read.deleting && read.present ==> BoundedGrowth(n.store.records.Keys, v.store.records.Keys, read.spec))
    && (n.store.pool.finalizer && !v.store.pool.finalizer ==> read.deleting && v.store.records.Keys == {})
    && (n.store.pool.deleting ==> v.store.pool.deleting)
  }

  lemma SmallerThenBounded(a: set<string>, b: set<string>, c: set<string>, read: VNodePool)
    requires b <= a && BoundedGrowth(b, c, read)
    ensures BoundedGrowth(a, c, read)
  {
    SubsetIsSmaller(b, a);
  }

  lemma ReconcileIsSafe(n: Nodes, s: NodeScript, f: Faults)
    requires NoOrphans(n) && Complete(s)
    ensures var v := ReconcilePool(n, s, f); NoOrphans(v) && SafeReconcile(n, v, ReadPool(n, s))
  {
    var w := Tick(Dequeue(n), s);
    TickIsNoticed(Dequeue(n), s);
    assert NoOrphans(w.n);
    var cr := w.n.store.pool;
    if !cr.present {
    } else if cr.deleting {
      DeletionOnlyShrinks(w, s, f, cr);
    } else if cr.finalizer {
      ScaleAndReportIsBounded(w, s, f, cr.spec);
      SmallerThenBounded(n.store.records.Keys, w.n.store.records.Keys, ScaleAndReport(w, s, f, cr.spec).store.records.Keys, cr.spec);
    } else {
      AddFinalizerIsSafe(n, w, s, f);
    }
  }

  lemma AddFinalizerIsSafe(n: Nodes, w: NodeWorld, s: NodeScript, f: Faults)
    requires NoOrphans(w.n) && Complete(s) && w == Tick(Dequeue(n), s)
    requires var cr := w.n.store.pool; cr.present && !cr.deleting && !cr.finalizer
    ensures var v := ReconcilePool(n, s, f); NoOrphans(v) && SafeReconcile(n, v, w.n.store.pool)
  {
    TickIsNoticed(Dequeue(n), s);
    TickIsNoticed(w, s);
    var cr, w1 := w.n.store.pool, Tick(w, s);
    assert w1.n.store.records.Keys == {} == w.n.store.records.Keys;
    var held := w1.(n := WithPool(w1.n, cr.(finalizer := true)));
    ScaleAndReportIsBounded(held, s, f, cr.spec);
    SmallerThenBounded(n.store.records.Keys, {}, ScaleAndReport(held, s, f, cr.spec).store.records.Keys, cr.spec);
  }

  lemma OutsideIsSafe(n: Nodes, a: NodeAction)
    requires NoOrphans(n)
    ensures var v := ActOn(n, a);
      && NoOrphans(v) && v.store.records.Keys <= n.store.records.Keys
      && v.store.pool.finalizer == n.store.pool.finalizer && (n.store.pool.deleting ==> v.store.pool.deleting)
  {
    ActionIsNoticed(n, a);
  }

  /** A reconcile reads a pool whose deletion was requested before it as deleting. */
  lemma DeletionIsRead(n: Nodes, s: NodeScript)
    requires n.store.pool.deleting
    ensures ReadPool(n, s).deleting
  {
    TickIsNoticed(Dequeue(n), s);
  }

  /** Only a reconcile that read a pool that was not going away adds nodes, and no more than that pool asked for. */
  ghost predicate SafeStep(n: Nodes, step: Step, v: Nodes) {
    && (n.store.pool.deleting ==> v.store.pool.deleting && v.store.records.Keys <= n.store.records.Keys)
    && (n.store.pool.finalizer && !v.store.pool.finalizer ==> v.store.records.Keys == {})
    && (step.ReconcileStep? && n.store.queued ==> SafeReconcile(n, v, ReadPool(n, step.s)))
    && (!step.ReconcileStep? ==> v.store.records.Keys <= n.store.records.Keys)
  }

  lemma StepIsSafe(n: Nodes, step: Step)
    requires NoOrphans(n) && (step.ReconcileStep? ==> Complete(step.s))
    ensures NoOrphans(Take(n, step)) && SafeStep(n, step, Take(n, step))
  {
    match step
    case Outside(a) => OutsideIsSafe(n, a);
    case ReconcileStep(s, f) =>
      ReconcileIsSafe(n, s, f);
      if n.store.pool.deleting {
        DeletionIsRead(n, s);
      }
    case Restarted =>
  }

  ghost predicate DeletionSafe(n: Nodes, steps: seq<Step>)
    decreases |steps|
  {
    && NoOrphans(n)
    && (steps != [] ==> SafeStep(n, steps[0], Take(n, steps[0])) && DeletionSafe(Take(n, steps[0]), steps[1..]))
  }

  /**
   * Over every run, with the pool changed or deleted before any call: nodes never outlive their pool; the
   * finalizer is dropped only in a state without nodes; a pool whose deletion was requested before a
   * reconcile starts only loses nodes; and a reconcile that read it before adds at most the nodes it was reading for.
   */
  lemma {:induction false} DeletionIsSafe(n: Nodes, steps: seq<Step>)
    requires NoOrphans(n) && CompleteLists(steps)
    ensures DeletionSafe(n, steps)
    decreases |steps|
  {
    if steps != [] {
      StepIsSafe(n, steps[0]);
      DeletionIsSafe(Take(n, steps[0]), steps[1..]);
    }
  }

  // ---------- a deleting pool can still grow ----------

  /** The pool's deletion is requested right after a reconcile has read the pool, and nothing else happens. */
  function DeletedAfterRead(base: NodeScript): NodeScript {
    base.(env := (k: nat) => if k == 1 then [PoolDeletionRequested] else [])
  }

  lemma DeletedAfterReadTicks(n: Nodes, base: NodeScript)
    requires n.store.pool.present && n.store.pool.finalizer
    ensures var s := DeletedAfterRead(base); var w0 := Dequeue(n);
      && Tick(w0, s) == w0.(calls := 1)
      && Tick(w0.(calls := 1), s).n.store.pool == n.store.pool.(deleting := true)
      && ScalingRuns.Undisturbed(s)
  {
    var s, w0 := DeletedAfterRead(base), Dequeue(n);
    assert s.env(0) == [] && s.env(1) == [PoolDeletionRequested];
    assert ActAll(w0.n, [PoolDeletionRequested]) == ActOn(ActAll(w0.n, []), PoolDeletionRequested);
    forall k: nat, a | a in s.env(k) ensures !a.RecordDeleted? {
    }
  }

  /**
   * The reconcile that read the pool just before its deletion was requested goes on adding nodes: whenever
   * nodes are missing and the store works, a pool that is already being deleted gains some.
   */
  lemma DeletingPoolCanGrow(n: Nodes, base: NodeScript, f: Faults)
    requires var st := n.store; st.queued && st.pool.present && !st.pool.deleting && st.pool.finalizer && Valid(st.pool.spec)
    requires ScalingRuns.StoreWorks(base) && Complete(base) && ScalingRuns.IndexOrder(DisplayName(n.store.pool.spec), base)
    requires ScalingRuns.Dense(DisplayName(n.store.pool.spec), NodeWorld(n, 0)) && |n.store.records| < n.store.pool.spec.nodeCount
    ensures var v := Take(n, ReconcileStep(DeletedAfterRead(base), f));
      v.store.pool.deleting && |v.store.records| > |n.store.records|
  {
    var s, spec := DeletedAfterRead(base), n.store.pool.spec;
    DeletedAfterReadTicks(n, base);
    var w := Dequeue(n).(calls := 1);
    assert ScalingRuns.Dense(DisplayName(spec), w);
    ScalingRuns.ReconcileMovesTowardTarget(w, s, spec);
    ReconcileEndsDeleting(w, s, spec);
    ReportKeepsRecords(w, s, f, spec);
  }

  /** After the loops nothing more happens to the records, and a deletion request stays. */
  lemma ReportKeepsRecords(w: NodeWorld, s: NodeScript, f: Faults, spec: VNodePool)
    requires Valid(spec) && ScalingRuns.Undisturbed(s)
    ensures var r, v := Reconcile(w, s, spec).w.n.store, ScaleAndReport(w, s, f, spec).store;
      |v.records| == |r.records| && (r.pool.deleting ==> v.pool.deleting)
  {
    var r := Reconcile(w, s, spec);
    var w1 := Tick(r.w, s);
    TickIsNoticed(r.w, s);
    ScalingRuns.TickKeepsKeys(r.w, s);
    assert |w1.n.store.records| == |w1.n.store.records.Keys| && |r.w.n.store.records| == |r.w.n.store.records.Keys|;
  }

  /** A deletion requested before the list is still there at the end. */
  lemma ReconcileEndsDeleting(w: NodeWorld, s: NodeScript, pool: VNodePool)
    requires Complete(s) && Tick(w, s).n.store.pool.deleting
    ensures Reconcile(w, s, pool).w.n.store.pool.deleting
  {
    var w1 := Tick(w, s);
    var records := w1.n.store.records;
    var names := s.order(records.Keys);
    assert ListsAll(names, records.Keys);
    CompleteListCountsReady(records, names);
    CompleteListLength(records, names);
    LoopsStick(w1, s, pool, ListNodes(records, names));
  }

  // ---------- progress of deletion ----------

  /** The store works, and nobody else deletes records meanwhile; the registrar may do anything. */
  ghost predicate StoreWorks(s: NodeScript) {
    ScalingRuns.StoreWorks(s) && ScalingRuns.Undisturbed(s)
  }

  /** Whatever deregistration returns, the record goes. */
  lemma DeprovisionSucceeds(w: NodeWorld, s: NodeScript, node: VNode)
    requires StoreWorks(s)
    ensures var (v, failure) := Deprovision(w, s, node);
      failure.None? && v.n.store.records.Keys == w.n.store.records.Keys - {node.name}
  {
    var leaving := node.(phase := Terminating, conditions := TerminatingConditions());
    ScalingRuns.TickKeepsKeys(w, s);
    var (w1, failure) := SaveIn(w, s, leaving);
    assert failure.None? && w1.n.store.records.Keys == w.n.store.records.Keys + {node.name};
    ScalingRuns.TickKeepsKeys(w1, s);
    var w2 := DeregisterIn(w1, s, leaving);
    assert w2.n.store.records.Keys == w1.n.store.records.Keys;
    ScalingRuns.TickKeepsKeys(w2, s);
  }

  lemma {:induction false} ScaleDownRemovesAll(w: NodeWorld, s: NodeScript, working: seq<VNode>)
    requires StoreWorks(s) && forall x :: x in w.n.store.records ==> exists node :: node in working && node.name == x
    ensures var r := ScaleDown(w, s, working, |working|); r.err.None? && r.w.n.store.records.Keys == {}
    decreases |working|
  {
    if working != [] {
      var k := |working| - 1;
      DeprovisionSucceeds(w, s, working[k]);
      var w1 := Deprovision(w, s, working[k]).0;
      forall x | x in w1.n.store.records ensures exists node :: node in working[..k] && node.name == x {
        var node :| node in working && node.name == x;
        assert working == working[..k] + [working[k]];
      }
      ScaleDownRemovesAll(w1, s, working[..k]);
    }
  }

  /** Every record appears in a complete list. */
  lemma {:induction false} ListHasAll(records: map<string, Record>, names: seq<string>, x: string)
    requires x in names && x in records
    ensures exists node :: node in ListNodes(records, names) && node.name == x
  {
    var k := |names| - 1;
    if names[k] == x {
      assert ListedNode(x, records[x]) in ListNodes(records, names);
    } else {
      assert names == names[..k] + [names[k]];
      ListHasAll(records, names[..k], x);
    }
  }

  /**
   * One cleanup pass over a working store removes every node, the finalizer and the pool, whatever the
   * tenant's registrar does, while node reconcilers keep running and whatever is written to the pool.
   */
  lemma CleanupCompletes(n: Nodes, s: NodeScript, f: Faults)
    requires Complete(s) && StoreWorks(s) && n.store.pool.present && n.store.pool.deleting && n.store.pool.finalizer && n.store.queued
    requires f == Faults(false, false, false, false)
    ensures var v := Take(n, ReconcileStep(s, f)); v.store.records.Keys == {} && !v.store.pool.finalizer && !v.store.pool.present
  {
    var w := Tick(Dequeue(n), s);
    TickIsNoticed(Dequeue(n), s);
    var cr := w.n.store.pool;
    CleanupRemovesAll(w, s, cr.spec.(nodeCount := 0));
    var r := Reconcile(w, s, cr.spec.(nodeCount := 0));
    TickIsNoticed(r.w, s);
    TickIsNoticed(Tick(r.w, s), s);
    assert |Tick(r.w, s).n.store.records| == |Tick(r.w, s).n.store.records.Keys|;
  }

  lemma CleanupRemovesAll(w: NodeWorld, s: NodeScript, pool: VNodePool)
    requires Complete(s) && StoreWorks(s) && pool.nodeCount == 0
    ensures var r := Reconcile(w, s, pool); r.err.None? && r.w.n.store.records.Keys == {}
  {
    var w1 := Tick(w, s);
    var records := w1.n.store.records;
    var names := s.order(records.Keys);
    assert ListsAll(names, records.Keys);
    var working := ListNodes(records, names);
    assert DesiredScaleActions(0, |working|) == (0, |working|);
    forall x | x in records ensures exists node :: node in working && node.name == x {
      ListHasAll(records, names, x);
    }
    ScaleDownRemovesAll(w1, s, working);
  }
}
