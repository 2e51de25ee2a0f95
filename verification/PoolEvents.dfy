/** Which changes of nodes and pool reach the controller's queue, what a list counts, and how far one reconcile can go. */
module PoolEvents {
  import opened Lists
  import opened PodModel
  import opened NodeModel
  import opened HostKeys
  import opened Registrar
  import opened NodeRecords
  import opened NodeLifecycle
  import opened PoolScaling
  import opened PoolController
  import opened ScalingRuns

  // ---------- what runs are considered ----------

  ghost predicate ListsAll(q: seq<string>, names: set<string>) {
    && (forall x :: x in q <==> x in names)
    && (forall i, j :: 0 <= i < j < |q| ==> q[i] != q[j])
  }

  /** Lists are complete, in any order. */
  ghost predicate Complete(s: NodeScript) {
    forall names :: ListsAll(s.order(names), names)
  }

  ghost predicate CompleteLists(steps: seq<Step>) {
    forall i :: 0 <= i < |steps| && steps[i].ReconcileStep? ==> Complete(steps[i].s)
  }

  // ---------- what can happen to the pool meanwhile ----------

  /** While the finalizer is held the pool exists; a deletion request is not taken back; the finalizer and status are the controller's. */
  ghost predicate PoolRely(a: PoolResource, b: PoolResource) {
    && b.finalizer == a.finalizer && b.readyNodes == a.readyNodes && (a.deleting ==> b.deleting)
    && (a.finalizer ==> b.present == a.present) && (b.present ==> a.present)
  }

  /** The queue keeps an event, and an unqueued pool is unchanged. */
  ghost predicate Later(a: Store, b: Store) {
    (a.queued ==> b.queued) && PoolRely(a.pool, b.pool) && (!b.queued ==> b.pool == a.pool)
  }

  lemma LaterTrans(a: Store, b: Store, c: Store)
    requires Later(a, b) && Later(b, c)
    ensures Later(a, c)
  {
  }

  // ---------- events and phases ----------

  ghost function ReadySet(records: map<string, Record>): set<string> {
    set x | x in records && CountsAsReady(records[x].phase)
  }

  /** Unless the pool got queued, no record came, went or changed phase. */
  ghost predicate Noticed(a: Store, b: Store) {
    && Later(a, b)
    && (!b.queued ==> a.records.Keys == b.records.Keys && forall x :: x in a.records ==> a.records[x].phase == b.records[x].phase)
  }

  lemma NoticedTrans(a: Store, b: Store, c: Store)
    requires Noticed(a, b) && Noticed(b, c)
    ensures Noticed(a, c)
  {
  }

  lemma NoticedCounts(a: Store, b: Store)
    requires Noticed(a, b) && !b.queued
    ensures ReadySet(a.records) == ReadySet(b.records)
  {
  }

  /** Node reconcilers, deletions and the pool's owner cannot change the ready count behind the pool's back. */
  lemma ActionIsNoticed(n: Nodes, a: NodeAction)
    ensures Noticed(n.store, ActOn(n, a).store)
    ensures ActOn(n, a).store.records.Keys <= n.store.records.Keys
  {
    if a.Heartbeat? {
      HeartbeatIsNoticed(n, a.name, a.api, a.save);
    }
  }

  lemma SaveOverIsNoticed(st: Store, node: VNode, f: SaveFault)
    requires node.name in st.records
    ensures Noticed(st, Save(st, node, f).0) && Save(st, node, f).0.records.Keys == st.records.Keys
  {
  }

  lemma HeartbeatIsNoticed(n: Nodes, name: string, api: CallFault, save: SaveFault)
    ensures var v := UpdateStatus(n, name, api, save).n;
      Noticed(n.store, v.store) && v.store.records.Keys == n.store.records.Keys
  {
    if name in n.store.records {
      var node := ReconciledNode(name, n.store.records[name]);
      var next := Decide(node, Answer(n.tenant, node, api).err);
      if next.Some? {
        SaveOverIsNoticed(n.store, next.value, save);
      }
    }
  }

  lemma {:induction false} ActionsAreNoticed(n: Nodes, actions: seq<NodeAction>)
    ensures Noticed(n.store, ActAll(n, actions).store)
    ensures ActAll(n, actions).store.records.Keys <= n.store.records.Keys
  {
    if actions != [] {
      var k := |actions| - 1;
      ActionsAreNoticed(n, actions[..k]);
      ActionIsNoticed(ActAll(n, actions[..k]), actions[k]);
      NoticedTrans(n.store, ActAll(n, actions[..k]).store, ActAll(n, actions).store);
    }
  }

  lemma TickIsNoticed(w: NodeWorld, s: NodeScript)
    ensures Noticed(w.n.store, Tick(w, s).n.store)
    ensures Tick(w, s).n.store.records.Keys <= w.n.store.records.Keys
  {
    ActionsAreNoticed(w.n, s.env(w.calls));
  }

  /** What one save can do: add its record, raise an event; the pool is not its business. */
  lemma SaveInSticks(w: NodeWorld, s: NodeScript, node: VNode)
    ensures var v := SaveIn(w, s, node).0;
      Later(w.n.store, v.n.store) && v.n.store.records.Keys <= w.n.store.records.Keys + {node.name}
  {
    TickIsNoticed(w, s);
  }

  lemma RegisterAndSaveSticks(w: NodeWorld, s: NodeScript, node: VNode)
    ensures var v := RegisterAndSave(w, s, node).w;
      Later(w.n.store, v.n.store) && v.n.store.records.Keys <= w.n.store.records.Keys + {node.name}
  {
    var (w3, registered) := RegisterIn(w, s, node);
    TickIsNoticed(w, s);
    assert w3.n.store == Tick(w, s).n.store;
    var last := if registered.Some?
                then node.(phase := NotReady, conditions := RegistrationFailedConditions(NodeLifecycle.TextOf(registered.value)))
                else node.(phase := Ready, conditions := ReadyConditions());
    SaveInSticks(w3, s, last);
    LaterTrans(w.n.store, w3.n.store, SaveIn(w3, s, last).0.n.store);
  }

  /** What provisioning can do: add the one record it names. */
  lemma ProvisionSticks(w: NodeWorld, s: NodeScript, pool: VNodePool) returns (index: nat)
    ensures var v := Provision(w, s, pool).w;
      && Later(w.n.store, v.n.store)
      && v.n.store.records.Keys <= w.n.store.records.Keys + {NodeName(DisplayName(pool), index)}
  {
    var w1 := Tick(w, s);
    TickIsNoticed(w, s);
    index := |w1.n.store.records| + 1;
    SaveRegisterSaveSticks(w1, s, NewNode(pool, index));
    var v := Provision(w, s, pool).w;
    if s.fail(w.calls).None? {
      LaterTrans(w.n.store, w1.n.store, v.n.store);
    }
  }

  /** Provisioning once the node's number is known. */
  function SaveRegisterSave(w: NodeWorld, s: NodeScript, node: VNode): Provisioned {
    var (w1, saved) := SaveIn(w, s, node);
    if saved.Some? then Provisioned(w1, node, saved) else RegisterAndSave(w1, s, node)
  }

  lemma SaveRegisterSaveSticks(w: NodeWorld, s: NodeScript, node: VNode)
    ensures var v := SaveRegisterSave(w, s, node).w;
      Later(w.n.store, v.n.store) && v.n.store.records.Keys <= w.n.store.records.Keys + {node.name}
  {
    var (w1, saved) := SaveIn(w, s, node);
    SaveInSticks(w, s, node);
    RegisterAndSaveSticks(w1, s, node);
    LaterTrans(w.n.store, w1.n.store, RegisterAndSave(w1, s, node).w.n.store);
  }

  /** Deprovisioning that reports success always queues the pool, and never leaves more records than there were. */
  lemma DeprovisionIsNoticed(w: NodeWorld, s: NodeScript, node: VNode)
    ensures var (v, failure) := Deprovision(w, s, node);
      && Later(w.n.store, v.n.store) && (failure.None? ==> v.n.store.queued)
      && v.n.store.records.Keys <= w.n.store.records.Keys + {node.name}
      && (failure.None? ==> v.n.store.records.Keys <= w.n.store.records.Keys - {node.name})
  {
    var leaving := node.(phase := Terminating, conditions := TerminatingConditions());
    SaveInSticks(w, s, leaving);
    var (w1, failure) := SaveIn(w, s, leaving);
    if failure.None? {
      TickIsNoticed(w1, s);
      var w2 := DeregisterIn(w1, s, leaving);
      assert w2.n.store == Tick(w1, s).n.store;
      LaterTrans(w.n.store, w1.n.store, w2.n.store);
      TickIsNoticed(w2, s);
      LaterTrans(w.n.store, w2.n.store, Tick(w2, s).n.store);
    }
  }

  // ---------- the loops ----------

  /** Records beyond the old ones are numbered nodes of the pool, and there are at most `more` of them. */
  ghost predicate Grown(display: string, a: set<string>, b: set<string>, more: nat) {
    |b| <= |a| + more && forall x :: x in b ==> x in a || exists i: nat :: x == NodeName(display, i)
  }

  lemma GrownByOne(display: string, a: set<string>, b: set<string>, index: nat)
    requires b <= a + {NodeName(display, index)}
    ensures Grown(display, a, b, 1)
  {
    SubsetIsSmaller(b, a + {NodeName(display, index)});
  }

  /** What adding up to `more` nodes can do to the store. */
  ghost predicate Expanded(display: string, a: NodeWorld, b: NodeWorld, more: nat) {
    Later(a.n.store, b.n.store) && Grown(display, a.n.store.records.Keys, b.n.store.records.Keys, more)
  }

  lemma ExpandedTrans(display: string, a: NodeWorld, b: NodeWorld, c: NodeWorld, more: nat)
    requires Expanded(display, a, b, 1) && Expanded(display, b, c, more)
    ensures Expanded(display, a, c, more + 1)
  {
    LaterTrans(a.n.store, b.n.store, c.n.store);
  }

  lemma ProvisionExpands(w: NodeWorld, s: NodeScript, pool: VNodePool)
    ensures Expanded(DisplayName(pool), w, Provision(w, s, pool).w, 1)
  {
    var index := ProvisionSticks(w, s, pool);
    GrownByOne(DisplayName(pool), w.n.store.records.Keys, Provision(w, s, pool).w.n.store.records.Keys, index);
  }

  lemma ScaleUpSticks(w: NodeWorld, s: NodeScript, pool: VNodePool, working: seq<VNode>, toAdd: nat)
    ensures Expanded(DisplayName(pool), w, ScaleUp(w, s, pool, working, toAdd).w, toAdd)
  {
    var r := (a: NodeWorld, b: NodeWorld, more: nat) => Expanded(DisplayName(pool), a, b, more);
    forall a, b, c, k: nat | r(a, b, 1) && r(b, c, k) ensures r(a, c, k + 1) {
      ExpandedTrans(DisplayName(pool), a, b, c, k);
    }
    forall a ensures r(a, Adder(s, pool)(a).w, 1) {
      ProvisionExpands(a, s, pool);
    }
    RoundsWalk(r, Adder(s, pool), w, working, toAdd);
    ScaleUpIsRounds(w, s, pool, working, toAdd);
  }

  lemma {:induction false} ScaleDownIsNoticed(w: NodeWorld, s: NodeScript, working: seq<VNode>, toRemove: nat, bound: set<string>)
    requires w.n.store.records.Keys <= bound && forall node :: node in working ==> node.name in bound
    ensures var r := ScaleDown(w, s, working, toRemove);
      && Later(w.n.store, r.w.n.store) && (toRemove > 0 && working != [] && r.err.None? ==> r.w.n.store.queued)
      && r.w.n.store.records.Keys <= bound
    decreases toRemove
  {
    if toRemove > 0 && working != [] {
      var k := |working| - 1;
      assert working[k] in working;
      DeprovisionIsNoticed(w, s, working[k]);
      var (w1, failure) := Deprovision(w, s, working[k]);
      if failure.None? {
        ScaleDownIsNoticed(w1, s, working[..k], toRemove - 1, bound);
        LaterTrans(w.n.store, w1.n.store, ScaleDown(w1, s, working[..k], toRemove - 1).w.n.store);
      }
    }
  }

  // ---------- counting a list ----------

  ghost function ReadyAmong(records: map<string, Record>, names: seq<string>): set<string> {
    set x | x in names && x in records && CountsAsReady(records[x].phase)
  }

  lemma ReadyAmongSnoc(records: map<string, Record>, names: seq<string>, k: nat)
    requires |names| == k + 1 && names[k] !in names[..k]
    ensures var more := if names[k] in records && CountsAsReady(records[names[k]].phase) then 1 else 0;
      |ReadyAmong(records, names)| == |ReadyAmong(records, names[..k])| + more
  {
    var rest := ReadyAmong(records, names[..k]);
    assert names == names[..k] + [names[k]];
    if names[k] in records && CountsAsReady(records[names[k]].phase) {
      assert ReadyAmong(records, names) == rest + {names[k]};
    } else {
      assert ReadyAmong(records, names) == rest;
    }
  }

  lemma ReadyNodesSnoc(working: seq<VNode>, node: VNode)
    ensures ReadyNodes(working + [node]) == ReadyNodes(working) + (if CountsAsReady(node.phase) then 1 else 0)
  {
    assert (working + [node])[..|working|] == working;
  }

  lemma {:induction false} ListCountsReady(records: map<string, Record>, names: seq<string>)
    requires forall i, j :: 0 <= i < j < |names| ==> names[i] != names[j]
    ensures ReadyNodes(ListNodes(records, names)) == |ReadyAmong(records, names)|
    ensures forall node :: node in ListNodes(records, names) ==> node.name in records
    ensures |ListNodes(records, names)| <= |names|
  {
    if names != [] {
      var k := |names| - 1;
      ListCountsReady(records, names[..k]);
      ReadyAmongSnoc(records, names, k);
      if names[k] in records {
        ReadyNodesSnoc(ListNodes(records, names[..k]), ListedNode(names[k], records[names[k]]));
      } else {
        assert ListNodes(records, names) == ListNodes(records, names[..k]);
      }
    }
  }

  lemma CompleteListCountsReady(records: map<string, Record>, names: seq<string>)
    requires ListsAll(names, records.Keys)
    ensures ReadyNodes(ListNodes(records, names)) == |ReadySet(records)|
    ensures forall node :: node in ListNodes(records, names) ==> node.name in records
  {
    ListCountsReady(records, names);
    assert ReadyAmong(records, names) == ReadySet(records);
  }

  /** A complete list has one entry per record. */
  lemma {:induction false} CompleteListLength(records: map<string, Record>, names: seq<string>)
    requires ListsAll(names, records.Keys)
    ensures |ListNodes(records, names)| == |records.Keys|
  {
    ListNodesElements(records, names);
    DistinctSize(names, records.Keys);
  }

  // ---------- how far one reconcile can go ----------

  /**
   * One reconcile of the nodes: the pool changes only as its owner and the queue allow, new records are
   * numbered nodes of the pool, and there are never more records than there were or than the target asks.
   */
  lemma ReconcileSticks(w: NodeWorld, s: NodeScript, pool: VNodePool)
    requires Complete(s)
    ensures var v := Reconcile(w, s, pool).w; var a, b := w.n.store.records.Keys, v.n.store.records.Keys;
      && Later(w.n.store, v.n.store)
      && (|b| <= |a| || |b| <= pool.nodeCount)
      && (forall x :: x in b ==> x in a || exists i: nat :: x == NodeName(DisplayName(pool), i))
      && (pool.nodeCount <= 0 ==> b <= a)
  {
    var w1 := Tick(w, s);
    TickIsNoticed(w, s);
    SubsetIsSmaller(w1.n.store.records.Keys, w.n.store.records.Keys);
    if s.fail(w.calls).None? {
      var records := w1.n.store.records;
      var names := s.order(records.Keys);
      assert ListsAll(names, records.Keys);
      CompleteListCountsReady(records, names);
      CompleteListLength(records, names);
      LoopsStick(w1, s, pool, ListNodes(records, names));
      LaterTrans(w.n.store, w1.n.store, Reconcile(w, s, pool).w.n.store);
    }
  }

  lemma LoopsStick(w: NodeWorld, s: NodeScript, pool: VNodePool, working: seq<VNode>)
    requires |working| == |w.n.store.records.Keys| && forall node :: node in working ==> node.name in w.n.store.records
    ensures var v := Loops(w, s, pool, working).w; var a, b := w.n.store.records.Keys, v.n.store.records.Keys;
      && Later(w.n.store, v.n.store)
      && (|b| <= |a| || |b| <= pool.nodeCount)
      && (forall x :: x in b ==> x in a || exists i: nat :: x == NodeName(DisplayName(pool), i))
      && (pool.nodeCount <= 0 ==> b <= a)
  {
    var (toAdd, toRemove) := DesiredScaleActions(pool.nodeCount, |working|);
    ScaleUpSticks(w, s, pool, working, toAdd);
    var v := Loops(w, s, pool, working).w;
    if toAdd == 0 {
      ScaleDownIsNoticed(w, s, working, toRemove, w.n.store.records.Keys);
      SubsetIsSmaller(v.n.store.records.Keys, w.n.store.records.Keys);
    } else {
      var up := ScaleUp(w, s, pool, working, toAdd);
      assert v == up.w;
    }
  }
}
