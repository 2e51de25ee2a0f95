/** Scaling a pool: the reconcile loop over its virtual nodes. */
module PoolScaling {
  import opened Lists
  import opened PodModel
  import opened NodeModel
  import opened Registrar
  import opened NodeRecords
  import opened NodeLifecycle

  datatype PoolPhase = PoolPending | PoolReady | PoolScalingPhase | PoolFailed | PoolDeleting

  /** Nodes to add and nodes to remove to reach the target. */
  function DesiredScaleActions(target: int, current: nat): (r: (int, int))
    ensures r.0 >= 0 && r.1 >= 0 && (r.0 == 0 || r.1 == 0) && current + r.0 - r.1 == target
  {
    if target > current then (target - current, 0)
    else if target < current then (0, current - target)
    else (0, 0)
  }

  /** Counted as ready: every phase except NotReady and Terminating. */
  predicate CountsAsReady(phase: NodePhase) {
    phase != NotReady && phase != Terminating
  }

  function NodeCountsAsReady(node: VNode): bool {
    CountsAsReady(node.phase)
  }

  function ListNodes(records: map<string, Record>, names: seq<string>): seq<VNode> {
    if names == [] then []
    else
      var k := |names| - 1;
      ListNodes(records, names[..k]) + (if names[k] in records then [ListedNode(names[k], records[names[k]])] else [])
  }

  datatype Reconciled = Reconciled(w: NodeWorld, working: seq<VNode>, err: Option<NodeError>)

  function ScaleUp(w: NodeWorld, s: NodeScript, pool: VNodePool, working: seq<VNode>, toAdd: nat): Reconciled
    decreases toAdd
  {
    if toAdd == 0 then Reconciled(w, working, None)
    else
      var p := Provision(w, s, pool);
      if p.err.Some? then Reconciled(p.w, working, p.err)
      else ScaleUp(p.w, s, pool, working + [p.node], toAdd - 1)
  }

  function ScaleDown(w: NodeWorld, s: NodeScript, working: seq<VNode>, toRemove: nat): Reconciled
    decreases toRemove
  {
    if toRemove == 0 || working == [] then Reconciled(w, working, None)
    else
      var k := |working| - 1;
      var (w1, failure) := Deprovision(w, s, working[k]);
      if failure.Some? then Reconciled(w1, working, failure) else ScaleDown(w1, s, working[..k], toRemove - 1)
  }

  /** One pool reconcile: list, add or remove from the end, stopping at the first error. */
  function Reconcile(w: NodeWorld, s: NodeScript, pool: VNodePool): Reconciled {
    var w1 := Tick(w, s);
    if s.fail(w.calls).Some? then Reconciled(w1, [], s.fail(w.calls))
    else
      var records := w1.n.store.records;
      var working := ListNodes(records, s.order(records.Keys));
      var (toAdd, toRemove) := DesiredScaleActions(pool.nodeCount, |working|);
      var up := ScaleUp(w1, s, pool, working, toAdd);
      if up.err.Some? then up else ScaleDown(up.w, s, up.working, toRemove)
  }

  function ReadyNodes(working: seq<VNode>): nat {
    |Filter(NodeCountsAsReady, working)|
  }

  function PhaseAfter(r: Reconciled, target: int): PoolPhase {
    if r.err.Some? then PoolFailed else if ReadyNodes(r.working) == target then PoolReady else PoolScalingPhase
  }

  // ---------- as it runs ----------

  method AddNodes(svc: NodeService, pool: VNodePool, listed: seq<VNode>, toAdd: nat)
    returns (working: seq<VNode>, names: seq<string>, err: Option<NodeError>)
    modifies svc
    ensures Reconciled(svc.State(), working, err) == ScaleUp(old(svc.State()), svc.script, pool, listed, toAdd)
  {
    working, names := listed, [];
    for i := 0 to toAdd
      invariant ScaleUp(old(svc.State()), svc.script, pool, listed, toAdd) == ScaleUp(svc.State(), svc.script, pool, working, toAdd - i)
    {
      var node;
      node, err := svc.ProvisionNode(pool);
      if err.Some? {
        return;
      }
      names := names + [node.name];
      working := working + [node];
    }
    err := None;
  }

  method RemoveNodes(svc: NodeService, listed: seq<VNode>, toRemove: nat) returns (working: seq<VNode>, err: Option<NodeError>)
    modifies svc
    ensures Reconciled(svc.State(), working, err) == ScaleDown(old(svc.State()), svc.script, listed, toRemove)
  {
    working := listed;
    for i := 0 to toRemove
      invariant ScaleDown(old(svc.State()), svc.script, listed, toRemove) == ScaleDown(svc.State(), svc.script, working, toRemove - i)
    {
      var idx := |working| - 1;
      if idx < 0 {
        return working, None;
      }
      err := svc.DeprovisionNode(working[idx]);
      if err.Some? {
        return;
      }
      working := working[..idx];
    }
    err := None;
  }

  method CountReady(working: seq<VNode>) returns (ready: nat)
    ensures ready == ReadyNodes(working)
  {
    ready := 0;
    for i := 0 to |working|
      invariant ready == ReadyNodes(working[..i])
    {
      FilterSnoc(NodeCountsAsReady, working, i);
      if working[i].phase != NotReady && working[i].phase != Terminating {
        ready := ready + 1;
      }
    }
    assert working[..|working|] == working;
  }

  /** A failed list leaves the phase the pool had before. */
  method ReconcilePoolNodes(svc: NodeService, pool: VNodePool, before: PoolPhase)
    returns (ready: nat, phase: PoolPhase, names: seq<string>, err: Option<NodeError>)
    modifies svc
    ensures var r := Reconcile(old(svc.State()), svc.script, pool);
      && r.w == svc.State() && r.err == err
      && phase == (if svc.script.fail(old(svc.calls)).Some? then before else PhaseAfter(r, pool.nodeCount))
      && (err.None? ==> ready == ReadyNodes(r.working))
  {
    ready, phase, names := 0, before, [];
    err := svc.script.fail(svc.calls);
    svc.Begin();
    if err.Some? {
      return;
    }
    phase := PoolFailed;
    var working := ListNodes(svc.store.records, svc.script.order(svc.store.records.Keys));
    var (toAdd, toRemove) := DesiredScaleActions(pool.nodeCount, |working|);
    working, names, err := AddNodes(svc, pool, working, toAdd);
    if err.Some? {
      return;
    }
    working, err := RemoveNodes(svc, working, toRemove);
    if err.Some? {
      return;
    }
    ready := CountReady(working);
    phase := if ready == pool.nodeCount then PoolReady else PoolScalingPhase;
  }
}
