/** The life of a virtual node: provisioning, status synchronisation, deprovisioning. */
module NodeLifecycle {
  import opened Lists
  import opened PodModel
  import opened NodeModel
  import opened HostKeys
  import opened Registrar
  import opened NodeRecords

  // ---------- conditions ----------

  function PendingConditions(): seq<NodeCondition> {
    [NodeCondition(READY, false, "Registering", "Waiting for tenant cluster node registration")]
  }

  function ReadyConditions(): seq<NodeCondition> {
    [NodeCondition(KUBECONFIG, true, "KubeconfigResolved", "Tenant kubeconfig resolved"),
     NodeCondition(REGISTERED, true, "RegistrationSucceeded", "Node registered in tenant cluster"),
     NodeCondition(LEASE, true, "LeaseActive", "Node lease is active"),
     NodeCondition(READY, true, "Ready", "Node is ready"),
     NodeCondition(DEGRADED, false, "Healthy", "Node registration is healthy")]
  }

  function RegistrationFailedConditions(message: string): seq<NodeCondition> {
    [NodeCondition(KUBECONFIG, false, "RegistrationFailed", message),
     NodeCondition(REGISTERED, false, "RegistrationFailed", message),
     NodeCondition(READY, false, "RegistrationFailed", message),
     NodeCondition(DEGRADED, true, "RegistrationFailed", message)]
  }

  function SyncFailedConditions(message: string): seq<NodeCondition> {
    [NodeCondition(READY, false, "StatusSyncFailed", message), NodeCondition(DEGRADED, true, "StatusSyncFailed", message)]
  }

  function TerminatingConditions(): seq<NodeCondition> {
    [NodeCondition(READY, false, "Terminating", "Node is being removed")]
  }

  function TextOf(err: NodeError): string {
    match err case Canceled => "context canceled" case Failure(m) => m
  }

  predicate ShouldRetryRegistration(node: VNode) {
    (node.phase == Pending || node.phase == NotReady) && FirstStatus(node.conditions, REGISTERED) != Some(true)
  }

  predicate HasRegisteredCondition(node: VNode) {
    FirstStatus(node.conditions, REGISTERED).Some?
  }

  lemma FirstOfFailed(m: string)
    ensures FirstStatus(RegistrationFailedConditions(m), REGISTERED) == Some(false)
    ensures FirstStatus(RegistrationFailedConditions(m), READY) == Some(false)
    ensures FirstStatus(SyncFailedConditions(m), REGISTERED) == None
    ensures FirstStatus(SyncFailedConditions(m), READY) == Some(false)
  {
    var r, s := RegistrationFailedConditions(m), SyncFailedConditions(m);
    assert FirstStatus(r[1..], REGISTERED) == Some(false);
    assert FirstStatus(r[1..][1..], READY) == Some(false);
    assert FirstStatus(s[1..][1..], REGISTERED) == None;
  }

  // ---------- status synchronisation ----------

  /** What a status call decides once the registrar has answered: the status to save, if any. */
  function Decide(node: VNode, answer: Option<NodeError>): Option<VNode> {
    if answer == Some(Canceled) then None
    else if ShouldRetryRegistration(node) then
      if answer.None? then Some(node.(phase := Ready, conditions := ReadyConditions()))
      else if node.phase != NotReady || !HasRegisteredCondition(node) then
        Some(node.(phase := NotReady, conditions := RegistrationFailedConditions(TextOf(answer.value))))
      else None
    else if answer.Some? then Some(node.(phase := NotReady, conditions := SyncFailedConditions(TextOf(answer.value))))
    else if node.phase == Ready && IsReady(node) then None
    else Some(node.(phase := Ready, conditions := ReadyConditions()))
  }

  /** Records and tenant together. */
  datatype Nodes = Nodes(store: Store, tenant: Tenant)

  predicate Uninitialised(node: VNode) {
    node.phase == Unset && node.conditions == []
  }

  function Answer(t: Tenant, node: VNode, api: CallFault): Try {
    if ShouldRetryRegistration(node) then Register(t, node, api) else UpdateNodeStatus(t, node, api)
  }

  datatype StatusCall = StatusCall(n: Nodes, saved: bool, err: Option<NodeError>)

  /** One status call for the record `name`, from read to save, as the node reconciler makes it. */
  function UpdateStatus(n: Nodes, name: string, api: CallFault, save: SaveFault): StatusCall {
    if name !in n.store.records then StatusCall(n, false, None)
    else
      var node := ReconciledNode(name, n.store.records[name]);
      if Uninitialised(node) then StatusCall(n, false, None)
      else Conclude(n.store, node, Answer(n.tenant, node, api), save)
  }

  /** The end of a status call: save what was decided, and report the first error that is not a cancellation. */
  function Conclude(st: Store, node: VNode, a: Try, save: SaveFault): StatusCall {
    var next := Decide(node, a.err);
    if next.None? then StatusCall(Nodes(st, a.t), false, if a.err == Some(Canceled) then None else a.err)
    else
      var (st', failure) := Save(st, next.value, save);
      StatusCall(Nodes(st', a.t), true, if failure == Some(Canceled) then None else if failure.Some? then failure else a.err)
  }

  // ---------- provisioning ----------

  datatype NodeAction =
    | Heartbeat(name: string, api: CallFault, save: SaveFault)  // a status call of the node reconciler
    | RecordDeleted(name: string)                               // somebody deletes a record
    | TenantChanged(tenant: Tenant)                             // anything happens in the tenant
    | PoolRespecified(spec: VNodePool)                          // a new generation of the pool
    | PoolDeletionRequested                                     // the pool's deletion timestamp is set

  function ActOn(n: Nodes, a: NodeAction): Nodes {
    match a
    case Heartbeat(name, api, save) => UpdateStatus(n, name, api, save).n
    case RecordDeleted(name) => n.(store := Delete(n.store, name, None).0)
    case TenantChanged(t) => n.(tenant := t)
    case PoolRespecified(spec) => n.(store := ChangePool(n.store, n.store.pool.(spec := spec)))
    case PoolDeletionRequested =>
      n.(store := ChangePool(n.store, n.store.pool.(deleting := true, present := n.store.pool.finalizer)))
  }

  /** Both changes of a pool raise the generation and so an event; without a finalizer a deleted pool is gone at once. */
  function ChangePool(st: Store, pool: PoolResource): Store {
    if st.pool.present then st.(pool := pool, queued := true) else st
  }

  function ActAll(n: Nodes, actions: seq<NodeAction>): Nodes {
    if actions == [] then n else ActOn(ActAll(n, actions[..|actions| - 1]), actions[|actions| - 1])
  }

  /**
   * What happens around a pool reconcile: node reconcilers and others act before every operation, and
   * each operation has its own fault. `order` is the order in which records are listed.
   */
  datatype NodeScript = NodeScript(
    env: nat -> seq<NodeAction>, save: nat -> SaveFault, api: nat -> CallFault, fail: nat -> Option<NodeError>,
    order: set<string> -> seq<string>)

  datatype NodeWorld = NodeWorld(n: Nodes, calls: nat)

  function Tick(w: NodeWorld, s: NodeScript): NodeWorld {
    NodeWorld(ActAll(w.n, s.env(w.calls)), w.calls + 1)
  }

  function SaveIn(w: NodeWorld, s: NodeScript, node: VNode): (NodeWorld, Option<NodeError>) {
    var w1 := Tick(w, s);
    var (st, failure) := Save(w1.n.store, node, s.save(w.calls));
    (w1.(n := w1.n.(store := st)), failure)
  }

  function RegisterIn(w: NodeWorld, s: NodeScript, node: VNode): (NodeWorld, Option<NodeError>) {
    var w1 := Tick(w, s);
    var r := Register(w1.n.tenant, node, s.api(w.calls));
    (w1.(n := w1.n.(tenant := r.t)), r.err)
  }

  function DeregisterIn(w: NodeWorld, s: NodeScript, node: VNode): NodeWorld {
    var w1 := Tick(w, s);
    w1.(n := w1.n.(tenant := Deregister(w1.n.tenant, node, s.api(w.calls)).t))
  }

  function DeleteIn(w: NodeWorld, s: NodeScript, name: string): (NodeWorld, Option<NodeError>) {
    var w1 := Tick(w, s);
    var (st, failure) := Delete(w1.n.store, name, s.fail(w.calls));
    (w1.(n := w1.n.(store := st)), failure)
  }

  function DisplayName(pool: VNodePool): string {
    if pool.displayName == "" then pool.name else pool.displayName
  }

  function NewNode(pool: VNodePool, index: nat): VNode {
    VNode(NodeName(DisplayName(pool), index), pool.tenant, pool.taints, Pending,
          pool.perNodeResources, pool.perNodeResources, PendingConditions())
  }

  datatype Provisioned = Provisioned(w: NodeWorld, node: VNode, err: Option<NodeError>)

  /** List, save as Pending, register, save the result. A failed registration leaves a NotReady record behind. */
  function Provision(w: NodeWorld, s: NodeScript, pool: VNodePool): Provisioned {
    var w1 := Tick(w, s);
    var node := NewNode(pool, |w1.n.store.records| + 1);
    if s.fail(w.calls).Some? then Provisioned(w1, node, s.fail(w.calls))
    else
      var (w2, saved) := SaveIn(w1, s, node);
      if saved.Some? then Provisioned(w2, node, saved) else RegisterAndSave(w2, s, node)
  }

  /** The second half of provisioning: register, save the result. */
  function RegisterAndSave(w: NodeWorld, s: NodeScript, node: VNode): Provisioned {
    var (w1, registered) := RegisterIn(w, s, node);
    if registered.Some? then
      var failed := node.(phase := NotReady, conditions := RegistrationFailedConditions(TextOf(registered.value)));
      Provisioned(SaveIn(w1, s, failed).0, failed, registered)
    else
      var up := node.(phase := Ready, conditions := ReadyConditions());
      var (w2, done) := SaveIn(w1, s, up);
      Provisioned(w2, up, done)
  }

  /** Mark Terminating, deregister as far as possible, delete the record. */
  function Deprovision(w: NodeWorld, s: NodeScript, node: VNode): (NodeWorld, Option<NodeError>) {
    var leaving := node.(phase := Terminating, conditions := TerminatingConditions());
    var (w1, failure) := SaveIn(w, s, leaving);
    if failure.Some? then (w1, failure) else DeleteIn(DeregisterIn(w1, s, leaving), s, node.name)
  }

  // ---------- as it runs ----------

  /** The node service over a record store and a tenant, both changed in place. */
  class NodeService {
    var store: Store
    var tenant: Tenant
    var calls: nat
    const script: NodeScript

    constructor (n: Nodes, script: NodeScript)
      ensures State() == NodeWorld(n, 0) && this.script == script
    {
      store, tenant, calls := n.store, n.tenant, 0;
      this.script := script;
    }

    function State(): NodeWorld
      reads this
    {
      NodeWorld(Nodes(store, tenant), calls)
    }

    method Begin()
      modifies this
      ensures State() == Tick(old(State()), script)
    {
      var actions := script.env(calls);
      ghost var before := Nodes(store, tenant);
      for i := 0 to |actions|
        invariant Nodes(store, tenant) == ActAll(before, actions[..i]) && calls == old(calls)
      {
        assert actions[..i + 1][..i] == actions[..i];
        var n := ActOn(Nodes(store, tenant), actions[i]);
        store, tenant := n.store, n.tenant;
      }
      assert actions[..|actions|] == actions;
      calls := calls + 1;
    }

    method SaveNode(node: VNode) returns (failure: Option<NodeError>)
      modifies this
      ensures (State(), failure) == SaveIn(old(State()), script, node)
    {
      var f := script.save(calls);
      Begin();
      match f {
        case SaveRejected(err) =>
          return Some(err);
        case _ =>
      }
      if node.name !in store.records {
        var bare := BareRecord(node);
        store := store.(records := store.records[node.name := bare]);
        match f {
          case SaveHalf(err) =>
            return Some(err);
          case SaveLost(_) =>
            return None;
          case _ =>
        }
        var written := ApplyNodeStatus(bare, node);
        store := store.(records := store.records[node.name := written], queued := store.queued || bare.phase != node.phase);
        assert store.records == Tick(old(State()), script).n.store.records[node.name := written];
        return None;
      }
      if f == SaveLost(false) {
        return None;
      }
      var current := store.records[node.name].(tenant := node.tenant);
      if f.SaveLost? {
        store := store.(records := store.records[node.name := current]);
        return None;
      }
      if f.SaveHalf? {
        store := store.(records := store.records[node.name := current]);
        return Some(f.err);
      }
      var written := ApplyNodeStatus(current, node);
      store := store.(records := store.records[node.name := written], queued := store.queued || current.phase != node.phase);
      return None;
    }

    method RegisterNode(node: VNode) returns (err: Option<NodeError>)
      modifies this
      ensures (State(), err) == RegisterIn(old(State()), script, node)
    {
      var api := new TenantApi(tenant, script.api(calls));
      Begin();
      api.t := tenant;
      err := api.DoRegister(node);
      tenant := api.t;
    }

    method ProvisionNode(pool: VNodePool) returns (node: VNode, err: Option<NodeError>)
      modifies this
      ensures Provisioned(State(), node, err) == Provision(old(State()), script, pool)
    {
      err := script.fail(calls);
      Begin();
      node := NewNode(pool, |store.records| + 1);
      if err.Some? {
        return;
      }
      err := SaveNode(node);
      if err.Some? {
        return;
      }
      err := RegisterNode(node);
      if err.Some? {
        node := node.(phase := NotReady, conditions := RegistrationFailedConditions(TextOf(err.value)));
        var _ := SaveNode(node);
        return;
      }
      node := node.(phase := Ready, conditions := ReadyConditions());
      err := SaveNode(node);
    }

    method DeprovisionNode(node: VNode) returns (err: Option<NodeError>)
      modifies this
      ensures (State(), err) == Deprovision(old(State()), script, node)
    {
      var leaving := node.(phase := Terminating, conditions := TerminatingConditions());
      err := SaveNode(leaving);
      if err.Some? {
        return;
      }
      var api := new TenantApi(tenant, script.api(calls));
      Begin();
      api.t := tenant;
      var ignored := api.DoDeregister(leaving);
      tenant := api.t;
      err := script.fail(calls);
      Begin();
      if err.Some? {
        return;
      }
      if leaving.name !in store.records {
        return Some(Failure("not found"));
      }
      store := store.(records := store.records - {leaving.name}, queued := true);
    }

    /** The status call itself, given the node the reconciler read; nobody else acts meanwhile. */
    method SyncStatus(name: string, api: CallFault, save: SaveFault) returns (saved: bool, err: Option<NodeError>)
      modifies this`store, this`tenant
      ensures StatusCall(Nodes(store, tenant), saved, err) == UpdateStatus(Nodes(old(store), old(tenant)), name, api, save)
    {
      saved, err := false, None;
      if name !in store.records {
        return;
      }
      var conditions := ReadConditions(store.records[name]);
      var r := store.records[name];
      var node := VNode(name, r.tenant, [], r.phase, r.capacity, NoResources, conditions);
      if node.phase == Unset && |node.conditions| == 0 {
        return;
      }
      if ShouldRetryRegistration(node) {
        saved, err := RetryRegistration(node, api, save);
      } else {
        saved, err := ReportStatus(node, api, save);
      }
    }

    method RetryRegistration(node: VNode, api: CallFault, save: SaveFault) returns (saved: bool, err: Option<NodeError>)
      requires ShouldRetryRegistration(node)
      modifies this`store, this`tenant
      ensures StatusCall(Nodes(store, tenant), saved, err) == Conclude(old(store), node, Register(old(tenant), node, api), save)
    {
      saved, err := false, None;
      var tenantApi := new TenantApi(tenant, api);
      var failed := tenantApi.DoRegister(node);
      tenant := tenantApi.t;
      if failed.Some? {
        if failed.value.Canceled? {
          return;
        }
        err := failed;
        if node.phase != NotReady || !HasRegisteredCondition(node) {
          saved, err := FinishStatus(
            node.(phase := NotReady, conditions := RegistrationFailedConditions(TextOf(failed.value))), save, failed);
        }
        return;
      }
      saved, err := FinishStatus(node.(phase := Ready, conditions := ReadyConditions()), save, None);
    }

    method ReportStatus(node: VNode, api: CallFault, save: SaveFault) returns (saved: bool, err: Option<NodeError>)
      requires !ShouldRetryRegistration(node)
      modifies this`store, this`tenant
      ensures StatusCall(Nodes(store, tenant), saved, err) == Conclude(old(store), node, UpdateNodeStatus(old(tenant), node, api), save)
    {
      saved, err := false, None;
      var tenantApi := new TenantApi(tenant, api);
      var failed := tenantApi.DoUpdateNodeStatus(node);
      tenant := tenantApi.t;
      if failed.Some? {
        if failed.value.Canceled? {
          return;
        }
        saved, err := FinishStatus(
          node.(phase := NotReady, conditions := SyncFailedConditions(TextOf(failed.value))), save, failed);
        return;
      }
      if node.phase == Ready && IsReady(node) {
        return;
      }
      saved, err := FinishStatus(node.(phase := Ready, conditions := ReadyConditions()), save, None);
    }

    /** The save at the end of a status call, and the error the call reports. */
    method FinishStatus(node: VNode, save: SaveFault, cause: Option<NodeError>) returns (saved: bool, err: Option<NodeError>)
      modifies this`store
      ensures var (st, failure) := Save(old(store), node, save);
        store == st && saved && err == (if failure == Some(Canceled) then None else if failure.Some? then failure else cause)
    {
      var (st, failure) := Save(store, node, save);
      store := st;
      saved := true;
      err := if failure == Some(Canceled) then None else if failure.Some? then failure else cause;
    }
  }
}
