/** VNode records as stored, the two readings of them, and the store's save. */
module NodeRecords {
  import opened Lists
  import opened PodModel
  import opened NodeModel
  import opened Registrar

  datatype RecordCondition = RecordCondition(kind: string, status: string, reason: string, message: string)

  datatype Record = Record(tenant: TenantRef, capacity: ResourceList, phase: NodePhase, conditions: seq<RecordCondition>)

  function ConditionToRecord(c: NodeCondition): RecordCondition {
    RecordCondition(c.kind, if c.status then "True" else "False", c.reason, c.message)
  }

  function ConditionFromRecord(c: RecordCondition): NodeCondition {
    NodeCondition(c.kind, c.status == "True", c.reason, c.message)
  }

  /** A node as the repository lists it: allocatable is taken to be the capacity, taints are not stored. */
  function ListedNode(name: string, r: Record): VNode {
    VNode(name, r.tenant, [], r.phase, r.capacity, r.capacity, Map(ConditionFromRecord, r.conditions))
  }

  /** A node as the node reconciler rebuilds it: neither taints nor allocatable are filled in. */
  function ReconciledNode(name: string, r: Record): VNode {
    VNode(name, r.tenant, [], r.phase, r.capacity, NoResources, Map(ConditionFromRecord, r.conditions))
  }

  function WithStatus(r: Record, node: VNode): Record {
    r.(phase := node.phase, conditions := Map(ConditionToRecord, node.conditions))
  }

  /** A record just created, before its status is written. */
  function BareRecord(node: VNode): Record {
    Record(node.tenant, node.capacity, Unset, [])
  }

  /** Writing a status and reading it back preserves phase and conditions, on both reading paths. */
  lemma StatusRoundTrip(r: Record, node: VNode, name: string)
    ensures ListedNode(name, WithStatus(r, node)).phase == node.phase
    ensures ListedNode(name, WithStatus(r, node)).conditions == node.conditions
    ensures ReconciledNode(name, WithStatus(r, node)).conditions == node.conditions
  {
  }

  method ApplyNodeStatus(r: Record, node: VNode) returns (out: Record)
    ensures out == WithStatus(r, node)
  {
    out := r.(phase := node.phase, conditions := []);
    for i := 0 to |node.conditions|
      invariant out == r.(phase := node.phase, conditions := Map(ConditionToRecord, node.conditions[..i]))
    {
      var status := "False";
      if node.conditions[i].status {
        status := "True";
      }
      var c := node.conditions[i];
      out := out.(conditions := out.conditions + [RecordCondition(c.kind, status, c.reason, c.message)]);
    }
    assert node.conditions[..|node.conditions|] == node.conditions;
  }

  method ReadConditions(r: Record) returns (out: seq<NodeCondition>)
    ensures out == Map(ConditionFromRecord, r.conditions)
  {
    out := [];
    for i := 0 to |r.conditions|
      invariant out == Map(ConditionFromRecord, r.conditions[..i])
    {
      var c := r.conditions[i];
      out := out + [NodeCondition(c.kind, c.status == "True", c.reason, c.message)];
    }
    assert r.conditions[..|r.conditions|] == r.conditions;
  }

  /**
   * How a save can go: written; rejected before anything changed; the object written but not its
   * status, with an error; or the error swallowed because the context ended, before or after an
   * existing record's annotations were written.
   */
  datatype SaveFault = SaveOk | SaveRejected(err: NodeError) | SaveHalf(err: NodeError) | SaveLost(annotated: bool)

  /** The pool resource: spec, deletion timestamp, finalizer, and the ready count in its status. */
  datatype PoolResource = PoolResource(spec: VNodePool, present: bool, deleting: bool, finalizer: bool, readyNodes: int)

  /** The API server's side: the VNode records, the pool, and whether the pool waits in the controller's queue. */
  datatype Store = Store(records: map<string, Record>, queued: bool, pool: PoolResource)

  /**
   * Save creates a missing record and updates an existing one. A creation raises no pool event; a status
   * write raises one exactly when it changes the phase.
   */
  function Save(st: Store, node: VNode, f: SaveFault): (Store, Option<NodeError>) {
    var exists_ := node.name in st.records;
    var base := if exists_ then st.records[node.name].(tenant := node.tenant) else BareRecord(node);
    match f
    case SaveRejected(err) => (st, Some(err))
    case SaveHalf(err) => (st.(records := st.records[node.name := base]), Some(err))
    case SaveLost(annotated) =>
      (if exists_ && !annotated then st else st.(records := st.records[node.name := base]), None)
    case SaveOk =>
      (st.(records := st.records[node.name := WithStatus(base, node)], queued := st.queued || base.phase != node.phase), None)
  }

  /** Deleting a missing record is an error; deleting one raises a pool event. */
  function Delete(st: Store, name: string, failure: Option<NodeError>): (Store, Option<NodeError>) {
    if failure.Some? then (st, failure)
    else if name !in st.records then (st, Some(Failure("not found")))
    else (st.(records := st.records - {name}, queued := true), None)
  }
}
