/** Virtual nodes as the domain sees them. */
module NodeModel {
  import opened Lists
  import opened PodModel

  /** `Unset` is the empty phase of a record whose status was never written. */
  datatype NodePhase = Unset | Pending | Ready | NotReady | Terminating

  const REGISTERED := "Registered"
  const READY := "Ready"
  const KUBECONFIG := "KubeconfigResolved"
  const LEASE := "LeaseActive"
  const DEGRADED := "Degraded"

  datatype NodeCondition = NodeCondition(kind: string, status: bool, reason: string, message: string)

  datatype VNode = VNode(
    name: string, tenant: TenantRef, taints: seq<Taint>, phase: NodePhase,
    capacity: ResourceList, allocatable: ResourceList, conditions: seq<NodeCondition>)

  /** Status of the first condition of the given kind, if there is one. */
  function FirstStatus(conditions: seq<NodeCondition>, kind: string): Option<bool> {
    if conditions == [] then None
    else if conditions[0].kind == kind then Some(conditions[0].status)
    else FirstStatus(conditions[1..], kind)
  }

  predicate IsReady(node: VNode) {
    node.phase == Ready || FirstStatus(node.conditions, READY) == Some(true)
  }
}
