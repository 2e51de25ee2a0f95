/** Registration of virtual nodes in the tenant cluster: the tenant's Node and Lease objects. */
module Registrar {
  import opened Lists
  import opened PodModel
  import opened NodeModel

  datatype TenantCondition = TenantCondition(kind: string, status: string, reason: string, message: string)

  datatype TenantNode = TenantNode(
    taints: seq<Taint>, capacity: ResourceList, allocatable: ResourceList, conditions: seq<TenantCondition>)

  datatype Tenant = Tenant(nodes: map<string, TenantNode>, leases: set<string>, leaseNamespace: bool)

  /** `Canceled` is a context that ended; the services treat it as no error. */
  datatype NodeError = Canceled | Failure(message: string)

  /** Which call of an operation is the first to fail: none, or the one after `n` successful calls. */
  datatype CallFault = NoFault | After(n: nat, err: NodeError)

  datatype Try = Try(t: Tenant, f: CallFault, err: Option<NodeError>)

  function Due(f: CallFault): Option<NodeError> {
    if f.After? && f.n == 0 then Some(f.err) else None
  }

  function Spend(f: CallFault): CallFault {
    if f.After? && f.n > 0 then After(f.n - 1, f.err) else f
  }

  const NoResources := ResourceList("", "", 0)
  const EmptyNode := TenantNode([], NoResources, NoResources, [])

  function BuildResources(r: ResourceList): ResourceList {
    r.(pods := if r.pods > 0 then r.pods else 0)
  }

  function TenantConditionOf(c: NodeCondition): TenantCondition {
    TenantCondition(c.kind, if c.status then "True" else "False", c.reason, c.message)
  }

  function Reported(node: VNode, current: TenantNode): TenantNode {
    current.(capacity := BuildResources(node.capacity), allocatable := BuildResources(node.allocatable),
             conditions := Map(TenantConditionOf, node.conditions))
  }

  // ---------- the operations as functions ----------

  function UpsertNode(t: Tenant, node: VNode, f: CallFault): Try {
    if Due(f).Some? then Try(t, f, Due(f))
    else
      var f1 := Spend(f);
      if Due(f1).Some? then Try(t, f1, Due(f1))
      else
        var current := if node.name in t.nodes then t.nodes[node.name] else EmptyNode;
        Try(t.(nodes := t.nodes[node.name := current.(taints := node.taints)]), Spend(f1), None)
  }

  function UpsertLease(t: Tenant, name: string, f: CallFault): Try {
    if Due(f).Some? then Try(t, f, Due(f))
    else
      var f1 := Spend(f);
      if Due(f1).Some? then Try(t, f1, Due(f1))
      else if name !in t.leases && !t.leaseNamespace then Try(t, f1, Some(Failure("lease namespace not found")))
      else Try(t.(leases := t.leases + {name}), Spend(f1), None)
  }

  /** Without a kubeconfig secret there is no tenant to report to. */
  function UpdateNodeStatus(t: Tenant, node: VNode, f: CallFault): Try {
    if node.tenant.kubeconfigSecret == "" then Try(t, f, None)
    else if Due(f).Some? then Try(t, f, Due(f))
    else
      var f1 := Spend(f);
      if Due(f1).Some? then Try(t, f1, Due(f1))
      else if node.name !in t.nodes then Try(t, f1, Some(Failure("node not found")))
      else
        var f2 := Spend(f1);
        if Due(f2).Some? then Try(t, f2, Due(f2))
        else UpsertLease(t.(nodes := t.nodes[node.name := Reported(node, t.nodes[node.name])]), node.name, Spend(f2))
  }

  function EnsureLeaseNamespace(t: Tenant, f: CallFault): Try {
    if Due(f).Some? then Try(t, f, Due(f))
    else if t.leaseNamespace then Try(t, Spend(f), None)
    else
      var f1 := Spend(f);
      if Due(f1).Some? then Try(t, f1, Due(f1)) else Try(t.(leaseNamespace := true), Spend(f1), None)
  }

  function Register(t: Tenant, node: VNode, f: CallFault): Try {
    if Due(f).Some? then Try(t, f, Due(f))
    else
      var a := EnsureLeaseNamespace(t, Spend(f));
      if a.err.Some? then a
      else
        var b := UpsertNode(a.t, node, a.f);
        if b.err.Some? then b else UpdateNodeStatus(b.t, node, b.f)
  }

  function Deregister(t: Tenant, node: VNode, f: CallFault): Try {
    if node.tenant.kubeconfigSecret == "" then Try(t, f, None)
    else if Due(f).Some? then Try(t, f, Due(f))
    else
      var f1 := Spend(f);
      if Due(f1).Some? then Try(t, f1, Due(f1))
      else
        var t1, f2 := t.(leases := t.leases - {node.name}), Spend(f1);
        if Due(f2).Some? then Try(t1, f2, Due(f2)) else Try(t1.(nodes := t1.nodes - {node.name}), Spend(f2), None)
  }

  // ---------- what they achieve ----------

  /** The tenant shows the node with the given conditions and a lease. */
  ghost predicate Shows(t: Tenant, name: string, conditions: seq<NodeCondition>) {
    name in t.nodes && t.nodes[name].conditions == Map(TenantConditionOf, conditions) && name in t.leases
  }

  ghost predicate OthersUntouched(a: Tenant, b: Tenant, name: string) {
    && (forall m :: m != name ==> (m in a.nodes <==> m in b.nodes) && (m in a.nodes ==> a.nodes[m] == b.nodes[m]))
    && (forall m :: m != name ==> (m in a.leases <==> m in b.leases))
  }

  /** A status report succeeds without faults exactly when the tenant has the node and somewhere to keep its lease. */
  lemma UpdateShowsNode(t: Tenant, node: VNode, f: CallFault)
    requires node.tenant.kubeconfigSecret != ""
    ensures var r := UpdateNodeStatus(t, node, f);
      && OthersUntouched(t, r.t, node.name) && r.t.leaseNamespace == t.leaseNamespace
      && (r.err.None? ==> Shows(r.t, node.name, node.conditions) && node.name in t.nodes)
      && (r.err.None? ==> r.t.nodes[node.name] == Reported(node, t.nodes[node.name]))
      && (f.NoFault? ==> (r.err.None? <==> node.name in t.nodes && (node.name in t.leases || t.leaseNamespace)))
      && (f.NoFault? && r.err.Some? ==> r.err.value.Failure?)
  {
  }

  lemma UpsertKeepsOthers(t: Tenant, node: VNode, f: CallFault)
    ensures var b := UpsertNode(t, node, f);
      && OthersUntouched(t, b.t, node.name) && b.t.leases == t.leases && b.t.leaseNamespace == t.leaseNamespace
      && (b.err.None? ==> node.name in b.t.nodes && b.t.nodes[node.name].taints == node.taints)
      && (f.NoFault? ==> b.err.None? && b.f.NoFault?)
  {
  }

  /** A successful registration leaves the node and its lease in the tenant, whatever was there before; no other node is touched even if it fails. */
  lemma RegisterShowsNode(t: Tenant, node: VNode, f: CallFault)
    ensures var r := Register(t, node, f);
      && OthersUntouched(t, r.t, node.name)
      && (r.err.None? && node.tenant.kubeconfigSecret != "" ==>
            Shows(r.t, node.name, node.conditions) && r.t.leaseNamespace &&
            r.t.nodes[node.name] == Reported(node, EmptyNode.(taints := node.taints)))
      && (f.NoFault? ==> r.err.None?)
  {
    if Due(f).None? {
      var a := EnsureLeaseNamespace(t, Spend(f));
      assert a.t.nodes == t.nodes && a.t.leases == t.leases;
      UpsertKeepsOthers(a.t, node, a.f);
      var b := UpsertNode(a.t, node, a.f);
      if node.tenant.kubeconfigSecret != "" {
        UpdateShowsNode(b.t, node, b.f);
      }
    }
  }

  /** Deregistration undoes registration: neither node nor lease is left, and nothing else changed. */
  lemma DeregisterUndoesRegister(t: Tenant, node: VNode, f: CallFault)
    requires node.tenant.kubeconfigSecret != ""
    ensures var r := Deregister(Register(t, node, f).t, node, NoFault);
      node.name !in r.t.nodes && node.name !in r.t.leases && OthersUntouched(t, r.t, node.name)
  {
    RegisterShowsNode(t, node, f);
  }

  // ---------- the operations as they run ----------

  /** The tenant API as an object whose calls change it in place. */
  class TenantApi {
    var t: Tenant
    var f: CallFault

    constructor (t: Tenant, f: CallFault)
      ensures this.t == t && this.f == f
    {
      this.t, this.f := t, f;
    }

    method Call() returns (err: Option<NodeError>)
      modifies this`f
      ensures err == Due(old(f)) && f == (if err.Some? then old(f) else Spend(old(f)))
    {
      err := Due(f);
      if err.None? {
        f := Spend(f);
      }
    }

    method DoUpsertNode(node: VNode) returns (err: Option<NodeError>)
      modifies this
      ensures Try(t, f, err) == UpsertNode(old(t), node, old(f))
    {
      err := Call();
      if err.Some? {
        return;
      }
      if node.name !in t.nodes {
        err := Call();
        if err.Some? {
          return;
        }
        t := t.(nodes := t.nodes[node.name := EmptyNode.(taints := node.taints)]);
        return;
      }
      err := Call();
      if err.Some? {
        return;
      }
      t := t.(nodes := t.nodes[node.name := t.nodes[node.name].(taints := node.taints)]);
    }

    method DoUpsertLease(name: string) returns (err: Option<NodeError>)
      modifies this
      ensures Try(t, f, err) == UpsertLease(old(t), name, old(f))
    {
      err := Call();
      if err.Some? {
        return;
      }
      if name !in t.leases && !t.leaseNamespace {
        err := Due(f);
        if err.None? {
          err := Some(Failure("lease namespace not found"));
        }
        return;
      }
      err := Call();
      if err.Some? {
        return;
      }
      t := t.(leases := t.leases + {name});
    }

    method BuildNodeConditions(node: VNode) returns (out: seq<TenantCondition>)
      ensures out == Map(TenantConditionOf, node.conditions)
    {
      out := [];
      for i := 0 to |node.conditions|
        invariant out == Map(TenantConditionOf, node.conditions[..i])
      {
        var c := node.conditions[i];
        var status := "False";
        if c.status {
          status := "True";
        }
        out := out + [TenantCondition(c.kind, status, c.reason, c.message)];
      }
      assert node.conditions[..|node.conditions|] == node.conditions;
    }

    method DoUpdateNodeStatus(node: VNode) returns (err: Option<NodeError>)
      modifies this
      ensures Try(t, f, err) == UpdateNodeStatus(old(t), node, old(f))
    {
      if node.tenant.kubeconfigSecret == "" {
        return None;
      }
      err := Call();
      if err.Some? {
        return;
      }
      if node.name !in t.nodes {
        err := Due(f);
        if err.None? {
          err := Some(Failure("node not found"));
        }
        return;
      }
      err := Call();
      if err.Some? {
        return;
      }
      var conditions := BuildNodeConditions(node);
      err := Call();
      if err.Some? {
        return;
      }
      t := t.(nodes := t.nodes[node.name := t.nodes[node.name].(
        capacity := BuildResources(node.capacity), allocatable := BuildResources(node.allocatable), conditions := conditions)]);
      err := DoUpsertLease(node.name);
    }

    method DoRegister(node: VNode) returns (err: Option<NodeError>)
      modifies this
      ensures Try(t, f, err) == Register(old(t), node, old(f))
    {
      err := Call();
      if err.Some? {
        return;
      }
      err := Call();
      if err.Some? {
        return;
      }
      if !t.leaseNamespace {
        err := Call();
        if err.Some? {
          return;
        }
        t := t.(leaseNamespace := true);
      }
      err := DoUpsertNode(node);
      if err.Some? {
        return;
      }
      err := DoUpdateNodeStatus(node);
    }

    method DoDeregister(node: VNode) returns (err: Option<NodeError>)
      modifies this
      ensures Try(t, f, err) == Deregister(old(t), node, old(f))
    {
      if node.tenant.kubeconfigSecret == "" {
        return None;
      }
      err := Call();
      if err.Some? {
        return;
      }
      err := Call();
      if err.Some? {
        return;
      }
      t := t.(leases := t.leases - {node.name});
      err := Call();
      if err.Some? {
        return;
      }
      t := t.(nodes := t.nodes - {node.name});
    }
  }
}
