/** What every stored node status looks like, how it heals, and how often it is rewritten. */
module NodeHealing {
  import opened Lists
  import opened PodModel
  import opened NodeModel
  import opened Registrar
  import opened NodeRecords
  import opened NodeLifecycle

  // ---------- the six shapes ----------

  /** The (phase, conditions) pairs that the services ever write, plus the record whose status was never written. */
  ghost predicate Shaped(phase: NodePhase, cs: seq<NodeCondition>) {
    match phase
    case Unset => cs == []
    case Pending => cs == PendingConditions()
    case Ready => cs == ReadyConditions()
    case NotReady => exists m :: cs == RegistrationFailedConditions(m) || cs == SyncFailedConditions(m)
    case Terminating => cs == TerminatingConditions()
  }

  ghost predicate ShapedRecord(r: Record) {
    Shaped(r.phase, Map(ConditionFromRecord, r.conditions))
  }

  ghost predicate AllShaped(st: Store) {
    forall name :: name in st.records ==> ShapedRecord(st.records[name])
  }

  /** In every shape: phase Ready means ready, and a Pending or NotReady node is retried by full registration. */
  lemma ShapesAreMeaningful(name: string, r: Record)
    requires ShapedRecord(r)
    ensures var node := ReconciledNode(name, r);
      && (node.phase == Ready <==> IsReady(node)) && (IsReady(node) <==> IsReady(ListedNode(name, r)))
      && (ShouldRetryRegistration(node) <==> node.phase == Pending || node.phase == NotReady)
      && (Uninitialised(node) <==> node.phase == Unset)
  {
    var cs := ReconciledNode(name, r).conditions;
    if r.phase == NotReady {
      var m :| cs == RegistrationFailedConditions(m) || cs == SyncFailedConditions(m);
      FirstOfFailed(m);
    }
    FirstOfOthers();
  }

  lemma FirstOfOthers()
    ensures FirstStatus(PendingConditions(), REGISTERED) == None && FirstStatus(PendingConditions(), READY) == Some(false)
    ensures FirstStatus(TerminatingConditions(), READY) == Some(false)
    ensures FirstStatus([], READY) == None
    ensures FirstStatus(ReadyConditions(), REGISTERED) == Some(true)
  {
  }

  lemma SaveKeepsShapes(st: Store, node: VNode, f: SaveFault)
    requires AllShaped(st) && Shaped(node.phase, node.conditions)
    ensures AllShaped(Save(st, node, f).0)
  {
  }

  lemma UpdateStatusKeepsShapes(n: Nodes, name: string, api: CallFault, save: SaveFault)
    requires AllShaped(n.store)
    ensures AllShaped(UpdateStatus(n, name, api, save).n.store)
  {
    if name in n.store.records {
      var node := ReconciledNode(name, n.store.records[name]);
      var next := Decide(node, Answer(n.tenant, node, api).err);
      if next.Some? {
        assert Shaped(next.value.phase, next.value.conditions);
        SaveKeepsShapes(n.store, next.value, save);
      }
    }
  }

  lemma {:induction false} ActAllKeepsShapes(n: Nodes, actions: seq<NodeAction>)
    requires AllShaped(n.store)
    ensures AllShaped(ActAll(n, actions).store)
  {
    if actions != [] {
      var k := |actions| - 1;
      ActAllKeepsShapes(n, actions[..k]);
      var m := ActAll(n, actions[..k]);
      match actions[k]
      case Heartbeat(name, api, save) => UpdateStatusKeepsShapes(m, name, api, save);
      case _ =>
    }
  }

  lemma SaveInKeepsShapes(w: NodeWorld, s: NodeScript, node: VNode)
    requires AllShaped(w.n.store) && Shaped(node.phase, node.conditions)
    ensures AllShaped(SaveIn(w, s, node).0.n.store)
  {
    ActAllKeepsShapes(w.n, s.env(w.calls));
    SaveKeepsShapes(Tick(w, s).n.store, node, s.save(w.calls));
  }

  lemma ProvisionKeepsShapes(w: NodeWorld, s: NodeScript, pool: VNodePool)
    requires AllShaped(w.n.store)
    ensures AllShaped(Provision(w, s, pool).w.n.store)
  {
    var w1 := Tick(w, s);
    ActAllKeepsShapes(w.n, s.env(w.calls));
    var node := NewNode(pool, |w1.n.store.records| + 1);
    if s.fail(w.calls).None? {
      SaveInKeepsShapes(w1, s, node);
      var (w2, saved) := SaveIn(w1, s, node);
      if saved.None? {
        ActAllKeepsShapes(w2.n, s.env(w2.calls));
        var (w3, registered) := RegisterIn(w2, s, node);
        if registered.Some? {
          var m := NodeLifecycle.TextOf(registered.value);
          assert Shaped(NotReady, RegistrationFailedConditions(m));
          SaveInKeepsShapes(w3, s, node.(phase := NotReady, conditions := RegistrationFailedConditions(m)));
        } else {
          SaveInKeepsShapes(w3, s, node.(phase := Ready, conditions := ReadyConditions()));
        }
      }
    }
  }

  lemma DeprovisionKeepsShapes(w: NodeWorld, s: NodeScript, node: VNode)
    requires AllShaped(w.n.store)
    ensures AllShaped(Deprovision(w, s, node).0.n.store)
  {
    var leaving := node.(phase := Terminating, conditions := TerminatingConditions());
    SaveInKeepsShapes(w, s, leaving);
    var (w1, failure) := SaveIn(w, s, leaving);
    if failure.None? {
      ActAllKeepsShapes(w1.n, s.env(w1.calls));
      var w2 := DeregisterIn(w1, s, leaving);
      ActAllKeepsShapes(w2.n, s.env(w2.calls));
    }
  }

  datatype LifeStep = ProvisionStep(pool: VNodePool, s: NodeScript) | DeprovisionStep(node: VNode, s: NodeScript) | ActionStep(a: NodeAction)

  function Live(w: NodeWorld, step: LifeStep): NodeWorld {
    match step
    case ProvisionStep(pool, s) => Provision(w, s, pool).w
    case DeprovisionStep(node, s) => Deprovision(w, s, node).0
    case ActionStep(a) => w.(n := ActOn(w.n, a))
  }

  function LiveAll(w: NodeWorld, steps: seq<LifeStep>): NodeWorld
    decreases |steps|
  {
    if steps == [] then w else LiveAll(Live(w, steps[0]), steps[1..])
  }

  /** Whatever fails and whatever interleaves, every stored status is one of the six shapes. */
  lemma {:induction false} StatusesStayShaped(w: NodeWorld, steps: seq<LifeStep>)
    requires AllShaped(w.n.store)
    ensures AllShaped(LiveAll(w, steps).n.store)
    decreases |steps|
  {
    if steps != [] {
      match steps[0] {
        case ProvisionStep(pool, s) => ProvisionKeepsShapes(w, s, pool);
        case DeprovisionStep(node, s) => DeprovisionKeepsShapes(w, s, node);
        case ActionStep(a) =>
          assert [a][..0] == [];
          ActAllKeepsShapes(w.n, [a]);
          assert ActAll(w.n, [a]) == ActOn(ActAll(w.n, []), a);
      }
      StatusesStayShaped(Live(w, steps[0]), steps[1..]);
    }
  }

  // ---------- healing ----------

  /** One status call while tenant and store respond. */
  function Call(n: Nodes, name: string): Nodes {
    UpdateStatus(n, name, NoFault, SaveOk).n
  }

  ghost predicate HasStatus(n: Nodes, name: string, phase: NodePhase, cs: seq<NodeCondition>) {
    && name in n.store.records && n.store.records[name].tenant.kubeconfigSecret != ""
    && n.store.records[name].phase == phase && Map(ConditionFromRecord, n.store.records[name].conditions) == cs
  }

  ghost predicate Healed(n: Nodes, name: string) {
    HasStatus(n, name, Ready, ReadyConditions()) && Shows(n.tenant, name, ReadyConditions())
  }

  /** Ready on record, and the tenant has the node and its lease, perhaps with older conditions. */
  ghost predicate AlmostHealed(n: Nodes, name: string) {
    HasStatus(n, name, Ready, ReadyConditions()) && name in n.tenant.nodes && name in n.tenant.leases
  }

  ghost predicate Retrying(n: Nodes, name: string) {
    && name in n.store.records && n.store.records[name].tenant.kubeconfigSecret != ""
    && ShouldRetryRegistration(ReconciledNode(name, n.store.records[name]))
  }

  /** The tenant can take a status report for the node. */
  ghost predicate Reachable(t: Tenant, name: string) {
    name in t.nodes && (name in t.leases || t.leaseNamespace)
  }

  lemma RetryHeals(n: Nodes, name: string)
    requires Retrying(n, name)
    ensures AlmostHealed(Call(n, name), name)
  {
  }

  lemma ReadyReports(n: Nodes, name: string)
    requires HasStatus(n, name, Ready, ReadyConditions())
    ensures Reachable(n.tenant, name) ==> Healed(Call(n, name), name) && Call(n, name).store == n.store
    ensures !Reachable(n.tenant, name) ==>
      Retrying(Call(n, name), name) && Call(n, name).store.records[name].phase == NotReady
  {
    var node := ReconciledNode(name, n.store.records[name]);
    FirstOfOthers();
    UpdateShowsNode(n.tenant, node, NoFault);
    if !Reachable(n.tenant, name) {
      LostNodeIsRetried(n, name);
    }
  }

  lemma LostNodeIsRetried(n: Nodes, name: string)
    requires name in n.store.records && n.store.records[name].tenant.kubeconfigSecret != "" && !Reachable(n.tenant, name)
    requires var node := ReconciledNode(name, n.store.records[name]); !Uninitialised(node) && !ShouldRetryRegistration(node)
    ensures Retrying(Call(n, name), name) && Call(n, name).store.records[name].phase == NotReady
  {
    var node := ReconciledNode(name, n.store.records[name]);
    UpdateShowsNode(n.tenant, node, NoFault);
    var m := NodeLifecycle.TextOf(UpdateNodeStatus(n.tenant, node, NoFault).err.value);
    StatusRoundTrip(n.store.records[name], node.(phase := NotReady, conditions := SyncFailedConditions(m)), name);
    FirstOfFailed(m);
  }

  lemma TerminatingReports(n: Nodes, name: string)
    requires HasStatus(n, name, Terminating, TerminatingConditions())
    ensures Reachable(n.tenant, name) ==> AlmostHealed(Call(n, name), name)
    ensures !Reachable(n.tenant, name) ==> Retrying(Call(n, name), name)
  {
    var node := ReconciledNode(name, n.store.records[name]);
    UpdateShowsNode(n.tenant, node, NoFault);
    if Reachable(n.tenant, name) {
      StatusRoundTrip(n.store.records[name], node.(phase := Ready, conditions := ReadyConditions()), name);
    } else {
      LostNodeIsRetried(n, name);
    }
  }

  lemma AlmostHealedHeals(n: Nodes, name: string)
    requires AlmostHealed(n, name)
    ensures Healed(Call(n, name), name) && AlmostHealed(Call(n, name), name)
  {
  }

  function Calls(n: Nodes, name: string, k: nat): Nodes {
    if k == 0 then n else Call(Calls(n, name, k - 1), name)
  }

  lemma FirstCallHelps(n: Nodes, name: string)
    requires name in n.store.records && ShapedRecord(n.store.records[name])
    requires n.store.records[name].tenant.kubeconfigSecret != "" && n.store.records[name].phase != Unset
    ensures Retrying(Call(n, name), name) || AlmostHealed(Call(n, name), name)
  {
    var r := n.store.records[name];
    ShapesAreMeaningful(name, r);
    if Retrying(n, name) {
      RetryHeals(n, name);
    } else if r.phase == Ready {
      ReadyReports(n, name);
    } else {
      TerminatingReports(n, name);
    }
  }

  lemma {:induction false} CallsAfterTheSecond(n: Nodes, name: string, k: nat)
    requires k >= 2 && (Retrying(Calls(n, name, 1), name) || AlmostHealed(Calls(n, name, 1), name))
    ensures AlmostHealed(Calls(n, name, k), name) && (k >= 3 ==> Healed(Calls(n, name, k), name))
    decreases k
  {
    if k == 2 {
      var m := Calls(n, name, 1);
      if Retrying(m, name) { RetryHeals(m, name); } else { AlmostHealedHeals(m, name); }
    } else {
      CallsAfterTheSecond(n, name, k - 1);
      AlmostHealedHeals(Calls(n, name, k - 1), name);
    }
  }

  lemma {:induction false} StuckForever(n: Nodes, name: string, k: nat)
    requires name in n.store.records && Uninitialised(ReconciledNode(name, n.store.records[name]))
    ensures Calls(n, name, k) == n
  {
    if k > 0 { StuckForever(n, name, k - 1); }
  }

  /**
   * Once tenant and store respond, three or more status calls heal a node from every shape a record can
   * have except one: a record whose status was never written is not healed by any number of calls.
   */
  lemma ThreeCallsHeal(n: Nodes, name: string, k: nat)
    requires name in n.store.records && ShapedRecord(n.store.records[name])
    requires n.store.records[name].tenant.kubeconfigSecret != "" && k >= 3
    ensures Healed(Calls(n, name, k), name) <==> n.store.records[name].phase != Unset
  {
    if n.store.records[name].phase == Unset {
      StuckForever(n, name, k);
    } else {
      FirstCallHelps(n, name);
      assert Calls(n, name, 1) == Call(Calls(n, name, 0), name);
      CallsAfterTheSecond(n, name, k);
    }
  }

  /** When a Ready node's tenant Node has vanished, two calls are not enough. */
  lemma TwoCallsAreNotEnough(n: Nodes, name: string)
    requires HasStatus(n, name, Ready, ReadyConditions()) && name !in n.tenant.nodes
    ensures forall k: nat :: k <= 2 ==> !Healed(Calls(n, name, k), name)
  {
    var n1 := Call(n, name);
    ReadyReports(n, name);
    var node := ReconciledNode(name, n1.store.records[name]);
    RegisterShowsNode(n1.tenant, node, NoFault);
    assert node.phase == NotReady && |node.conditions| != |ReadyConditions()| by {
      var old_ := ReconciledNode(name, n.store.records[name]);
      FirstOfOthers();
      UpdateShowsNode(n.tenant, old_, NoFault);
      var m := NodeLifecycle.TextOf(UpdateNodeStatus(n.tenant, old_, NoFault).err.value);
      StatusRoundTrip(n.store.records[name], old_.(phase := NotReady, conditions := SyncFailedConditions(m)), name);
    }
    assert Calls(n, name, 1) == Call(Calls(n, name, 0), name) && Calls(n, name, 2) == Call(Calls(n, name, 1), name);
    assert !Healed(n, name) && !Healed(n1, name) && !Healed(Call(n1, name), name);
    forall k: nat | k <= 2 ensures !Healed(Calls(n, name, k), name) {
      assert k == 0 || k == 1 || k == 2;
    }
  }

  /** A healed node stays healed and costs no further save. */
  lemma HealedStaysHealed(n: Nodes, name: string)
    requires Healed(n, name)
    ensures var c := UpdateStatus(n, name, NoFault, SaveOk); Healed(c.n, name) && !c.saved && c.err.None?
  {
  }

  /**
   * Every status call that reaches the tenant rewrites the Node from what the reconciler rebuilt: the
   * advertised allocatable resources become empty, and a re-registration also drops all taints.
   */
  lemma StatusCallsDropAllocatable(n: Nodes, name: string, api: CallFault, save: SaveFault)
    requires name in n.store.records && n.store.records[name].tenant.kubeconfigSecret != ""
    requires var node := ReconciledNode(name, n.store.records[name]);
      !Uninitialised(node) && Answer(n.tenant, node, api).err.None?
    ensures var node := ReconciledNode(name, n.store.records[name]); var t := UpdateStatus(n, name, api, save).n.tenant;
      && name in t.nodes && t.nodes[name].allocatable == NoResources
      && t.nodes[name].capacity == BuildResources(node.capacity)
      && (ShouldRetryRegistration(node) ==> t.nodes[name].taints == [])
  {
    var node := ReconciledNode(name, n.store.records[name]);
    if ShouldRetryRegistration(node) {
      RegisterShowsNode(n.tenant, node, api);
    } else {
      UpdateShowsNode(n.tenant, node, api);
    }
  }
}
