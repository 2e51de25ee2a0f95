/** Pool scaling under faults: dense names, no overshoot, progress; and when density is lost. */
module ScalingRuns {
  import opened Lists
  import opened PodModel
  import opened NodeModel
  import opened HostKeys
  import opened Registrar
  import opened NodeRecords
  import opened NodeLifecycle
  import opened PoolScaling

  // ---------- dense names ----------

  function Names(display: string, n: nat): set<string> {
    set i: nat | 1 <= i <= n :: NodeName(display, i)
  }

  lemma NamesStep(display: string, n: nat)
    ensures Names(display, n + 1) == Names(display, n) + {NodeName(display, n + 1)}
    ensures NodeName(display, n + 1) !in Names(display, n)
  {
    if NodeName(display, n + 1) in Names(display, n) {
      var i: nat :| 1 <= i <= n && NodeName(display, i) == NodeName(display, n + 1);
      NodeNameIsInjective(display, i, n + 1);
    }
  }

  lemma {:induction false} NamesSize(display: string, n: nat)
    ensures |Names(display, n)| == n
  {
    if n == 0 {
      assert Names(display, 0) == {};
    } else {
      NamesSize(display, n - 1);
      NamesStep(display, n - 1);
    }
  }

  /** The records are numbered 1 to n without a gap. */
  ghost predicate Numbered(display: string, w: NodeWorld, n: nat) {
    w.n.store.records.Keys == Names(display, n)
  }

  ghost predicate Dense(display: string, w: NodeWorld) {
    Numbered(display, w, |w.n.store.records|)
  }

  lemma NumberedIsDense(display: string, w: NodeWorld, n: nat)
    ensures Numbered(display, w, n) ==> Dense(display, w) && |w.n.store.records| == n
  {
    if Numbered(display, w, n) {
      NamesSize(display, n);
      assert |w.n.store.records| == |w.n.store.records.Keys|;
    }
  }

  // ---------- scripts ----------

  /** Nobody but the pool reconciler deletes records; node reconcilers run freely. */
  ghost predicate Undisturbed(s: NodeScript) {
    forall n: nat, a :: a in s.env(n) ==> !a.RecordDeleted?
  }

  function Indexed(display: string, n: nat): seq<string> {
    seq(n, (i: int) requires i >= 0 => NodeName(display, i + 1))
  }

  /** Records are listed in index order. */
  ghost predicate IndexOrder(display: string, s: NodeScript) {
    forall n: nat :: s.order(Names(display, n)) == Indexed(display, n)
  }

  /** The store accepts every call; the registrar may do anything. */
  ghost predicate StoreWorks(s: NodeScript) {
    forall n: nat :: s.save(n).SaveOk? && s.fail(n).None?
  }

  lemma {:induction false} ActionsKeepKeys(n: Nodes, actions: seq<NodeAction>)
    requires forall a :: a in actions ==> !a.RecordDeleted?
    ensures ActAll(n, actions).store.records.Keys == n.store.records.Keys
  {
    if actions != [] {
      var k := |actions| - 1;
      ActionsKeepKeys(n, actions[..k]);
      var m := ActAll(n, actions[..k]);
      if actions[k].Heartbeat? {
        assert UpdateStatus(m, actions[k].name, actions[k].api, actions[k].save).n.store.records.Keys == m.store.records.Keys;
      }
    }
  }

  lemma TickKeepsKeys(w: NodeWorld, s: NodeScript)
    requires Undisturbed(s)
    ensures Tick(w, s).n.store.records.Keys == w.n.store.records.Keys
  {
    ActionsKeepKeys(w.n, s.env(w.calls));
  }

  lemma SaveInKeys(w: NodeWorld, s: NodeScript, node: VNode)
    requires Undisturbed(s)
    ensures var (v, failure) := SaveIn(w, s, node); var old_, new_ := w.n.store.records.Keys, v.n.store.records.Keys;
      && (new_ == old_ || new_ == old_ + {node.name})
      && (failure.None? || s.save(w.calls).SaveOk? ==> new_ == old_ + {node.name})
  {
    TickKeepsKeys(w, s);
  }

  // ---------- one step ----------

  /** Provisioning adds the record it names or nothing; with a working store it adds it even if registration fails. */
  lemma ProvisionKeys(w: NodeWorld, s: NodeScript, pool: VNodePool)
    requires Undisturbed(s)
    ensures var old_ := w.n.store.records.Keys; var name := NodeName(DisplayName(pool), |old_| + 1);
      var p := Provision(w, s, pool); var new_ := p.w.n.store.records.Keys;
      && (new_ == old_ || new_ == old_ + {name}) && (p.err.None? || StoreWorks(s) ==> new_ == old_ + {name})
  {
    var w1 := Tick(w, s);
    TickKeepsKeys(w, s);
    assert |w1.n.store.records| == |w1.n.store.records.Keys|;
    var node := NewNode(pool, |w1.n.store.records| + 1);
    if s.fail(w.calls).None? {
      var (w2, saved) := SaveIn(w1, s, node);
      SaveInKeys(w1, s, node);
      if saved.None? {
        var (w3, registered) := RegisterIn(w2, s, node);
        TickKeepsKeys(w2, s);
        assert w3.n.store.records.Keys == w2.n.store.records.Keys;
        var last := if registered.Some?
                    then node.(phase := NotReady, conditions := RegistrationFailedConditions(NodeLifecycle.TextOf(registered.value)))
                    else node.(phase := Ready, conditions := ReadyConditions());
        SaveInKeys(w3, s, last);
      }
    }
  }

  lemma ProvisionAddsNext(w: NodeWorld, s: NodeScript, pool: VNodePool, n: nat)
    requires Undisturbed(s) && Numbered(DisplayName(pool), w, n)
    ensures var p := Provision(w, s, pool); var d := DisplayName(pool);
      && (Numbered(d, p.w, n) || Numbered(d, p.w, n + 1))
      && (p.err.None? || StoreWorks(s) ==> Numbered(d, p.w, n + 1))
  {
    var d := DisplayName(pool);
    var keys := w.n.store.records.Keys;
    assert |keys| == n by { NamesSize(d, n); }
    assert keys + {NodeName(d, |keys| + 1)} == Names(d, n + 1) by { NamesStep(d, n); }
    ProvisionKeys(w, s, pool);
  }

  /** Deprovisioning removes its record or nothing. */
  lemma DeprovisionRemovesOne(w: NodeWorld, s: NodeScript, node: VNode)
    requires Undisturbed(s) && node.name in w.n.store.records
    ensures var (v, failure) := Deprovision(w, s, node); var old_, new_ := w.n.store.records.Keys, v.n.store.records.Keys;
      && (new_ == old_ || new_ == old_ - {node.name})
      && (failure.None? || StoreWorks(s) ==> new_ == old_ - {node.name}) && (StoreWorks(s) ==> failure.None?)
  {
    var leaving := node.(phase := Terminating, conditions := TerminatingConditions());
    SaveInKeys(w, s, leaving);
    var (w1, failure) := SaveIn(w, s, leaving);
    assert w1.n.store.records.Keys == w.n.store.records.Keys;
    if failure.None? {
      TickKeepsKeys(w1, s);
      var w2 := DeregisterIn(w1, s, leaving);
      assert w2.n.store.records.Keys == w1.n.store.records.Keys;
      TickKeepsKeys(w2, s);
    }
  }

  // ---------- the loops ----------

  /** Unfolds one round of the scale-up loop. */
  lemma ScaleUpStep(w: NodeWorld, s: NodeScript, pool: VNodePool, working: seq<VNode>, toAdd: nat)
    requires toAdd > 0
    ensures var p := Provision(w, s, pool);
      ScaleUp(w, s, pool, working, toAdd) ==
        if p.err.Some? then Reconciled(p.w, working, p.err) else ScaleUp(p.w, s, pool, working + [p.node], toAdd - 1)
  {
  }

  /** The scale-up loop for any way of adding one node. */
  function Rounds(add: NodeWorld -> Provisioned, w: NodeWorld, working: seq<VNode>, toAdd: nat): Reconciled
    decreases toAdd
  {
    if toAdd == 0 then Reconciled(w, working, None)
    else
      var p := add(w);
      if p.err.Some? then Reconciled(p.w, working, p.err) else Rounds(add, p.w, working + [p.node], toAdd - 1)
  }

  function Adder(s: NodeScript, pool: VNodePool): NodeWorld -> Provisioned {
    (w: NodeWorld) => Provision(w, s, pool)
  }

  lemma {:induction false} ScaleUpIsRounds(w: NodeWorld, s: NodeScript, pool: VNodePool, working: seq<VNode>, toAdd: nat)
    ensures ScaleUp(w, s, pool, working, toAdd) == Rounds(Adder(s, pool), w, working, toAdd)
    decreases toAdd
  {
    if toAdd > 0 {
      var p := Provision(w, s, pool);
      assert Adder(s, pool)(w) == p;
      if p.err.None? {
        ScaleUpIsRounds(p.w, s, pool, working + [p.node], toAdd - 1);
      }
    }
  }

  /** A relation that bears one addition after another is borne by the loop. */
  lemma {:induction false} RoundsWalk(
    r: (NodeWorld, NodeWorld, nat) -> bool, add: NodeWorld -> Provisioned, w: NodeWorld, working: seq<VNode>, toAdd: nat)
    requires (forall a, k: nat :: r(a, a, k)) && (forall a, b, c, k: nat :: r(a, b, 1) && r(b, c, k) ==> r(a, c, k + 1))
    requires forall a :: r(a, add(a).w, 1)
    ensures r(w, Rounds(add, w, working, toAdd).w, toAdd)
    decreases toAdd
  {
    if toAdd > 0 {
      var p := add(w);
      assert r(w, p.w, 1) && r(p.w, p.w, toAdd - 1);
      if p.err.None? {
        RoundsWalk(r, add, p.w, working + [p.node], toAdd - 1);
      }
    }
  }

  /** Adds the next number or nothing; the next number if it reports success or the store works. */
  ghost predicate AddsNext(add: NodeWorld -> Provisioned, display: string, works: bool) {
    forall w, n: nat :: Numbered(display, w, n) ==>
      && (Numbered(display, add(w).w, n) || Numbered(display, add(w).w, n + 1))
      && (add(w).err.None? || works ==> Numbered(display, add(w).w, n + 1))
  }

  lemma {:induction false} RoundsCount(
    add: NodeWorld -> Provisioned, display: string, w: NodeWorld, working: seq<VNode>, toAdd: nat, n: nat, works: bool)
    returns (m: nat)
    requires AddsNext(add, display, works) && Numbered(display, w, n)
    ensures var r := Rounds(add, w, working, toAdd);
      n <= m <= n + toAdd && Numbered(display, r.w, m) && (r.err.None? ==> m == n + toAdd) && (works && toAdd > 0 ==> m > n)
    decreases toAdd
  {
    m := n;
    if toAdd > 0 {
      var p := add(w);
      if p.err.None? {
        m := RoundsCount(add, display, p.w, working + [p.node], toAdd - 1, n + 1, works);
      } else if Numbered(display, p.w, n + 1) {
        m := n + 1;
      }
    }
  }

  lemma ScaleUpCounts(w: NodeWorld, s: NodeScript, pool: VNodePool, working: seq<VNode>, toAdd: nat, n: nat) returns (m: nat)
    requires Undisturbed(s) && Numbered(DisplayName(pool), w, n)
    ensures var r := ScaleUp(w, s, pool, working, toAdd);
      n <= m <= n + toAdd && Numbered(DisplayName(pool), r.w, m) &&
      (r.err.None? ==> m == n + toAdd) && (StoreWorks(s) && toAdd > 0 ==> m > n)
  {
    var add, d := Adder(s, pool), DisplayName(pool);
    forall v, k: nat | Numbered(d, v, k)
      ensures Numbered(d, add(v).w, k) || Numbered(d, add(v).w, k + 1)
      ensures add(v).err.None? || StoreWorks(s) ==> Numbered(d, add(v).w, k + 1)
    {
      ProvisionAddsNext(v, s, pool, k);
    }
    ScaleUpIsRounds(w, s, pool, working, toAdd);
    m := RoundsCount(add, d, w, working, toAdd, n, StoreWorks(s));
  }

  function NamesOf(working: seq<VNode>): set<string> {
    if working == [] then {} else NamesOf(working[..|working| - 1]) + {working[|working| - 1].name}
  }

  /** No name occurs twice. */
  ghost predicate DistinctNames(working: seq<VNode>) {
    working != [] ==>
      var k := |working| - 1; working[k].name !in NamesOf(working[..k]) && DistinctNames(working[..k])
  }

  /** The stored records are exactly those of the list. */
  ghost predicate Holds(n: Nodes, working: seq<VNode>) {
    forall x :: x in n.store.records <==> x in NamesOf(working)
  }

  /** A way of removing one node. */
  type Remover = (NodeWorld, VNode) -> (NodeWorld, Option<NodeError>)

  /** The scale-down loop for any way of removing one node. */
  function Removals(drop: Remover, w: NodeWorld, working: seq<VNode>, toRemove: nat): Reconciled
    decreases toRemove
  {
    if toRemove == 0 || working == [] then Reconciled(w, working, None)
    else
      var k := |working| - 1;
      var (w1, failure) := drop(w, working[k]);
      if failure.Some? then Reconciled(w1, working, failure) else Removals(drop, w1, working[..k], toRemove - 1)
  }

  function Dropper(s: NodeScript): Remover {
    (w: NodeWorld, node: VNode) => Deprovision(w, s, node)
  }

  lemma {:induction false} ScaleDownIsRemovals(w: NodeWorld, s: NodeScript, working: seq<VNode>, toRemove: nat)
    ensures ScaleDown(w, s, working, toRemove) == Removals(Dropper(s), w, working, toRemove)
    decreases toRemove
  {
    if toRemove > 0 && working != [] {
      var k := |working| - 1;
      var (w1, failure) := Deprovision(w, s, working[k]);
      assert Dropper(s)(w, working[k]) == (w1, failure);
      if failure.None? {
        ScaleDownIsRemovals(w1, s, working[..k], toRemove - 1);
      }
    }
  }

  /** Takes the node's record away or leaves all records; takes it away if it reports success, which it does if the store works. */
  ghost predicate DropsOne(drop: Remover, works: bool) {
    forall w: NodeWorld, node: VNode :: node.name in w.n.store.records ==>
      var (v, failure) := drop(w, node);
      && (v.n.store.records.Keys == w.n.store.records.Keys || v.n.store.records.Keys == w.n.store.records.Keys - {node.name})
      && (failure.None? ==> v.n.store.records.Keys == w.n.store.records.Keys - {node.name}) && (works ==> failure.None?)
  }

  /** Removing the last listed node either takes its record away or leaves all of them. */
  lemma RemoveLast(drop: Remover, w: NodeWorld, working: seq<VNode>, works: bool)
    returns (done: bool)
    requires DropsOne(drop, works) && working != [] && DistinctNames(working) && Holds(w.n, working)
    ensures var k := |working| - 1; var (w1, failure) := drop(w, working[k]);
      && Holds(w1.n, if done then working[..k] else working) && (failure.None? ==> done) && (works ==> failure.None?)
  {
    var k := |working| - 1;
    var w1 := drop(w, working[k]).0;
    done := working[k].name !in w1.n.store.records;
  }

  lemma {:induction false} RemovalsLeavePrefix(
    drop: Remover, w: NodeWorld, working: seq<VNode>, toRemove: nat, works: bool)
    returns (m: nat)
    requires DropsOne(drop, works) && DistinctNames(working) && Holds(w.n, working) && toRemove <= |working|
    ensures var r := Removals(drop, w, working, toRemove);
      |working| - toRemove <= m <= |working| && Holds(r.w.n, working[..m]) && (r.err.None? || works ==> m == |working| - toRemove)
    decreases toRemove
  {
    assert working[..|working|] == working;
    m := |working|;
    if toRemove > 0 {
      var k := |working| - 1;
      var done := RemoveLast(drop, w, working, works);
      var (w1, failure) := drop(w, working[k]);
      if failure.None? {
        m := RemovalsLeavePrefix(drop, w1, working[..k], toRemove - 1, works);
        assert working[..k][..m] == working[..m];
      } else if done {
        m := k;
      }
    }
  }

  lemma DropperDropsOne(s: NodeScript, works: bool)
    requires Undisturbed(s) && (works ==> StoreWorks(s))
    ensures DropsOne(Dropper(s), works)
  {
    var drop := Dropper(s);
    forall v: NodeWorld, node: VNode | node.name in v.n.store.records
      ensures var (u, failure) := drop(v, node);
        && (u.n.store.records.Keys == v.n.store.records.Keys || u.n.store.records.Keys == v.n.store.records.Keys - {node.name})
        && (failure.None? ==> u.n.store.records.Keys == v.n.store.records.Keys - {node.name}) && (works ==> failure.None?)
    {
      DeprovisionRemovesOne(v, s, node);
    }
  }

  /**
   * Scaling down a complete list leaves exactly the records of a prefix of it, in whatever order the list
   * came: the requested prefix if no error is reported or the store works.
   */
  lemma ScaleDownLeavesPrefix(w: NodeWorld, s: NodeScript, working: seq<VNode>, toRemove: nat, works: bool) returns (m: nat)
    requires Undisturbed(s) && (works ==> StoreWorks(s)) && DistinctNames(working) && Holds(w.n, working) && toRemove <= |working|
    ensures var r := ScaleDown(w, s, working, toRemove);
      && |working| - toRemove <= m <= |working| && Holds(r.w.n, working[..m])
      && (r.err.None? || works ==> m == |working| - toRemove)
  {
    ScaleDownIsRemovals(w, s, working, toRemove);
    DropperDropsOne(s, works);
    m := RemovalsLeavePrefix(Dropper(s), w, working, toRemove, works);
  }

  ghost predicate InIndexOrder(display: string, working: seq<VNode>) {
    forall i :: 0 <= i < |working| ==> working[i].name == NodeName(display, i + 1)
  }

  lemma {:induction false} IndexOrderNames(display: string, working: seq<VNode>)
    requires InIndexOrder(display, working)
    ensures DistinctNames(working) && NamesOf(working) == Names(display, |working|)
    decreases |working|
  {
    if working == [] {
      assert Names(display, 0) == {};
    } else {
      var k := |working| - 1;
      IndexOrderNames(display, working[..k]);
      NamesStep(display, k);
    }
  }

  lemma ScaleDownCounts(w: NodeWorld, s: NodeScript, working: seq<VNode>, toRemove: nat, display: string) returns (m: nat)
    requires Undisturbed(s) && Numbered(display, w, |working|) && InIndexOrder(display, working) && toRemove <= |working|
    ensures var r := ScaleDown(w, s, working, toRemove);
      |working| - toRemove <= m <= |working| && Numbered(display, r.w, m) &&
      (r.err.None? || StoreWorks(s) ==> m == |working| - toRemove)
  {
    IndexOrderNames(display, working);
    m := ScaleDownLeavesPrefix(w, s, working, toRemove, StoreWorks(s));
    assert InIndexOrder(display, working[..m]);
    IndexOrderNames(display, working[..m]);
    assert forall x :: x in ScaleDown(w, s, working, toRemove).w.n.store.records.Keys <==> x in Names(display, m);
  }

  lemma {:induction false} ListNodesElements(records: map<string, Record>, names: seq<string>)
    requires forall x :: x in names ==> x in records
    ensures |ListNodes(records, names)| == |names|
    ensures forall i :: 0 <= i < |names| ==> ListNodes(records, names)[i] == ListedNode(names[i], records[names[i]])
  {
    if names != [] {
      ListNodesElements(records, names[..|names| - 1]);
    }
  }

  function Distance(a: int, b: int): nat {
    if a < b then b - a else a - b
  }

  lemma ListIsInIndexOrder(w: NodeWorld, s: NodeScript, display: string, n: nat)
    requires Numbered(display, w, n) && IndexOrder(display, s)
    ensures var records := w.n.store.records; var working := ListNodes(records, s.order(records.Keys));
      |working| == n && InIndexOrder(display, working)
  {
    var records := w.n.store.records;
    var names := s.order(records.Keys);
    assert names == Indexed(display, n);
    forall x | x in names ensures x in records {
      var i :| 0 <= i < n && names[i] == x;
      assert NodeName(display, i + 1) in Names(display, n);
    }
    ListNodesElements(records, names);
  }

  /** Both loops, started on a dense list. */
  function Loops(w: NodeWorld, s: NodeScript, pool: VNodePool, working: seq<VNode>): Reconciled {
    var (toAdd, toRemove) := DesiredScaleActions(pool.nodeCount, |working|);
    var up := ScaleUp(w, s, pool, working, toAdd);
    if up.err.Some? then up else ScaleDown(up.w, s, up.working, toRemove)
  }

  /** `m` lies between `n` and the target `t`, is `t` if no error was reported, and is closer if the store works. */
  predicate Toward(n: nat, m: nat, t: int, done: bool, works: bool) {
    && (n <= t ==> n <= m <= t) && (n >= t ==> t <= m <= n)
    && (done ==> m == t) && (works && n != t ==> Distance(m, t) < Distance(n, t))
  }

  lemma LoopsCount(w: NodeWorld, s: NodeScript, pool: VNodePool, working: seq<VNode>) returns (m: nat)
    requires Undisturbed(s) && Numbered(DisplayName(pool), w, |working|) && InIndexOrder(DisplayName(pool), working)
    requires pool.nodeCount >= 0
    ensures var r := Loops(w, s, pool, working);
      Numbered(DisplayName(pool), r.w, m) && Toward(|working|, m, pool.nodeCount, r.err.None?, StoreWorks(s))
  {
    var (toAdd, toRemove) := DesiredScaleActions(pool.nodeCount, |working|);
    if toAdd > 0 {
      m := ScaleUpCounts(w, s, pool, working, toAdd, |working|);
    } else {
      m := ScaleDownCounts(w, s, working, toRemove, DisplayName(pool));
    }
  }

  /**
   * One reconcile under any registrar behaviour, any store failures and any node reconcilers running
   * alongside: names stay dense, the count moves toward the target without passing it, reaches it
   * if no error is reported, and gets strictly closer whenever the store works.
   */
  lemma ReconcileMovesTowardTarget(w: NodeWorld, s: NodeScript, pool: VNodePool)
    requires Undisturbed(s) && IndexOrder(DisplayName(pool), s) && Dense(DisplayName(pool), w) && pool.nodeCount >= 0
    ensures var r := Reconcile(w, s, pool);
      && Dense(DisplayName(pool), r.w)
      && Toward(|w.n.store.records|, |r.w.n.store.records|, pool.nodeCount, r.err.None?, StoreWorks(s))
  {
    var d := DisplayName(pool);
    var n := |w.n.store.records|;
    var w1 := Tick(w, s);
    TickKeepsKeys(w, s);
    NumberedIsDense(d, w1, n);
    if s.fail(w.calls).None? {
      var records := w1.n.store.records;
      var working := ListNodes(records, s.order(records.Keys));
      ListIsInIndexOrder(w1, s, d, n);
      var m := LoopsCount(w1, s, pool, working);
      NumberedIsDense(d, Loops(w1, s, pool, working).w, m);
    }
  }

  // ---------- runs ----------

  /** A reconcile with a new target. */
  datatype Scaling = Scaling(target: nat, s: NodeScript)

  function RunScalings(w: NodeWorld, pool: VNodePool, steps: seq<Scaling>): NodeWorld
    decreases |steps|
  {
    if steps == [] then w
    else RunScalings(Reconcile(w, steps[0].s, pool.(nodeCount := steps[0].target)).w, pool, steps[1..])
  }

  /** Names stay dense over every sequence of reconciles with changing targets and arbitrary faults. */
  lemma {:induction false} ScalingKeepsNamesDense(w: NodeWorld, pool: VNodePool, steps: seq<Scaling>)
    requires Dense(DisplayName(pool), w)
    requires forall i :: 0 <= i < |steps| ==> Undisturbed(steps[i].s) && IndexOrder(DisplayName(pool), steps[i].s)
    ensures Dense(DisplayName(pool), RunScalings(w, pool, steps))
    decreases |steps|
  {
    if steps != [] {
      var p := pool.(nodeCount := steps[0].target);
      ReconcileMovesTowardTarget(w, steps[0].s, p);
      ScalingKeepsNamesDense(Reconcile(w, steps[0].s, p).w, pool, steps[1..]);
    }
  }

  /** With a working store, as many reconciles as nodes are missing or too many reach the target, whatever the registrar does. */
  lemma {:induction false} ScalingReachesTarget(w: NodeWorld, pool: VNodePool, scripts: seq<NodeScript>)
    requires Dense(DisplayName(pool), w) && pool.nodeCount >= 0
    requires forall i :: 0 <= i < |scripts| ==>
      Undisturbed(scripts[i]) && IndexOrder(DisplayName(pool), scripts[i]) && StoreWorks(scripts[i])
    requires |scripts| >= Distance(|w.n.store.records|, pool.nodeCount)
    ensures var v := RunScalings(w, pool, seq(|scripts|, i requires 0 <= i < |scripts| => Scaling(pool.nodeCount, scripts[i])));
      v.n.store.records.Keys == Names(DisplayName(pool), pool.nodeCount)
    decreases |scripts|
  {
    var steps := seq(|scripts|, i requires 0 <= i < |scripts| => Scaling(pool.nodeCount, scripts[i]));
    if scripts != [] {
      assert pool.(nodeCount := steps[0].target) == pool;
      ReconcileMovesTowardTarget(w, scripts[0], pool);
      var r := Reconcile(w, scripts[0], pool);
      assert steps[1..] == seq(|scripts[1..]|, i requires 0 <= i < |scripts[1..]| => Scaling(pool.nodeCount, scripts[1..][i]));
      ScalingReachesTarget(r.w, pool, scripts[1..]);
    }
  }

  // ---------- when density is lost ----------

  /**
   * Provisioning numbers the new node by counting the records. With a working store and nobody else acting,
   * it adds a record exactly when that number is free; otherwise it silently overwrites the node that has it.
   */
  lemma ProvisionGrowsExactlyWhenNumberIsFree(w: NodeWorld, s: NodeScript, pool: VNodePool)
    requires Undisturbed(s) && StoreWorks(s)
    ensures var name := NodeName(DisplayName(pool), |w.n.store.records| + 1);
      |Provision(w, s, pool).w.n.store.records| == |w.n.store.records| + (if name in w.n.store.records then 0 else 1)
  {
    ProvisionKeys(w, s, pool);
    SizeAfterInsert(w.n.store.records, Provision(w, s, pool).w.n.store.records, NodeName(DisplayName(pool), |w.n.store.records.Keys| + 1));
  }

  lemma SizeAfterInsert<T>(a: map<string, T>, b: map<string, T>, name: string)
    requires b.Keys == a.Keys + {name}
    ensures |a| == |a.Keys| && |b| == |a| + (if name in a then 0 else 1)
  {
    assert |b| == |b.Keys|;
    if name in a {
      assert b.Keys == a.Keys;
    }
  }

  /** Removing one node keeps the numbering dense exactly when it is the highest-numbered one. */
  lemma RemovalKeepsDensityExactlyAtTheEnd(display: string, n: nat, i: nat)
    requires 1 <= i <= n
    ensures Names(display, n) - {NodeName(display, i)} == Names(display, n - 1) <==> i == n
  {
    NamesStep(display, n - 1);
    if i != n {
      assert NodeName(display, i) in Names(display, n - 1);
    }
  }
}
