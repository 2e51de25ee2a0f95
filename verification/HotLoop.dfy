/** How many times a node's status is rewritten: bounded by how often the registrar changes its mind. */
module HotLoop {
  import opened Lists
  import opened NodeModel
  import opened Registrar
  import opened NodeRecords
  import opened NodeLifecycle

  /** One status call: the tenant as it is found, and the first call to fail. */
  datatype Visit = Visit(tenant: Tenant, api: CallFault)

  function Visited(n: Nodes, name: string, v: Visit): StatusCall {
    UpdateStatus(n.(tenant := v.tenant), name, v.api, SaveOk)
  }

  /** What the registrar answered at a visit: nothing to decide, success, or failure. */
  function Heard(n: Nodes, name: string, v: Visit): Option<bool> {
    if name !in n.store.records then None
    else
      var node := ReconciledNode(name, n.store.records[name]);
      if Uninitialised(node) then None
      else
        match Answer(v.tenant, node, v.api).err
        case None => Some(true)
        case Some(err) => if err.Canceled? then None else Some(false)
  }

  /** Number of saves over a sequence of visits, with a working store. */
  function Saves(n: Nodes, name: string, visits: seq<Visit>): nat
    decreases |visits|
  {
    if visits == [] then 0
    else
      var c := Visited(n, name, visits[0]);
      (if c.saved then 1 else 0) + Saves(c.n, name, visits[1..])
  }

  /** Number of times the answer differs from the previous one, starting from `last`. */
  function Switches(n: Nodes, name: string, visits: seq<Visit>, last: Option<bool>): nat
    decreases |visits|
  {
    if visits == [] then 0
    else
      var heard := Heard(n, name, visits[0]);
      var rest := visits[1..];
      var after := Visited(n, name, visits[0]).n;
      if heard.None? then Switches(after, name, rest, last)
      else (if last.Some? && last != heard then 1 else 0) + Switches(after, name, rest, heard)
  }

  /** Saves still possible while the registrar keeps giving the same answer. */
  function Potential(n: Nodes, name: string, ok: bool): nat {
    if name !in n.store.records then 0
    else
      var node := ReconciledNode(name, n.store.records[name]);
      if ok then (if node.phase == Ready && IsReady(node) then 0 else 1)
      else if !ShouldRetryRegistration(node) then 2
      else if node.phase == NotReady && HasRegisteredCondition(node) then 0 else 1
  }

  /** Every save spends potential; a call that saves nothing leaves the record alone. */
  lemma SaveSpendsPotential(n: Nodes, name: string, v: Visit)
    ensures var c := Visited(n, name, v); var heard := Heard(n, name, v);
      && (!c.saved ==> c.n.store == n.store)
      && (c.saved ==> heard.Some? && Potential(c.n, name, heard.value) + 1 <= Potential(n, name, heard.value))
  {
    var c := Visited(n, name, v);
    if c.saved {
      var r := n.store.records[name];
      var node := ReconciledNode(name, r);
      var err := Answer(v.tenant, node, v.api).err;
      var next := Decide(node, err).value;
      StatusRoundTrip(r, next, name);
      assert c.n.store.records[name] == WithStatus(r, next);
      if err.Some? { FirstOfFailed(NodeLifecycle.TextOf(err.value)); }
    }
  }

  lemma {:induction false} SavesArePaidFor(n: Nodes, name: string, visits: seq<Visit>, last: Option<bool>)
    ensures Saves(n, name, visits) <=
      (if last.Some? then Potential(n, name, last.value) else 2) + 2 * Switches(n, name, visits, last)
    decreases |visits|
  {
    if visits != [] {
      var v := visits[0];
      var c := Visited(n, name, v);
      var heard := Heard(n, name, v);
      SaveSpendsPotential(n, name, v);
      var next := if heard.Some? then heard else last;
      SavesArePaidFor(c.n, name, visits[1..], next);
      if heard.Some? {
        assert Potential(n, name, heard.value) <= 2;
        assert !c.saved ==> Potential(c.n, name, heard.value) == Potential(n, name, heard.value);
      }
    }
  }

  /**
   * No hot loop: from any status whatever, with a working store, a sequence of status calls during which
   * the registrar changes between success and failure f times performs at most 2(f + 1) saves.
   */
  lemma SavesAreBounded(n: Nodes, name: string, visits: seq<Visit>)
    ensures Saves(n, name, visits) <= 2 * (Switches(n, name, visits, None) + 1)
  {
    SavesArePaidFor(n, name, visits, None);
  }

  // ---------- the bound on failures is reached ----------

  const Gone := Tenant(map[], {}, false)
  const Refusing := Visit(Gone, After(0, Failure("refused")))

  /** The first refusal loses the Registered condition, the second brings it back as failed. */
  lemma TwoRefusals(n: Nodes, name: string)
    requires name in n.store.records && n.store.records[name].phase == Ready
    requires n.store.records[name].tenant.kubeconfigSecret != ""
    ensures var a := Visited(n, name, Refusing); var b := Visited(a.n, name, Refusing);
      && a.saved && b.saved && Heard(n, name, Refusing) == Some(false) == Heard(a.n, name, Refusing)
      && RegistrationFailed(b.n, name)
  {
    var r := n.store.records[name];
    StatusRoundTrip(r, ReconciledNode(name, r).(phase := NotReady, conditions := SyncFailedConditions("refused")), name);
    FirstOfFailed("refused");
    var r1 := Visited(n, name, Refusing).n.store.records[name];
    StatusRoundTrip(r1, ReconciledNode(name, r1).(phase := NotReady, conditions := RegistrationFailedConditions("refused")), name);
  }

  ghost predicate RegistrationFailed(n: Nodes, name: string) {
    name in n.store.records &&
    var node := ReconciledNode(name, n.store.records[name]);
    ShouldRetryRegistration(node) && node.phase == NotReady && HasRegisteredCondition(node)
  }

  /** The bound is reached without any switch: a Ready record is rewritten exactly twice under steady failure. */
  lemma SteadyFailureSavesTwice(n: Nodes, name: string, k: nat)
    requires name in n.store.records && n.store.records[name].phase == Ready
    requires n.store.records[name].tenant.kubeconfigSecret != ""
    ensures var visits := seq(k + 2, i => Refusing);
      Saves(n, name, visits) == 2 && Switches(n, name, visits, None) == 0
  {
    var visits := seq(k + 2, i => Refusing);
    TwoRefusals(n, name);
    var a := Visited(n, name, Refusing).n;
    var b := Visited(a, name, Refusing).n;
    assert visits[0] == Refusing && visits[1..][0] == Refusing && visits[1..][1..] == seq(k, i => Refusing);
    Exhausted(b, name, k);
    assert Saves(a, name, visits[1..]) == 1 && Switches(a, name, visits[1..], Some(false)) == 0;
  }

  /** With the registration-failed conditions in place, further failures save nothing. */
  lemma {:induction false} Exhausted(n: Nodes, name: string, k: nat)
    requires RegistrationFailed(n, name)
    ensures Saves(n, name, seq(k, i => Refusing)) == 0 && Switches(n, name, seq(k, i => Refusing), Some(false)) == 0
    decreases k
  {
    if k > 0 {
      var visits := seq(k, i => Refusing);
      assert visits[1..] == seq(k - 1, i => Refusing);
      var c := Visited(n, name, Refusing);
      assert !c.saved && c.n.store == n.store;
      Exhausted(c.n, name, k - 1);
    }
  }
}
