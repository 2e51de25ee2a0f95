/**
 * Pools that take turns on one host, pass by pass: an executable case of pools that run at the same time. And
 * which pools have different keys.
 */
module Turns {
  import opened Lists
  import opened NodeModel
  import opened Translation
  import opened HostKeys
  import opened Clusters
  import opened Execution
  import opened Walks
  import opened History
  import opened Isolation
  import opened Fleet

  /** The pools' runs so far, what each of them has done and seen done, and the history of the host. */
  datatype Stage = Stage(runs: map<string, Trace>, acts: map<string, seq<Act>>, history: seq<Entry>)

  /** A pool, and its next pass, cleanup or outside step. */
  datatype Turn = Turn(p: string, act: Act)

  function Witnessed(evs: seq<HostEvent>): seq<Act> {
    Map((ev: HostEvent) => OutsideAct(ev.a), evs)
  }

  function Entries(p: string, evs: seq<HostEvent>): seq<Entry> {
    Map((ev: HostEvent) => Entry(if ev.own then Some(p) else None, ev.a), evs)
  }

  /** What the pool of the turn does to the host, all others witness. */
  function TakeTurn(engines: map<string, Engine>, g: Stage, turn: Turn): (r: Stage)
    requires turn.p in engines && g.runs.Keys == engines.Keys && g.acts.Keys == engines.Keys
    ensures r.runs.Keys == engines.Keys && r.acts.Keys == engines.Keys
  {
    var p := turn.p;
    var y := Perform(engines[p], g.runs[p], turn.act);
    var evs := Between(g.runs[p].w, y.w);
    Stage(map q | q in g.runs :: if q == p then y else PerformAll(engines[q], g.runs[q], Witnessed(evs)),
          map q | q in g.acts :: g.acts[q] + (if q == p then [turn.act] else Witnessed(evs)),
          g.history + Entries(p, evs))
  }

  function TakeTurns(engines: map<string, Engine>, g: Stage, turns: seq<Turn>): (r: Stage)
    requires g.runs.Keys == engines.Keys && g.acts.Keys == engines.Keys && forall i :: 0 <= i < |turns| ==> turns[i].p in engines
    ensures r.runs.Keys == engines.Keys && r.acts.Keys == engines.Keys
    decreases |turns|
  {
    if turns == [] then g else TakeTurns(engines, TakeTurn(engines, g, turns[0]), turns[1..])
  }

  // ---------- every stage is a concurrent run ----------

  /** Pool `q` is where its acts lead, its acts are lawful and exact, and it lived through the history. */
  ghost predicate InStep(q: string, K: iset<Key>, e: Engine, start: World, x: Trace, acts: seq<Act>, history: seq<Entry>) {
    && x == PerformAll(e, Trace(start, []), acts) && LivedThrough(q, x.w.trace, history)
    && (forall i :: 0 <= i < |acts| ==> Lawful(K, e, acts[i])) && ExactRun(e, Trace(start, []), acts)
  }

  lemma {:induction false} ExactConcat(e: Engine, x: Trace, acts: seq<Act>, more: seq<Act>)
    requires ExactRun(e, x, acts) && ExactRun(e, PerformAll(e, x, acts), more)
    ensures ExactRun(e, x, acts + more)
    decreases |acts|
  {
    if acts == [] {
      assert acts + more == more;
    } else {
      assert (acts + more)[1..] == acts[1..] + more && (acts + more)[0] == acts[0];
      assert ExactAct(e, x, acts[0]);
      ExactConcat(e, Perform(e, x, acts[0]), acts[1..], more);
    }
  }

  lemma {:induction false} WitnessedIsExact(e: Engine, x: Trace, evs: seq<HostEvent>)
    ensures ExactRun(e, x, Witnessed(evs))
    decreases |evs|
  {
    if evs != [] {
      assert Witnessed(evs)[1..] == Witnessed(evs[1..]);
      WitnessedIsExact(e, Perform(e, x, Witnessed(evs)[0]), evs[1..]);
    }
  }

  function AsOthers(evs: seq<HostEvent>): seq<HostEvent> {
    Map((ev: HostEvent) => HostEvent(false, ev.a), evs)
  }

  lemma {:induction false} WitnessedTrace(e: Engine, x: Trace, evs: seq<HostEvent>)
    requires HostOnly(evs)
    ensures PerformAll(e, x, Witnessed(evs)).w.trace == x.w.trace + AsOthers(evs)
    decreases |evs|
  {
    if evs == [] {
      assert Witnessed(evs) == [] && AsOthers(evs) == [];
    } else {
      WitnessFirst(e, x, evs);
      var y := x.(w := Acted(x.w, evs[0].a));
      WitnessedTrace(e, y, evs[1..]);
      OthersFirst(x.w, evs);
    }
  }

  lemma OthersFirst(w: World, evs: seq<HostEvent>)
    requires evs != [] && IsHostAction(evs[0].a)
    ensures Acted(w, evs[0].a).trace + AsOthers(evs[1..]) == w.trace + AsOthers(evs)
  {
    assert AsOthers(evs) == [HostEvent(false, evs[0].a)] + AsOthers(evs[1..]);
  }

  lemma WitnessFirst(e: Engine, x: Trace, evs: seq<HostEvent>)
    requires evs != []
    ensures PerformAll(e, x, Witnessed(evs)) == PerformAll(e, x.(w := Acted(x.w, evs[0].a)), Witnessed(evs[1..]))
  {
    assert Witnessed(evs)[1..] == Witnessed(evs[1..]) && Witnessed(evs)[0] == OutsideAct(evs[0].a);
  }

  lemma ActorInStep(p: string, K: iset<Key>, e: Engine, start: World, x: Trace, acts: seq<Act>, history: seq<Entry>, act: Act)
    requires InStep(p, K, e, start, x, acts, history) && Lawful(K, e, act) && ExactAct(e, x, act)
    ensures var y := Perform(e, x, act);
      InStep(p, K, e, start, y, acts + [act], history + Entries(p, Between(x.w, y.w)))
  {
    var y := Perform(e, x, act);
    PerformConcat(e, Trace(start, []), acts, [act]);
    PerformOne(e, x, act);
    assert [act][1..] == [];
    assert ExactRun(e, y, []);
    ExactConcat(e, Trace(start, []), acts, [act]);
    ActIsExplained(e, x, act);
    var evs := Between(x.w, y.w);
    forall i | 0 <= i < |y.w.trace|
      ensures var entry := (history + Entries(p, evs))[i]; y.w.trace[i] == HostEvent(entry.who == Some(p), entry.a)
    {
      if i < |x.w.trace| {
        assert y.w.trace[i] == x.w.trace[i];
      } else {
        assert y.w.trace[i] == evs[i - |x.w.trace|];
      }
    }
  }

  lemma WitnessInStep(
    q: string, K: iset<Key>, e: Engine, start: World, x: Trace, acts: seq<Act>, history: seq<Entry>, p: string, evs: seq<HostEvent>)
    requires InStep(q, K, e, start, x, acts, history) && HostOnly(evs) && p != q
    ensures InStep(q, K, e, start, PerformAll(e, x, Witnessed(evs)), acts + Witnessed(evs), history + Entries(p, evs))
  {
    PerformConcat(e, Trace(start, []), acts, Witnessed(evs));
    WitnessedIsExact(e, x, evs);
    ExactConcat(e, Trace(start, []), acts, Witnessed(evs));
    WitnessedTrace(e, x, evs);
  }

  /** Pools with their keys and where they start. */
  datatype Pool = Pool(e: Engine, keys: iset<Key>, start: World)

  ghost function Engines(pools: map<string, Pool>): map<string, Engine> {
    map p | p in pools :: pools[p].e
  }

  ghost predicate AllInStep(pools: map<string, Pool>, g: Stage) {
    && g.runs.Keys == pools.Keys && g.acts.Keys == pools.Keys
    && forall q :: q in pools ==> InStep(q, pools[q].keys, pools[q].e, pools[q].start, g.runs[q], g.acts[q], g.history)
  }

  /** The act of the turn is the pool's own, with complete lists and no steps but before its calls. */
  ghost predicate TurnOk(pools: map<string, Pool>, g: Stage, turn: Turn)
    requires g.runs.Keys == pools.Keys
  {
    turn.p in pools && Lawful(pools[turn.p].keys, pools[turn.p].e, turn.act) && ExactAct(pools[turn.p].e, g.runs[turn.p], turn.act)
  }

  lemma TurnKeepsStep(pools: map<string, Pool>, g: Stage, turn: Turn)
    requires AllInStep(pools, g) && TurnOk(pools, g, turn)
    ensures AllInStep(pools, TakeTurn(Engines(pools), g, turn))
  {
    var p := turn.p;
    var r := TakeTurn(Engines(pools), g, turn);
    var y := Perform(pools[p].e, g.runs[p], turn.act);
    var evs := Between(g.runs[p].w, y.w);
    ActIsExplained(pools[p].e, g.runs[p], turn.act);
    forall q | q in pools ensures InStep(q, pools[q].keys, pools[q].e, pools[q].start, r.runs[q], r.acts[q], r.history) {
      assert InStep(q, pools[q].keys, pools[q].e, pools[q].start, g.runs[q], g.acts[q], g.history);
      if q == p {
        ActorInStep(q, pools[q].keys, pools[q].e, pools[q].start, g.runs[q], g.acts[q], g.history, turn.act);
      } else {
        WitnessInStep(q, pools[q].keys, pools[q].e, pools[q].start, g.runs[q], g.acts[q], g.history, p, evs);
      }
    }
  }

  ghost predicate TurnsOk(pools: map<string, Pool>, g: Stage, turns: seq<Turn>)
    requires g.runs.Keys == pools.Keys && g.acts.Keys == pools.Keys
    decreases |turns|
  {
    turns != [] ==> TurnOk(pools, g, turns[0]) && TurnsOk(pools, TakeTurn(Engines(pools), g, turns[0]), turns[1..])
  }

  lemma {:induction false} TurnsKeepStep(pools: map<string, Pool>, g: Stage, turns: seq<Turn>)
    requires AllInStep(pools, g) && TurnsOk(pools, g, turns) && forall i :: 0 <= i < |turns| ==> turns[i].p in pools
    ensures AllInStep(pools, TakeTurns(Engines(pools), g, turns))
    decreases |turns|
  {
    if turns != [] {
      assert turns[0].p in pools && TurnOk(pools, g, turns[0]);
      TurnKeepsStep(pools, g, turns[0]);
      var r := TakeTurn(Engines(pools), g, turns[0]);
      assert TurnsOk(pools, r, turns[1..]);
      TurnsKeepStep(pools, r, turns[1..]);
    }
  }

  ghost function First(pools: map<string, Pool>): Stage {
    Stage(map p | p in pools :: Trace(pools[p].start, []), map p | p in pools :: [], [])
  }

  ghost predicate PoolsOk(pools: map<string, Pool>) {
    && (forall p :: p in pools ==>
          pools[p].e.pool.ns != "" && pools[p].start.trace == [] && AtHome(pools[p].keys, pools[p].e, pools[p].start))
    && (forall p, q :: p in pools && q in pools && p != q ==> Apart(SiteOf(pools[p], []), SiteOf(pools[q], [])))
  }

  ghost function SiteOf(pool: Pool, acts: seq<Act>): Site {
    Site(pool.e, pool.keys, pool.start, acts)
  }

  /** What outsiders did is polite to every pool. */
  ghost predicate OutsidersPolite(pools: map<string, Pool>, history: seq<Entry>) {
    forall p, i :: p in pools && 0 <= i < |history| && (history[i].who.None? || history[i].who.value !in pools) ==>
      Polite(pools[p].keys, pools[p].e, history[i].a)
  }

  lemma StagesAreConcurrent(pools: map<string, Pool>, g: Stage)
    requires PoolsOk(pools) && AllInStep(pools, g) && OutsidersPolite(pools, g.history)
    ensures Concurrent(map p | p in pools :: SiteOf(pools[p], g.acts[p]), g.history)
  {
    var sites := map p | p in pools :: SiteOf(pools[p], g.acts[p]);
    forall p | p in sites ensures SiteOk(p, sites[p], g.history) {
      assert InStep(p, pools[p].keys, pools[p].e, pools[p].start, g.runs[p], g.acts[p], g.history);
    }
    forall p, q | p in sites && q in sites && p != q ensures Apart(sites[p], sites[q]) {
      assert Apart(SiteOf(pools[p], []), SiteOf(pools[q], []));
    }
    forall p, i | p in sites && 0 <= i < |g.history| && Outsider(sites, g.history[i])
      ensures Polite(sites[p].keys, sites[p].e, g.history[i].a)
    {
    }
  }

  /**
   * Pools take turns, in any order, each turn a pass or a cleanup with outside steps before every call. If what
   * the outsiders did was polite, every pool's host pods, tenant and reports are what they are when the pool
   * runs alone: of the other pools' turns nothing is left but outside steps on the pool's own pods.
   */
  lemma TurnsDoNotInterfere(pools: map<string, Pool>, turns: seq<Turn>, p: string)
    requires PoolsOk(pools) && p in pools && (forall i :: 0 <= i < |turns| ==> turns[i].p in pools)
    requires TurnsOk(pools, First(pools), turns)
    requires OutsidersPolite(pools, TakeTurns(Engines(pools), First(pools), turns).history)
    ensures var g := TakeTurns(Engines(pools), First(pools), turns);
      var y := PerformAll(pools[p].e, Trace(pools[p].start, []), Alone(pools[p].keys, g.acts[p]));
      Agree(pools[p].keys, g.runs[p].w, y.w) && g.runs[p].reports == y.reports
  {
    LastInStep(pools, turns);
    StageDoesNotInterfere(pools, TakeTurns(Engines(pools), First(pools), turns), p);
  }

  lemma FirstInStep(pools: map<string, Pool>)
    requires PoolsOk(pools)
    ensures AllInStep(pools, First(pools))
  {
  }

  lemma LastInStep(pools: map<string, Pool>, turns: seq<Turn>)
    requires PoolsOk(pools) && (forall i :: 0 <= i < |turns| ==> turns[i].p in pools) && TurnsOk(pools, First(pools), turns)
    ensures AllInStep(pools, TakeTurns(Engines(pools), First(pools), turns))
  {
    FirstInStep(pools);
    TurnsKeepStep(pools, First(pools), turns);
  }

  lemma StageDoesNotInterfere(pools: map<string, Pool>, g: Stage, p: string)
    requires PoolsOk(pools) && AllInStep(pools, g) && OutsidersPolite(pools, g.history) && p in pools
    ensures var y := PerformAll(pools[p].e, Trace(pools[p].start, []), Alone(pools[p].keys, g.acts[p]));
      Agree(pools[p].keys, g.runs[p].w, y.w) && g.runs[p].reports == y.reports
  {
    StagesAreConcurrent(pools, g);
    assert InStep(p, pools[p].keys, pools[p].e, pools[p].start, g.runs[p], g.acts[p], g.history);
    PoolsRunAsIfAlone(map q | q in pools :: SiteOf(pools[q], g.acts[q]), g.history, p);
  }

  /** All pools that started on `host` are on one host. */
  ghost predicate OneHost(pools: map<string, Pool>, g: Stage, host: Stores) {
    forall p :: p in pools && p in g.runs && SameHost(pools[p].start.st, host) ==>
      SameHost(g.runs[p].w.st, Replay(host, Events(g.history)))
  }

  lemma StageIsOneHost(pools: map<string, Pool>, g: Stage, host: Stores)
    requires PoolsOk(pools) && AllInStep(pools, g) && OutsidersPolite(pools, g.history)
    ensures OneHost(pools, g, host)
  {
    StagesAreConcurrent(pools, g);
    var sites := map r | r in pools :: SiteOf(pools[r], g.acts[r]);
    forall p | p in pools && SameHost(pools[p].start.st, host) ensures SameHost(g.runs[p].w.st, Replay(host, Events(g.history))) {
      assert InStep(p, pools[p].keys, pools[p].e, pools[p].start, g.runs[p], g.acts[p], g.history);
      PoolsShareOneHost(sites, g.history, p, host);
    }
  }

  /** Pools that start on one host are on one host after all turns, the replay of the history. */
  lemma TurnsShareOneHost(pools: map<string, Pool>, turns: seq<Turn>, host: Stores, g: Stage)
    requires PoolsOk(pools) && (forall i :: 0 <= i < |turns| ==> turns[i].p in pools)
    requires TurnsOk(pools, First(pools), turns) && g == TakeTurns(Engines(pools), First(pools), turns)
    requires OutsidersPolite(pools, g.history)
    ensures OneHost(pools, g, host)
  {
    assert AllInStep(pools, g) by {
      LastInStep(pools, turns);
    }
    StageIsOneHost(pools, g, host);
  }

  // ---------- which pools have different keys ----------

  /** The host keys of a pool displayed as `display`. */
  ghost function KeysOf(e: Engine, display: string): iset<Key> {
    iset i: nat, ns: string, name: string | i >= 1 :: Key(e.pool.ns, HostName(NodeName(display, i), ns, name))
  }

  lemma NodesOfThePool(e: Engine, display: string, nodes: seq<VNode>)
    requires forall n :: n in nodes ==> exists i: nat :: i >= 1 && n.name == NodeName(display, i)
    ensures NodesIn(KeysOf(e, display), e, nodes)
  {
    forall n, ns, name | n in nodes ensures Key(e.pool.ns, HostName(n.name, ns, name)) in KeysOf(e, display) {
      var i: nat :| i >= 1 && n.name == NodeName(display, i);
    }
  }

  /** `b` is `a` followed by a dash, a positive number, and nothing or a dash and more. */
  ghost predicate NumberExtends(a: string, b: string) {
    exists i: nat :: i >= 1 && ExtendsBy(a, b, i)
  }

  ghost predicate ExtendsBy(a: string, b: string, i: nat) {
    b == a + "-" + Decimal(i) || DashPrefix(a + "-" + Decimal(i), b)
  }

  lemma HostNameOf(display: string, i: nat, ns: string, name: string)
    ensures HostName(NodeName(display, i), ns, name) == "vnode-" + (display + "-" + (Decimal(i) + "-" + (ns + "-" + name)))
  {
  }

  /** If two names coincide and the longer display dash-extends the shorter one, it does so by the shorter one's number. */
  lemma CollisionMeansNumber(d1: string, d2: string, i: nat, x: string, y: string)
    requires d1 + "-" + (Decimal(i) + "-" + x) == d2 + "-" + y && DashPrefix(d1, d2)
    ensures ExtendsBy(d1, d2, i)
  {
    var rest := d2[|d1| + 1..];
    assert d2 == d1 + "-" + rest;
    assert d2 + "-" + y == d1 + "-" + (rest + "-" + y);
    CancelPrefix(d1 + "-", Decimal(i) + "-" + x, rest + "-" + y);
    SplitAtDash(Decimal(i), x, rest, y);
    assert '-' !in Decimal(i) && !DashPrefix(rest, Decimal(i));
    if DashPrefix(Decimal(i), rest) {
      var p := d1 + "-" + Decimal(i);
      assert d2[..|p|] == d1 + "-" + rest[..|Decimal(i)|];
      assert d2[|p|] == rest[|Decimal(i)|];
    }
  }

  lemma CollidingDisplays(d1: string, d2: string, i: nat, a: string, x: string, j: nat, b: string, y: string)
    requires i >= 1 && j >= 1 && HostName(NodeName(d1, i), a, x) == HostName(NodeName(d2, j), b, y)
    ensures d1 == d2 || NumberExtends(d1, d2) || NumberExtends(d2, d1)
  {
    var s, t := a + "-" + x, b + "-" + y;
    var u, v := Decimal(i) + "-" + s, Decimal(j) + "-" + t;
    HostNameOf(d1, i, a, x);
    HostNameOf(d2, j, b, y);
    CancelPrefix("vnode-", d1 + "-" + u, d2 + "-" + v);
    SplitAtDash(d1, u, d2, v);
    if DashPrefix(d1, d2) {
      CollisionMeansNumber(d1, d2, i, s, v);
    } else if DashPrefix(d2, d1) {
      CollisionMeansNumber(d2, d1, j, t, u);
    }
  }

  /** A host name of the longer display is, with another namespace and pod name, one of the shorter display. */
  lemma ExtendedDisplayName(d1: string, d2: string, i: nat, ns: string, name: string) returns (a: string, x: string)
    requires ExtendsBy(d1, d2, i)
    ensures HostName(NodeName(d2, 1), ns, name) == HostName(NodeName(d1, i), a, x)
  {
    var p, rest := d1 + "-" + Decimal(i), ns + "-" + name;
    HostNameOf(d2, 1, ns, name);
    if d2 == p {
      a, x := Decimal(1), rest;
      assert d1 + "-" + (Decimal(i) + "-" + (a + "-" + x)) == d2 + "-" + (Decimal(1) + "-" + rest);
    } else {
      a, x := d2[|p| + 1..], Decimal(1) + "-" + rest;
      assert d2 == p + "-" + a;
      assert d1 + "-" + (Decimal(i) + "-" + (a + "-" + x)) == d2 + "-" + x;
    }
    HostNameOf(d1, i, a, x);
  }

  /** A display that continues another one's node names shares a host key with it. */
  lemma ExtendedDisplayCollides(e: Engine, f: Engine, d1: string, d2: string) returns (k: Key)
    requires e.pool.ns == f.pool.ns && NumberExtends(d1, d2)
    ensures k in KeysOf(e, d1) && k in KeysOf(f, d2)
  {
    var i: nat :| i >= 1 && ExtendsBy(d1, d2, i);
    var a, x := ExtendedDisplayName(d1, d2, i, "ns", "pod");
    k := Key(f.pool.ns, HostName(NodeName(d2, 1), "ns", "pod"));
    assert k == Key(e.pool.ns, HostName(NodeName(d1, i), a, x));
  }

  ghost predicate Disjoint(a: iset<Key>, b: iset<Key>) {
    forall k :: !(k in a && k in b)
  }

  /**
   * Two pools share no host key if and only if they have different host namespaces, or displays that differ and
   * neither of which continues the other one's node names.
   */
  lemma KeysAreDisjointIff(e: Engine, f: Engine, d1: string, d2: string)
    ensures Disjoint(KeysOf(e, d1), KeysOf(f, d2)) <==>
      e.pool.ns != f.pool.ns || (d1 != d2 && !NumberExtends(d1, d2) && !NumberExtends(d2, d1))
  {
    if e.pool.ns == f.pool.ns && d1 == d2 {
      var k := Key(e.pool.ns, HostName(NodeName(d1, 1), "ns", "pod"));
      assert k in KeysOf(e, d1) && k in KeysOf(f, d2);
    } else if e.pool.ns == f.pool.ns && NumberExtends(d1, d2) {
      var k := ExtendedDisplayCollides(e, f, d1, d2);
    } else if e.pool.ns == f.pool.ns && NumberExtends(d2, d1) {
      var k := ExtendedDisplayCollides(f, e, d2, d1);
    } else {
      forall k ensures !(k in KeysOf(e, d1) && k in KeysOf(f, d2)) {
        if k in KeysOf(e, d1) && k in KeysOf(f, d2) {
          var i: nat, a, x :| i >= 1 && k == Key(e.pool.ns, HostName(NodeName(d1, i), a, x));
          var j: nat, b, y :| j >= 1 && k == Key(f.pool.ns, HostName(NodeName(d2, j), b, y));
          CollidingDisplays(d1, d2, i, a, x, j, b, y);
        }
      }
    }
  }

  /** So pools of different names, with displays neither of which continues the other's node names, are apart. */
  lemma PoolsAreApart(a: Site, b: Site, d1: string, d2: string)
    requires a.keys == KeysOf(a.e, d1) && b.keys == KeysOf(b.e, d2)
    requires a.e.pool.ns != b.e.pool.ns ||
      (a.e.pool.name != b.e.pool.name && d1 != d2 && !NumberExtends(d1, d2) && !NumberExtends(d2, d1))
    ensures Apart(a, b)
  {
    KeysAreDisjointIff(a.e, b.e, d1, d2);
    assert Disjoint(a.keys, b.keys);
  }
}
