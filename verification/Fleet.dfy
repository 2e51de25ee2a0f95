/**
 * Many pools on one host at the same time. Nobody is assumed to behave but the outsiders: that each pool
 * keeps to its own keys as long as the others do, and that therefore all of them always do, is proved here.
 */
module Fleet {
  import opened Lists
  import opened PodModel
  import opened NodeModel
  import opened CorePods
  import opened Translation
  import opened Drift
  import opened Clusters
  import opened Execution
  import opened Walks
  import opened History
  import opened Isolation

  // ---------- whose fault it is ----------

  /** A pool's own write at its own keys: a creation carries the pool's labels. */
  ghost predicate AtOwnKeys(K: iset<Key>, e: Engine, a: EnvAction) {
    match a
    case HostCreated(k, pod) => k in K && k.ns == e.pool.ns && HasPoolLabels(pod, e.pool.name)
    case HostEvicted(k) => k in K
    case HostWritten(_, _, _) => true
    case _ => false
  }

  /** An event as it should be: own writes at the pool's keys, others polite. */
  ghost predicate Proper(K: iset<Key>, e: Engine, ev: HostEvent) {
    if ev.own then AtOwnKeys(K, e, ev.a) else Polite(K, e, ev.a)
  }

  ghost predicate AllProper(K: iset<Key>, e: Engine, t: seq<HostEvent>) {
    forall i :: 0 <= i < |t| ==> Proper(K, e, t[i])
  }

  ghost predicate OthersFault(K: iset<Key>, e: Engine, t: seq<HostEvent>, n: nat) {
    exists j :: 0 <= j < n && j < |t| && !t[j].own && !Proper(K, e, t[j])
  }

  /** An own event is improper only after somebody else was impolite. */
  ghost predicate Blameless(K: iset<Key>, e: Engine, t: seq<HostEvent>) {
    forall i :: 0 <= i < |t| && t[i].own && !Proper(K, e, t[i]) ==> OthersFault(K, e, t, i)
  }

  ghost predicate Innocent(K: iset<Key>, e: Engine, w: World) {
    Blameless(K, e, w.trace) && (AllProper(K, e, w.trace) ==> AtHome(K, e, w))
  }

  ghost function StaysInnocent(K: iset<Key>, e: Engine): Relation {
    (a: World, b: World) => Innocent(K, e, a) ==> Innocent(K, e, b)
  }

  lemma SpoiltByOthers(K: iset<Key>, e: Engine, t: seq<HostEvent>)
    requires Blameless(K, e, t) && !AllProper(K, e, t)
    ensures OthersFault(K, e, t, |t|)
  {
    var i :| 0 <= i < |t| && !Proper(K, e, t[i]);
    if t[i].own {
      assert OthersFault(K, e, t, i);
      var j :| 0 <= j < i && !t[j].own && !Proper(K, e, t[j]);
    }
  }

  /** Once others are at fault, whatever follows is theirs. */
  lemma SpoiltStaysInnocent(K: iset<Key>, e: Engine, a: World, b: World)
    requires Innocent(K, e, a) && !AllProper(K, e, a.trace) && Explained(a, b)
    ensures Innocent(K, e, b)
  {
    SpoiltByOthers(K, e, a.trace);
    var n := |a.trace|;
    assert b.trace[..n] == a.trace;
    var j :| 0 <= j < n && !a.trace[j].own && !Proper(K, e, a.trace[j]);
    assert b.trace[j] == a.trace[j];
    forall i | 0 <= i < |b.trace| && b.trace[i].own && !Proper(K, e, b.trace[i]) ensures OthersFault(K, e, b.trace, i) {
      if i < n {
        assert b.trace[i] == a.trace[i];
        assert OthersFault(K, e, a.trace, i);
        var m :| 0 <= m < i && !a.trace[m].own && !Proper(K, e, a.trace[m]);
        assert b.trace[m] == a.trace[m];
      }
    }
  }

  /** One more event that is proper or not the pool's own. */
  lemma EventStaysInnocent(K: iset<Key>, e: Engine, a: World, b: World, ev: HostEvent)
    requires Innocent(K, e, a) && b.trace == a.trace + [ev] && (ev.own ==> Proper(K, e, ev))
    requires Proper(K, e, ev) && AtHome(K, e, a) ==> AtHome(K, e, b)
    ensures Innocent(K, e, b)
  {
    var n := |a.trace|;
    forall i | 0 <= i < |b.trace| && b.trace[i].own && !Proper(K, e, b.trace[i]) ensures OthersFault(K, e, b.trace, i) {
      assert i < n && b.trace[i] == a.trace[i];
      assert OthersFault(K, e, a.trace, i);
      var m :| 0 <= m < i && !a.trace[m].own && !Proper(K, e, a.trace[m]);
      assert b.trace[m] == a.trace[m];
    }
    if AllProper(K, e, b.trace) {
      assert b.trace[n] == ev;
      forall i | 0 <= i < n ensures Proper(K, e, a.trace[i]) {
        assert b.trace[i] == a.trace[i];
      }
    }
  }

  lemma SameHostStaysInnocent(K: iset<Key>, e: Engine, a: World, b: World)
    requires Innocent(K, e, a) && a.trace == b.trace && a.st.hostPods == b.st.hostPods
    ensures Innocent(K, e, b)
  {
  }

  lemma StepStaysInnocent(K: iset<Key>, e: Engine, w: World, a: EnvAction)
    ensures StaysInnocent(K, e)(w, Acted(w, a))
  {
    if Innocent(K, e, w) {
      if IsHostAction(a) {
        if Polite(K, e, a) {
          PoliteStepStaysHome(K, e, w, a);
        }
        EventStaysInnocent(K, e, w, Acted(w, a), HostEvent(false, a));
      } else {
        TenantStepKeepsHost(w.st, a);
        assert w.trace + [] == w.trace;
        SameHostStaysInnocent(K, e, w, Acted(w, a));
      }
    }
  }

  lemma InnocentBackground(K: iset<Key>, e: Engine, s: Script)
    ensures Background(StaysInnocent(K, e), s)
  {
    var r := StaysInnocent(K, e);
    forall w: World, kind: VolumeType, k: Key, copy: HostResource ensures r(w, Put(w, kind, k, copy)) {
      if Innocent(K, e, w) {
        EventStaysInnocent(K, e, w, Put(w, kind, k, copy), HostEvent(true, HostWritten(kind, k, copy)));
      }
    }
    forall a: World, b: World | a.trace == b.trace && a.st == b.st ensures r(a, b) {
      if Innocent(K, e, a) {
        SameHostStaysInnocent(K, e, a, b);
      }
    }
    forall w: World ensures r(w, Tick(w, s)) {
      forall i, v: World | 0 <= i < |s.env(w.calls)| ensures r(v, Acted(v, s.env(w.calls)[i])) {
        StepStaysInnocent(K, e, v, s.env(w.calls)[i]);
      }
      TickWalk(r, w, s);
    }
  }

  // ---------- a pool's own calls ----------

  lemma MarkStaysInnocent(K: iset<Key>, e: Engine, w: World, k: Key)
    requires k in K
    ensures StaysInnocent(K, e)(w, Marked(w, k))
  {
    if Innocent(K, e, w) {
      MarkStaysHome(K, e, w, k);
      EventStaysInnocent(K, e, w, Marked(w, k), HostEvent(true, HostEvicted(k)));
    }
  }

  lemma CreateStaysInnocent(K: iset<Key>, e: Engine, w: World, src: CorePod)
    requires HostKey(e, src) in K
    ensures StaysInnocent(K, e)(w, Create(w, Wanted(e, src)))
  {
    var pod := Stored(Wanted(e, src));
    SystemLabelsWin(SourceOf(src), Opts(e, src.nodeName));
    assert KeyOf(pod) == HostKey(e, src) && HasPoolLabels(pod, e.pool.name);
    if Innocent(K, e, w) {
      CreateStaysHome(K, e, w, Wanted(e, src));
      EventStaysInnocent(K, e, w, Create(w, Wanted(e, src)), HostEvent(true, HostCreated(KeyOf(pod), pod)));
    }
  }

  lemma SourceStaysInnocent(K: iset<Key>, e: Engine, s: Script, src: CorePod)
    requires HostKey(e, src) in K
    ensures RespectsSource(StaysInnocent(K, e), s, e, src)
  {
    var r, k := StaysInnocent(K, e), HostKey(e, src);
    InnocentBackground(K, e, s);
    forall w: World | k !in w.st.hostPods ensures r(w, Create(w, Wanted(e, src))) {
      CreateStaysInnocent(K, e, w, src);
    }
    forall w: World ensures r(w, Marked(w, k)) {
      MarkStaysInnocent(K, e, w, k);
    }
    RespectedByLaws(r, s, e, src);
  }

  /** The sweep lists by labels, and while nobody was impolite the pool's labels are at home. */
  lemma ListedKeysAreOwn(K: iset<Key>, e: Engine, w: World, s: Script, keys: seq<Key>)
    requires AtHome(K, e, w) && Orderly(s) && e.pool.ns != "" && keys == s.hostOrder(Labelled(w.st, e.pool.ns, e.pool.name))
    ensures forall i :: 0 <= i < |keys| ==> keys[i] in K
  {
    assert Enumerates(keys, Labelled(w.st, e.pool.ns, e.pool.name));
    forall i | 0 <= i < |keys| ensures keys[i] in K {
      assert keys[i] in keys;
    }
  }

  lemma SweepStaysInnocent(K: iset<Key>, p: Progress, s: Script, e: Engine)
    requires Orderly(s) && e.pool.ns != ""
    ensures StaysInnocent(K, e)(p.w, SweepListed(p, s, e).p.w)
  {
    var r, w1 := StaysInnocent(K, e), Tick(p.w, s);
    InnocentBackground(K, e, s);
    assert r(p.w, w1);
    var keys := s.hostOrder(Labelled(w1.st, e.pool.ns, e.pool.name));
    var f := Sweep(p.(w := w1), s, keys);
    if Innocent(K, e, w1) {
      if AllProper(K, e, w1.trace) {
        ListedKeysAreOwn(K, e, w1, s, keys);
        forall i | 0 <= i < |keys| ensures RespectsDelete(r, s, keys[i]) {
          forall w: World ensures r(w, Marked(w, keys[i])) {
            MarkStaysInnocent(K, e, w, keys[i]);
          }
          DeleteByLaws(r, s, keys[i]);
        }
        SweepWalk(r, p.(w := w1), s, keys);
      } else {
        ExplainsBackground(s);
        ExplainsCalls();
        SweepKeysByLaws(Explains(), p.(w := w1), s, keys);
        SpoiltStaysInnocent(K, e, w1, f.p.w);
      }
    }
  }

  lemma LoopsStayInnocent(K: iset<Key>, w: World, s: Script, e: Engine, srcs: seq<CorePod>)
    requires Orderly(s) && e.pool.ns != "" && KeysIn(K, e, srcs)
    ensures StaysInnocent(K, e)(w, SyncAndSweep(w, s, e, srcs).p.w)
  {
    var r, p := StaysInnocent(K, e), Progress(w, {}, NoCounts.(sourcePods := |srcs|));
    InnocentBackground(K, e, s);
    forall i | 0 <= i < |srcs| ensures RespectsSource(r, s, e, srcs[i]) {
      SourceStaysInnocent(K, e, s, srcs[i]);
    }
    SyncPodsWalk(r, p, s, e, srcs);
    var g := SyncPods(p, s, e, srcs);
    if g.Next? {
      SweepStaysInnocent(K, g.p, s, e);
    }
  }

  /**
   * The guarantee, under any interference: whatever happens around it, a pass or a cleanup writes outside its
   * pool's keys only after somebody else has been impolite to the pool.
   */
  lemma PassStaysInnocent(K: iset<Key>, w: World, s: Script, e: Engine, nodes: seq<VNode>)
    requires Orderly(s) && e.pool.ns != "" && NodesIn(K, e, nodes) && Innocent(K, e, w)
    ensures Innocent(K, e, Pass(w, s, e, nodes).p.w) && Innocent(K, e, Cleanup(w, s, e).p.w)
  {
    var r := StaysInnocent(K, e);
    InnocentBackground(K, e, s);
    var v, srcs := PassShape(r, w, s, e, nodes);
    SourcesIn(K, e, v.st, s, nodes);
    LoopsStayInnocent(K, v, s, e, srcs);
    SweepStaysInnocent(K, Progress(w, {}, NoCounts), s, e);
  }

  // ---------- runs ----------

  /** What an act needs of the pool itself: its nodes are its own, and lists are complete. */
  ghost predicate Lawful(K: iset<Key>, e: Engine, act: Act) {
    match act
    case PassAct(nodes, s) => NodesIn(K, e, nodes) && Orderly(s)
    case CleanupAct(s) => Orderly(s)
    case OutsideAct(_) => true
  }

  lemma ActIsExplained(e: Engine, x: Trace, act: Act)
    ensures Explained(x.w, Perform(e, x, act).w)
  {
    match act
    case PassAct(nodes, s) => PassIsExplained(x.w, s, e, nodes);
    case CleanupAct(s) => PassIsExplained(x.w, s, e, []);
    case OutsideAct(a) => StepExplained(x.w, a);
  }

  lemma {:induction false} RunIsExplained(e: Engine, x: Trace, acts: seq<Act>)
    ensures Explained(x.w, PerformAll(e, x, acts).w)
    decreases |acts|
  {
    if acts == [] {
      NothingExplained(x.w, x.w);
    } else {
      var y := Perform(e, x, acts[0]);
      ActIsExplained(e, x, acts[0]);
      RunIsExplained(e, y, acts[1..]);
      ExplainedTrans(x.w, y.w, PerformAll(e, y, acts[1..]).w);
    }
  }

  lemma ActStaysInnocent(K: iset<Key>, e: Engine, x: Trace, act: Act)
    requires Lawful(K, e, act) && e.pool.ns != "" && Innocent(K, e, x.w)
    ensures Innocent(K, e, Perform(e, x, act).w)
  {
    match act
    case PassAct(nodes, s) => PassStaysInnocent(K, x.w, s, e, nodes);
    case CleanupAct(s) => PassStaysInnocent(K, x.w, s, e, []);
    case OutsideAct(a) => StepStaysInnocent(K, e, x.w, a);
  }

  lemma {:induction false} RunStaysInnocent(K: iset<Key>, e: Engine, x: Trace, acts: seq<Act>)
    requires e.pool.ns != "" && Innocent(K, e, x.w) && forall i :: 0 <= i < |acts| ==> Lawful(K, e, acts[i])
    ensures Innocent(K, e, PerformAll(e, x, acts).w)
    decreases |acts|
  {
    if acts != [] {
      assert Lawful(K, e, acts[0]);
      ActStaysInnocent(K, e, x, acts[0]);
      assert forall i :: 0 <= i < |acts[1..]| ==> acts[1..][i] == acts[i + 1];
      RunStaysInnocent(K, e, Perform(e, x, acts[0]), acts[1..]);
    }
  }

  // ---------- scripts and what happened ----------

  /** The script's host steps before the calls made between the two worlds are in the trace. */
  ghost predicate Recorded(s: Script, a: World, b: World) {
    && a.calls <= b.calls && |a.trace| <= |b.trace| && b.trace[..|a.trace|] == a.trace
    && forall n: nat, i :: a.calls <= n < b.calls && 0 <= i < |s.env(n)| && IsHostAction(s.env(n)[i]) ==>
         HostEvent(false, s.env(n)[i]) in b.trace
  }

  ghost function Records(s: Script): Relation {
    (a: World, b: World) => Recorded(s, a, b)
  }

  lemma RecordedTrans(s: Script, a: World, b: World, c: World)
    requires Recorded(s, a, b) && Recorded(s, b, c)
    ensures Recorded(s, a, c)
  {
    assert c.trace[..|a.trace|] == c.trace[..|b.trace|][..|a.trace|];
    forall n: nat, i | a.calls <= n < c.calls && 0 <= i < |s.env(n)| && IsHostAction(s.env(n)[i])
      ensures HostEvent(false, s.env(n)[i]) in c.trace
    {
      if n < b.calls {
        assert HostEvent(false, s.env(n)[i]) in b.trace;
        assert HostEvent(false, s.env(n)[i]) in c.trace[..|b.trace|];
      }
    }
  }

  lemma NothingRecorded(s: Script, a: World, b: World)
    requires a.calls == b.calls && |a.trace| <= |b.trace| && b.trace[..|a.trace|] == a.trace
    ensures Recorded(s, a, b)
  {
  }

  lemma {:induction false} NotedHasAll(actions: seq<EnvAction>, i: nat)
    requires i < |actions| && IsHostAction(actions[i])
    ensures HostEvent(false, actions[i]) in Noted(actions)
    decreases |actions|
  {
    var n := |actions| - 1;
    if i < n {
      NotedHasAll(actions[..n], i);
    }
  }

  lemma TickRecorded(s: Script, w: World)
    ensures Recorded(s, w, Tick(w, s))
  {
    var v := Tick(w, s);
    forall i | 0 <= i < |s.env(w.calls)| && IsHostAction(s.env(w.calls)[i])
      ensures HostEvent(false, s.env(w.calls)[i]) in v.trace
    {
      NotedHasAll(s.env(w.calls), i);
    }
  }

  lemma RecordsBackground(s: Script)
    ensures Background(Records(s), s)
  {
    forall a, b, c | Records(s)(a, b) && Records(s)(b, c) ensures Records(s)(a, c) {
      RecordedTrans(s, a, b, c);
    }
    forall w: World ensures Records(s)(w, Tick(w, s)) {
      TickRecorded(s, w);
    }
    forall a: World, b: World | a.calls == b.calls && a.trace == b.trace ensures Records(s)(a, b) {
      NothingRecorded(s, a, b);
    }
    forall w: World, kind: VolumeType, k: Key, copy: HostResource ensures Records(s)(w, Put(w, kind, k, copy)) {
      NothingRecorded(s, w, Put(w, kind, k, copy));
    }
  }

  lemma RecordsCalls(s: Script)
    ensures CallLaws(Records(s))
  {
    forall w: World, spec: PodSpec | Key(spec.ns, spec.name) !in w.st.hostPods ensures Records(s)(w, Create(w, spec)) {
      NothingRecorded(s, w, Create(w, spec));
    }
    forall w: World, k ensures Records(s)(w, Marked(w, k)) {
      NothingRecorded(s, w, Marked(w, k));
    }
    forall k, tk, a: World, b: World | k in a.st.hostPods && tk in b.st.tenantPods && Records(s)(a, b)
      ensures Records(s)(a, WrittenBack(a, b, k, tk))
    {
      NothingRecorded(s, b, WrittenBack(a, b, k, tk));
      RecordedTrans(s, a, b, WrittenBack(a, b, k, tk));
    }
  }

  lemma PassIsRecorded(w: World, s: Script, e: Engine, nodes: seq<VNode>)
    ensures Recorded(s, w, Pass(w, s, e, nodes).p.w) && Recorded(s, w, Cleanup(w, s, e).p.w)
  {
    RecordsBackground(s);
    RecordsCalls(s);
    PassByLaws(Records(s), w, s, e, nodes);
  }

  /** The script has no steps but before calls that were made. */
  ghost predicate Exact(s: Script, a: World, b: World) {
    forall n: nat :: s.env(n) != [] ==> a.calls <= n < b.calls
  }

  lemma ProperTraceMeansPolite(K: iset<Key>, e: Engine, s: Script, a: World, b: World)
    requires Exact(s, a, b) && Recorded(s, a, b) && AllProper(K, e, b.trace)
    ensures PoliteScript(K, e, s)
  {
    forall n: nat, i | 0 <= i < |s.env(n)| ensures Polite(K, e, s.env(n)[i]) {
      if IsHostAction(s.env(n)[i]) {
        assert HostEvent(false, s.env(n)[i]) in b.trace;
      }
    }
  }

  ghost predicate ExactAct(e: Engine, x: Trace, act: Act) {
    match act
    case PassAct(_, s) => Exact(s, x.w, Perform(e, x, act).w)
    case CleanupAct(s) => Exact(s, x.w, Perform(e, x, act).w)
    case OutsideAct(_) => true
  }

  ghost predicate ExactRun(e: Engine, x: Trace, acts: seq<Act>)
    decreases |acts|
  {
    acts != [] ==> ExactAct(e, x, acts[0]) && ExactRun(e, Perform(e, x, acts[0]), acts[1..])
  }

  lemma ProperActIsPolite(K: iset<Key>, e: Engine, x: Trace, act: Act)
    requires Lawful(K, e, act) && ExactAct(e, x, act) && AllProper(K, e, Perform(e, x, act).w.trace)
    ensures PoliteAct(K, e, act)
  {
    var y := Perform(e, x, act);
    match act
    case PassAct(nodes, s) =>
      PassIsRecorded(x.w, s, e, nodes);
      ProperTraceMeansPolite(K, e, s, x.w, y.w);
    case CleanupAct(s) =>
      PassIsRecorded(x.w, s, e, []);
      ProperTraceMeansPolite(K, e, s, x.w, y.w);
    case OutsideAct(a) =>
      if IsHostAction(a) {
        assert y.w.trace[|x.w.trace|] == HostEvent(false, a);
      }
  }

  lemma ProperPrefix(K: iset<Key>, e: Engine, a: World, b: World)
    requires Explained(a, b) && AllProper(K, e, b.trace)
    ensures AllProper(K, e, a.trace)
  {
    forall i | 0 <= i < |a.trace| ensures Proper(K, e, a.trace[i]) {
      assert b.trace[i] == a.trace[i];
    }
  }

  /** If all that happened was proper, then all that surrounded the pool's acts was polite. */
  lemma {:induction false} ProperRunIsPolite(K: iset<Key>, e: Engine, x: Trace, acts: seq<Act>)
    requires ExactRun(e, x, acts) && AllProper(K, e, PerformAll(e, x, acts).w.trace)
    requires forall i :: 0 <= i < |acts| ==> Lawful(K, e, acts[i])
    ensures forall i :: 0 <= i < |acts| ==> PoliteAct(K, e, acts[i])
    decreases |acts|
  {
    if acts != [] {
      var y := Perform(e, x, acts[0]);
      assert Lawful(K, e, acts[0]);
      RunIsExplained(e, y, acts[1..]);
      ProperPrefix(K, e, y.w, PerformAll(e, y, acts[1..]).w);
      ProperActIsPolite(K, e, x, acts[0]);
      assert forall i :: 0 <= i < |acts[1..]| ==> acts[1..][i] == acts[i + 1];
      ProperRunIsPolite(K, e, y, acts[1..]);
      forall i | 0 <= i < |acts| ensures PoliteAct(K, e, acts[i]) {
        assert i > 0 ==> acts[i] == acts[1..][i - 1];
      }
    }
  }

  // ---------- many pools at once ----------

  /** A pool, its keys, the clusters it starts in, and its passes and cleanups with what surrounds each of their calls. */
  datatype Site = Site(e: Engine, keys: iset<Key>, start: World, acts: seq<Act>)

  /** What happened to the host, and which pool did it; outsiders have no name. */
  datatype Entry = Entry(who: Option<string>, a: EnvAction)

  ghost function Finish(site: Site): Trace {
    PerformAll(site.e, Trace(site.start, []), site.acts)
  }

  /** Pool `p` lived through exactly this history: its own writes are its entries, all others happened around its calls. */
  ghost predicate LivedThrough(p: string, t: seq<HostEvent>, history: seq<Entry>) {
    |t| == |history| && forall i :: 0 <= i < |t| ==> t[i] == HostEvent(history[i].who == Some(p), history[i].a)
  }

  ghost predicate SiteOk(p: string, site: Site, history: seq<Entry>) {
    && site.e.pool.ns != "" && site.start.trace == [] && AtHome(site.keys, site.e, site.start)
    && (forall i :: 0 <= i < |site.acts| ==> Lawful(site.keys, site.e, site.acts[i]))
    && ExactRun(site.e, Trace(site.start, []), site.acts)
    && LivedThrough(p, Finish(site).w.trace, history)
  }

  /** Different pools, different keys. */
  ghost predicate Apart(a: Site, b: Site) {
    && (forall k :: !(k in a.keys && k in b.keys))
    && (a.e.pool.name != b.e.pool.name || a.e.pool.ns != b.e.pool.ns)
  }

  /**
   * The pools' passes and cleanups overlap on one host in the given order of single writes: every pool's run
   * is a run among the writes of the others. Only outsiders are asked to be polite.
   */
  ghost predicate Concurrent(sites: map<string, Site>, history: seq<Entry>) {
    && (forall p :: p in sites ==> SiteOk(p, sites[p], history))
    && (forall p, q :: p in sites && q in sites && p != q ==> Apart(sites[p], sites[q]))
    && (forall p, i :: p in sites && 0 <= i < |history| && Outsider(sites, history[i]) ==>
          Polite(sites[p].keys, sites[p].e, history[i].a))
  }

  ghost predicate Outsider(sites: map<string, Site>, entry: Entry) {
    entry.who.None? || entry.who.value !in sites
  }

  ghost predicate ProperEntry(sites: map<string, Site>, entry: Entry) {
    !Outsider(sites, entry) ==> AtOwnKeys(sites[entry.who.value].keys, sites[entry.who.value].e, entry.a)
  }

  /** A pool's write at its own keys is a foreign and polite step for every other pool. */
  lemma OwnKeysArePolite(a: Site, b: Site, action: EnvAction)
    requires Apart(a, b) && AtOwnKeys(b.keys, b.e, action)
    ensures Foreign(a.keys, action) && Polite(a.keys, a.e, action)
  {
  }

  /** The first improper write of the history would have had no cause. */
  lemma {:induction false} HistoryIsProper(sites: map<string, Site>, history: seq<Entry>, n: nat)
    requires Concurrent(sites, history) && n <= |history|
    ensures forall i :: 0 <= i < n ==> ProperEntry(sites, history[i])
    decreases n
  {
    if n > 0 {
      HistoryIsProper(sites, history, n - 1);
      var entry := history[n - 1];
      if !Outsider(sites, entry) {
        var p := entry.who.value;
        WriteIsProper(sites, history, n - 1, p);
      }
    }
  }

  lemma WriteIsProper(sites: map<string, Site>, history: seq<Entry>, n: nat, p: string)
    requires Concurrent(sites, history) && n < |history| && p in sites && history[n].who == Some(p)
    requires forall i :: 0 <= i < n ==> ProperEntry(sites, history[i])
    ensures AtOwnKeys(sites[p].keys, sites[p].e, history[n].a)
  {
    var site := sites[p];
    var t := Finish(site).w.trace;
    assert SiteOk(p, site, history);
    RunStaysInnocent(site.keys, site.e, Trace(site.start, []), site.acts);
    assert t[n] == HostEvent(true, history[n].a);
    forall j | 0 <= j < n && !t[j].own ensures Proper(site.keys, site.e, t[j]) {
      EarlierIsPolite(sites, history, n, j, p);
    }
    assert !OthersFault(site.keys, site.e, t, n);
  }

  lemma EarlierIsPolite(sites: map<string, Site>, history: seq<Entry>, n: nat, j: nat, p: string)
    requires Concurrent(sites, history) && j < n <= |history| && p in sites && history[j].who != Some(p)
    requires forall i :: 0 <= i < n ==> ProperEntry(sites, history[i])
    ensures Polite(sites[p].keys, sites[p].e, history[j].a)
  {
    if !Outsider(sites, history[j]) {
      var q := history[j].who.value;
      assert ProperEntry(sites, history[j]);
      OwnKeysArePolite(sites[p], sites[q], history[j].a);
    }
  }

  lemma RunIsProper(sites: map<string, Site>, history: seq<Entry>, p: string)
    requires Concurrent(sites, history) && p in sites
    ensures AllProper(sites[p].keys, sites[p].e, Finish(sites[p]).w.trace)
  {
    var site := sites[p];
    var t := Finish(site).w.trace;
    assert SiteOk(p, site, history);
    HistoryIsProper(sites, history, |history|);
    forall i | 0 <= i < |t| ensures Proper(site.keys, site.e, t[i]) {
      assert t[i] == HostEvent(history[i].who == Some(p), history[i].a);
      assert ProperEntry(sites, history[i]);
      if history[i].who != Some(p) {
        EarlierIsPolite(sites, history, |history|, i, p);
      }
    }
  }

  /**
   * Non-interference. However the single calls of any number of pools' passes and cleanups interleave on one
   * host, every pool's host pods, its tenant and every report of its passes are what they are
   * when the pool runs alone, with none of the others' writes.
   */
  lemma PoolsRunAsIfAlone(sites: map<string, Site>, history: seq<Entry>, p: string)
    requires Concurrent(sites, history) && p in sites
    ensures var site := sites[p];
      var x, y := Finish(site), PerformAll(site.e, Trace(site.start, []), Alone(site.keys, site.acts));
      Agree(site.keys, x.w, y.w) && x.reports == y.reports
  {
    var site := sites[p];
    assert SiteOk(p, site, history);
    RunIsProper(sites, history, p);
    ProperRunIsPolite(site.keys, site.e, Trace(site.start, []), site.acts);
    PoolsDoNotInterfere(site.keys, site.e, site.start, site.acts);
  }

  /** And every write of every pool was at that pool's own keys. */
  lemma PoolsKeepToTheirKeys(sites: map<string, Site>, history: seq<Entry>, i: nat, p: string)
    requires Concurrent(sites, history) && i < |history| && p in sites && history[i].who == Some(p)
    ensures AtOwnKeys(sites[p].keys, sites[p].e, history[i].a)
  {
    HistoryIsProper(sites, history, |history|);
    assert ProperEntry(sites, history[i]);
  }

  function Events(history: seq<Entry>): seq<HostEvent> {
    Map((entry: Entry) => HostEvent(false, entry.a), history)
  }

  lemma {:induction false} ReplayIgnoresOwners(st: Stores, x: seq<HostEvent>, y: seq<HostEvent>)
    requires |x| == |y| && forall i :: 0 <= i < |x| ==> x[i].a == y[i].a
    ensures Replay(st, x) == Replay(st, y)
    decreases |x|
  {
    if x != [] {
      ReplayIgnoresOwners(st, x[..|x| - 1], y[..|y| - 1]);
    }
  }

  /** It is one host: pools that start on the same host end on the same host, the replay of the history. */
  lemma PoolsShareOneHost(sites: map<string, Site>, history: seq<Entry>, p: string, host: Stores)
    requires Concurrent(sites, history) && p in sites && SameHost(sites[p].start.st, host)
    ensures SameHost(Finish(sites[p]).w.st, Replay(host, Events(history)))
  {
    var site := sites[p];
    var w := Finish(site).w;
    assert SiteOk(p, site, history);
    RunIsExplained(site.e, Trace(site.start, []), site.acts);
    assert Between(site.start, w) == w.trace;
    ReplayIgnoresOwners(site.start.st, w.trace, Events(history));
    ReplayOnSameHost(site.start.st, host, w.trace);
    ReplayIgnoresOwners(host, w.trace, Events(history));
  }
}
