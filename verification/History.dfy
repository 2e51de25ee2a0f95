/**
 * What happens to the host during a pass, event by event: the host's pods and objects are the replay of the
 * events, and the counters are what the pass's own events add up to, whoever else acts meanwhile.
 */
module History {
  import opened Lists
  import opened PodModel
  import opened NodeModel
  import opened CorePods
  import opened Translation
  import opened Drift
  import opened Clusters
  import opened Execution
  import opened PassEffect
  import opened Walks

  // ---------- replay ----------

  function Replay(st: Stores, evs: seq<HostEvent>): Stores {
    if evs == [] then st else EnvStep(Replay(st, evs[..|evs| - 1]), evs[|evs| - 1].a)
  }

  ghost predicate SameHost(a: Stores, b: Stores) {
    a.hostPods == b.hostPods && a.hostMaps == b.hostMaps && a.hostSecrets == b.hostSecrets
  }

  ghost predicate HostOnly(evs: seq<HostEvent>) {
    forall i :: 0 <= i < |evs| ==> IsHostAction(evs[i].a)
  }

  lemma HostStepOnSameHost(a: Stores, b: Stores, action: EnvAction)
    requires SameHost(a, b) && IsHostAction(action)
    ensures SameHost(EnvStep(a, action), EnvStep(b, action))
  {
    if action.HostWritten? {
      WriteOnly(a, action);
      WriteOnly(b, action);
      WriteOnSameHost(a, b, action.kind, action.key, action.resource);
    } else {
      PodStepOnly(a, action);
      PodStepOnly(b, action);
    }
  }

  lemma PodStepOnly(st: Stores, a: EnvAction)
    requires IsHostAction(a) && !a.HostWritten?
    ensures EnvStep(st, a) == st.(hostPods := PodStep(st.hostPods, a))
  {
  }

  lemma WriteOnly(st: Stores, a: EnvAction)
    requires a.HostWritten?
    ensures EnvStep(st, a) == PutResource(st, a.kind, a.key, a.resource) && EnvStep(st, a).hostPods == st.hostPods
  {
  }

  lemma WriteOnSameHost(a: Stores, b: Stores, kind: VolumeType, k: Key, r: HostResource)
    requires SameHost(a, b)
    ensures SameHost(PutResource(a, kind, k, r), PutResource(b, kind, k, r))
  {
  }

  lemma TenantStepKeepsHost(st: Stores, action: EnvAction)
    requires !IsHostAction(action)
    ensures SameHost(EnvStep(st, action), st)
  {
  }

  lemma {:induction false} ReplayOnSameHost(a: Stores, b: Stores, evs: seq<HostEvent>)
    requires SameHost(a, b) && HostOnly(evs)
    ensures SameHost(Replay(a, evs), Replay(b, evs))
    decreases |evs|
  {
    if evs != [] {
      var n := |evs| - 1;
      ReplayOnSameHost(a, b, evs[..n]);
      HostStepOnSameHost(Replay(a, evs[..n]), Replay(b, evs[..n]), evs[n].a);
    }
  }

  lemma {:induction false} ReplayConcat(st: Stores, x: seq<HostEvent>, y: seq<HostEvent>)
    ensures Replay(st, x + y) == Replay(Replay(st, x), y)
    decreases |y|
  {
    if y == [] {
      assert x + y == x;
    } else {
      var n := |y| - 1;
      assert (x + y)[..|x| + n] == x + y[..n];
      ReplayConcat(st, x, y[..n]);
    }
  }

  /** Every own creation in the events is at a key that is absent at that moment. */
  ghost predicate OwnFresh(st: Stores, evs: seq<HostEvent>) {
    forall i :: 0 <= i < |evs| && evs[i].own && evs[i].a.HostCreated? ==> evs[i].a.key !in Replay(st, evs[..i]).hostPods
  }

  lemma OwnFreshConcat(a: Stores, b: Stores, x: seq<HostEvent>, y: seq<HostEvent>)
    requires HostOnly(y) && SameHost(Replay(a, x), b) && OwnFresh(a, x) && OwnFresh(b, y)
    ensures OwnFresh(a, x + y)
  {
    forall i | 0 <= i < |x + y| && (x + y)[i].own && (x + y)[i].a.HostCreated?
      ensures (x + y)[i].a.key !in Replay(a, (x + y)[..i]).hostPods
    {
      if i < |x| {
        assert (x + y)[..i] == x[..i];
      } else {
        assert (x + y)[..i] == x + y[..i - |x|];
        ReplayConcat(a, x, y[..i - |x|]);
        ReplayOnSameHost(Replay(a, x), b, y[..i - |x|]);
      }
    }
  }

  /** What happened between two worlds. */
  function Between(a: World, b: World): seq<HostEvent> {
    if |a.trace| <= |b.trace| then b.trace[|a.trace|..] else []
  }

  /** The events between the worlds explain the host, and the pool created only where nothing was. */
  ghost predicate Explained(a: World, b: World) {
    && a.trace + Between(a, b) == b.trace && HostOnly(Between(a, b)) && OwnFresh(a.st, Between(a, b))
    && SameHost(Replay(a.st, Between(a, b)), b.st)
  }

  lemma ExplainedTrans(a: World, b: World, c: World)
    requires Explained(a, b) && Explained(b, c)
    ensures Explained(a, c)
  {
    var x, y := Between(a, b), Between(b, c);
    assert c.trace == a.trace + (x + y);
    assert Between(a, c) == x + y;
    ReplayConcat(a.st, x, y);
    ReplayOnSameHost(Replay(a.st, x), b.st, y);
    OwnFreshConcat(a.st, b.st, x, y);
  }

  lemma NothingExplained(a: World, b: World)
    requires a.trace == b.trace && SameHost(a.st, b.st)
    ensures Explained(a, b)
  {
    assert Between(a, b) == [];
  }

  /** One event, and the host follows. */
  lemma EventExplained(a: World, b: World, ev: HostEvent)
    requires b.trace == a.trace + [ev] && IsHostAction(ev.a) && SameHost(EnvStep(a.st, ev.a), b.st)
    requires ev.own && ev.a.HostCreated? ==> ev.a.key !in a.st.hostPods
    ensures Explained(a, b)
  {
    assert Between(a, b) == [ev];
    assert Replay(a.st, [ev]) == EnvStep(Replay(a.st, []), ev.a);
    assert [ev][..0] == [];
  }

  ghost function Explains(): Relation {
    (a: World, b: World) => Explained(a, b)
  }

  lemma ExplainsIsPreorder()
    ensures Preorder(Explains()) && IgnoresReads(Explains()) && IgnoresCalls(Explains()) && PutLaw(Explains())
  {
    forall a: World, b: World | a.trace == b.trace && SameHost(a.st, b.st) ensures Explains()(a, b) {
      NothingExplained(a, b);
    }
    forall a, b, c | Explains()(a, b) && Explains()(b, c) ensures Explains()(a, c) {
      ExplainedTrans(a, b, c);
    }
    forall w: World, kind: VolumeType, k: Key, copy: HostResource ensures Explains()(w, Put(w, kind, k, copy)) {
      EventExplained(w, Put(w, kind, k, copy), HostEvent(true, HostWritten(kind, k, copy)));
    }
  }

  lemma StepExplained(w: World, a: EnvAction)
    ensures Explained(w, Acted(w, a))
  {
    if IsHostAction(a) {
      EventExplained(w, Acted(w, a), HostEvent(false, a));
    } else {
      TenantStepKeepsHost(w.st, a);
      assert Acted(w, a).trace == w.trace;
      NothingExplained(w, Acted(w, a));
    }
  }

  lemma ExplainsBackground(s: Script)
    ensures Background(Explains(), s)
  {
    ExplainsIsPreorder();
    forall w: World ensures Explains()(w, Tick(w, s)) {
      forall i, v: World | 0 <= i < |s.env(w.calls)| ensures Explains()(v, Acted(v, s.env(w.calls)[i])) {
        StepExplained(v, s.env(w.calls)[i]);
      }
      TickWalk(Explains(), w, s);
    }
  }

  lemma ExplainsCalls()
    ensures CallLaws(Explains())
  {
    forall w: World, spec: PodSpec | Key(spec.ns, spec.name) !in w.st.hostPods ensures Explains()(w, Create(w, spec)) {
      var pod := Stored(spec);
      EventExplained(w, Create(w, spec), HostEvent(true, HostCreated(KeyOf(pod), pod)));
    }
    forall w: World, k ensures Explains()(w, Marked(w, k)) {
      EventExplained(w, Marked(w, k), HostEvent(true, HostEvicted(k)));
    }
    forall k, tk, a: World, b: World | k in a.st.hostPods && tk in b.st.tenantPods && Explains()(a, b)
      ensures Explains()(a, WrittenBack(a, b, k, tk))
    {
      NothingExplained(b, WrittenBack(a, b, k, tk));
      ExplainedTrans(a, b, WrittenBack(a, b, k, tk));
    }
  }

  /** Every pass and every cleanup, whatever happens around it: the host is the replay of the events. */
  lemma PassIsExplained(w: World, s: Script, e: Engine, nodes: seq<VNode>)
    ensures Explained(w, Pass(w, s, e, nodes).p.w) && Explained(w, Cleanup(w, s, e).p.w)
  {
    ExplainsBackground(s);
    ExplainsCalls();
    PassByLaws(Explains(), w, s, e, nodes);
  }

  // ---------- the ledger of a replay ----------

  ghost function LiveKeys(pods: map<Key, CorePod>): set<Key> {
    set k | k in pods && !pods[k].deleting
  }

  predicate IsOwnCreation(ev: HostEvent) {
    ev.own && ev.a.HostCreated?
  }

  predicate IsOwnDeletion(ev: HostEvent) {
    ev.own && ev.a.HostEvicted?
  }

  predicate IsOthersDeletion(ev: HostEvent) {
    !ev.own && ev.a.HostEvicted?
  }

  function OwnCreations(evs: seq<HostEvent>): nat {
    |Filter(IsOwnCreation, evs)|
  }

  function OwnDeletions(evs: seq<HostEvent>): nat {
    |Filter(IsOwnDeletion, evs)|
  }

  function OthersDeletions(evs: seq<HostEvent>): nat {
    |Filter(IsOthersDeletion, evs)|
  }

  /** Creations by others that found the key absent. */
  function OthersAdded(st: Stores, evs: seq<HostEvent>): nat {
    if evs == [] then 0
    else
      var n := |evs| - 1;
      OthersAdded(st, evs[..n]) +
      (if !evs[n].own && evs[n].a.HostCreated? && evs[n].a.key !in Replay(st, evs[..n]).hostPods then 1 else 0)
  }

  predicate CanBeRemoved(st: Stores, k: Key) {
    k in st.hostPods && st.hostPods[k].deleting
  }

  /** Removals that found a pod being deleted. */
  function Gone(st: Stores, evs: seq<HostEvent>): nat {
    if evs == [] then 0
    else
      var n := |evs| - 1;
      Gone(st, evs[..n]) + (if evs[n].a.HostRemoved? && CanBeRemoved(Replay(st, evs[..n]), evs[n].a.key) then 1 else 0)
  }

  /** How one event changes the number of pods. */
  lemma KeysAfterEvent(st: Stores, a: EnvAction)
    requires IsHostAction(a)
    ensures |EnvStep(st, a).hostPods.Keys| + (if a.HostRemoved? && CanBeRemoved(st, a.key) then 1 else 0)
         == |st.hostPods.Keys| + (if a.HostCreated? && a.key !in st.hostPods then 1 else 0)
  {
    if a.HostWritten? {
      WriteOnly(st, a);
    } else {
      PodStepOnly(st, a);
      PodsAfterStep(st.hostPods, a);
      var keys := st.hostPods.Keys;
      if a.HostCreated? {
        assert a.key in keys ==> keys + {a.key} == keys;
      }
    }
  }

  lemma PodsAfterStep(pods: map<Key, CorePod>, a: EnvAction)
    requires IsHostAction(a)
    ensures PodStep(pods, a).Keys ==
      if a.HostCreated? then pods.Keys + {a.key}
      else if a.HostRemoved? && a.key in pods && pods[a.key].deleting then pods.Keys - {a.key}
      else pods.Keys
  {
  }

  lemma {:induction false} KeysLedger(st: Stores, evs: seq<HostEvent>)
    requires HostOnly(evs) && OwnFresh(st, evs)
    ensures |Replay(st, evs).hostPods.Keys| + Gone(st, evs) == |st.hostPods.Keys| + OwnCreations(evs) + OthersAdded(st, evs)
    decreases |evs|
  {
    if evs != [] {
      var n := |evs| - 1;
      OwnFreshPrefix(st, evs, n);
      KeysLedger(st, evs[..n]);
      KeysAfterEvent(Replay(st, evs[..n]), evs[n].a);
    }
  }

  lemma OwnFreshPrefix(st: Stores, evs: seq<HostEvent>, n: nat)
    requires n < |evs| && OwnFresh(st, evs)
    ensures OwnFresh(st, evs[..n]) && (IsOwnCreation(evs[n]) ==> evs[n].a.key !in Replay(st, evs[..n]).hostPods)
  {
    forall i | 0 <= i < n && evs[..n][i].own && evs[..n][i].a.HostCreated?
      ensures evs[..n][i].a.key !in Replay(st, evs[..n][..i]).hostPods
    {
      assert evs[..n][..i] == evs[..i] && evs[..n][i] == evs[i];
    }
  }

  /** Only a deletion request takes the life of a pod, and of one pod only. */
  lemma LiveAfterEvent(st: Stores, a: EnvAction)
    requires IsHostAction(a)
    ensures var x, y := LiveKeys(st.hostPods), LiveKeys(EnvStep(st, a).hostPods);
      forall k :: k in x && k !in y ==> a.HostEvicted? && k == a.key
  {
  }

  lemma {:induction false} LiveLedger(st: Stores, evs: seq<HostEvent>)
    requires HostOnly(evs)
    ensures |LiveKeys(st.hostPods) - LiveKeys(Replay(st, evs).hostPods)| <= OwnDeletions(evs) + OthersDeletions(evs)
    decreases |evs|
  {
    var live := LiveKeys(st.hostPods);
    if evs == [] {
      assert live - LiveKeys(Replay(st, evs).hostPods) == {};
    } else {
      var n := |evs| - 1;
      LiveLedger(st, evs[..n]);
      LiveAfterEvent(Replay(st, evs[..n]), evs[n].a);
      var before, after := live - LiveKeys(Replay(st, evs[..n]).hostPods), live - LiveKeys(Replay(st, evs).hostPods);
      if evs[n].a.HostEvicted? {
        SubsetIsSmaller(after, before + {evs[n].a.key});
      } else {
        SubsetIsSmaller(after, before);
      }
    }
  }

  // ---------- the counters ----------

  /** Nothing that a counter counts has happened. */
  ghost predicate SameCounts(a: World, b: World) {
    a.log == b.log && OwnCreations(a.trace) == OwnCreations(b.trace) && OwnDeletions(a.trace) == OwnDeletions(b.trace)
  }

  ghost predicate Tally(a: World, ca: Counters, b: World, cb: Counters) {
    && |b.log| == |a.log| + cb.created - ca.created
    && OwnCreations(b.trace) == OwnCreations(a.trace) + cb.created - ca.created
    && OwnDeletions(b.trace) == OwnDeletions(a.trace) + cb.deleted - ca.deleted
  }

  lemma TallyTrans(a: World, ca: Counters, b: World, cb: Counters, c: World, cc: Counters)
    requires Tally(a, ca, b, cb) && Tally(b, cb, c, cc)
    ensures Tally(a, ca, c, cc)
  {
  }

  lemma TallySame(a: World, b: World, c: Counters, d: Counters)
    requires SameCounts(a, b) && c.created == d.created && c.deleted == d.deleted
    ensures Tally(a, c, b, d)
  {
  }

  lemma CountsAfterEvent(trace: seq<HostEvent>, ev: HostEvent)
    ensures OwnCreations(trace + [ev]) == OwnCreations(trace) + (if IsOwnCreation(ev) then 1 else 0)
    ensures OwnDeletions(trace + [ev]) == OwnDeletions(trace) + (if IsOwnDeletion(ev) then 1 else 0)
  {
    assert (trace + [ev])[..|trace|] == trace;
  }

  lemma TallyCreate(w: World, spec: PodSpec, c: Counters)
    ensures Tally(w, c, Create(w, spec), c.(created := c.created + 1))
  {
    CountsAfterEvent(w.trace, HostEvent(true, HostCreated(KeyOf(Stored(spec)), Stored(spec))));
  }

  lemma TallyDelete(w: World, k: Key, c: Counters)
    ensures Tally(w, c, Marked(w, k), c.(deleted := c.deleted + 1))
  {
    CountsAfterEvent(w.trace, HostEvent(true, HostEvicted(k)));
  }

  ghost function CountsStay(): Relation {
    (a: World, b: World) => SameCounts(a, b)
  }

  lemma CountsBackground(s: Script)
    ensures Background(CountsStay(), s)
  {
    forall w: World, kind: VolumeType, k: Key, copy: HostResource ensures CountsStay()(w, Put(w, kind, k, copy)) {
      CountsAfterEvent(w.trace, HostEvent(true, HostWritten(kind, k, copy)));
    }
    forall w: World, a: EnvAction ensures CountsStay()(w, Acted(w, a)) {
      CountsAfterEvent(w.trace, HostEvent(false, a));
      assert w.trace + [] == w.trace;
    }
    forall w: World ensures CountsStay()(w, Tick(w, s)) {
      TickWalk(CountsStay(), w, s);
    }
  }

  lemma TickCountsNothing(w: World, s: Script)
    ensures SameCounts(w, Tick(w, s))
  {
    CountsBackground(s);
    assert CountsStay()(w, Tick(w, s));
  }

  lemma CopyCountsNothing(w: World, s: Script, e: Engine, refs: seq<ResourceRef>)
    ensures SameCounts(w, SyncResources(w, s, e, refs).0)
  {
    CountsBackground(s);
    SyncResourcesWalk(CountsStay(), w, s, e, refs);
  }

  lemma MirrorCountsNothing(w: World, s: Script, k: Key, tk: Key)
    ensures SameCounts(w, MirrorStatus(w, s, k, tk).w)
  {
    CountsBackground(s);
    MirrorWalk(CountsStay(), w, s, k, tk);
  }

  lemma ReapTally(p: Progress, s: Script, k: Key)
    ensures Tally(p.w, p.c, Reap(p, s, k).p.w, Reap(p, s, k).p.c)
  {
    var w1 := Tick(p.w, s);
    TickCountsNothing(p.w, s);
    TallySame(p.w, w1, p.c, p.c);
    TallyDelete(w1, k, p.c);
    TallyTrans(p.w, p.c, w1, p.c, Marked(w1, k), p.c.(deleted := p.c.deleted + 1));
  }

  lemma MirrorAndReapTally(p: Progress, s: Script, e: Engine, src: CorePod)
    ensures var f := MirrorAndReap(p, s, e, src); Tally(p.w, p.c, f.p.w, f.p.c)
  {
    var m := MirrorStatus(p.w, s, HostKey(e, src), KeyOf(src));
    MirrorCountsNothing(p.w, s, HostKey(e, src), KeyOf(src));
    var q := p.(w := m.w, c := if m.synced then p.c.(synced := p.c.synced + 1) else p.c);
    TallySame(p.w, m.w, p.c, q.c);
    TallySame(p.w, m.w, p.c, p.c);
    if m.failure.None? && IsTerminal(src) {
      ReapTally(q, s, HostKey(e, src));
      var f := Reap(q, s, HostKey(e, src));
      TallyTrans(p.w, p.c, q.w, q.c, f.p.w, f.p.c);
    }
  }

  /** The three things ensuring a pod can do to the host. */
  lemma EnsureCases(w: World, s: Script, spec: PodSpec) returns (v: World)
    ensures SameCounts(w, v)
    ensures var r := EnsureHostPod(w, s, spec); var k := Key(spec.ns, spec.name);
      || (r.w == v && (r.verdict.ApiError? || (!r.created && !r.deleted)))
      || (r.created && !r.deleted && !r.verdict.ApiError? && k !in v.st.hostPods && r.w == Create(v, spec))
      || (!r.created && r.deleted && !r.verdict.ApiError? && r.w == Marked(v, k))
  {
    var k := Key(spec.ns, spec.name);
    var w1 := Tick(w, s);
    var w2 := Tick(w1, s);
    v := if Fails(w, s).Some? then w1
         else if k !in w1.st.hostPods then w2
         else if w1.st.hostPods[k].deleting || PodSpecsEqual(FromCore(w1.st.hostPods[k]), spec) then w1 else w2;
    TickCountsNothing(w, s);
    TickCountsNothing(w1, s);
  }

  lemma EnsureTally(w: World, s: Script, spec: PodSpec, c: Counters)
    ensures var r := EnsureHostPod(w, s, spec);
      Tally(w, c, r.w, if r.verdict.ApiError? then c else Counted(c, r.created, r.deleted))
  {
    var r := EnsureHostPod(w, s, spec);
    var v := EnsureCases(w, s, spec);
    TallySame(w, v, c, c);
    if !r.verdict.ApiError? {
      if r.created {
        TallyCreate(v, spec, c);
        TallyTrans(w, c, v, c, r.w, c.(created := c.created + 1));
      } else if r.deleted {
        TallyDelete(v, Key(spec.ns, spec.name), c);
        TallyTrans(w, c, v, c, r.w, c.(deleted := c.deleted + 1));
      }
    }
  }

  lemma EnsureAndMirrorTally(p: Progress, s: Script, e: Engine, src: CorePod)
    ensures var f := EnsureAndMirror(p, s, e, src); Tally(p.w, p.c, f.p.w, f.p.c)
  {
    EnsureTally(p.w, s, Wanted(e, src), p.c);
    WaitingCreatesNothing(p.w, s, Wanted(e, src));
    var r := EnsureHostPod(p.w, s, Wanted(e, src));
    if r.verdict.Fine? {
      var q := p.(w := r.w, c := Counted(p.c, r.created, r.deleted));
      MirrorAndReapTally(q, s, e, src);
      var f := MirrorAndReap(q, s, e, src);
      TallyTrans(p.w, p.c, q.w, q.c, f.p.w, f.p.c);
    }
  }

  lemma WaitingCreatesNothing(w: World, s: Script, spec: PodSpec)
    ensures EnsureHostPod(w, s, spec).verdict.PodTerminating? ==> !EnsureHostPod(w, s, spec).created
  {
  }

  lemma SyncPodTally(p: Progress, s: Script, e: Engine, src: CorePod)
    ensures var f := SyncPod(p, s, e, src); Tally(p.w, p.c, f.p.w, f.p.c)
  {
    var (w1, failure) := SyncResources(Fresh(p.w), s, e, RefsOf(src));
    CopyCountsNothing(Fresh(p.w), s, e, RefsOf(src));
    TallySame(p.w, w1, p.c, p.c);
    if failure.None? {
      var q := p.(w := w1, desired := p.desired + {KeyForPod(HostKey(e, src))});
      if IsTerminal(src) {
        MirrorAndReapTally(q, s, e, src);
      } else {
        EnsureAndMirrorTally(q, s, e, src);
      }
      var f := SyncPod(p, s, e, src);
      TallyTrans(p.w, p.c, w1, p.c, f.p.w, f.p.c);
    }
  }

  lemma {:induction false} SyncPodsTally(p: Progress, s: Script, e: Engine, srcs: seq<CorePod>)
    ensures var f := SyncPods(p, s, e, srcs); Tally(p.w, p.c, f.p.w, f.p.c)
    decreases |srcs|
  {
    if srcs == [] {
      TallySame(p.w, p.w, p.c, p.c);
    } else {
      SyncPodTally(p, s, e, srcs[0]);
      var g := SyncPod(p, s, e, srcs[0]);
      if g.Next? {
        SyncPodsTally(g.p, s, e, srcs[1..]);
        var f := SyncPods(g.p, s, e, srcs[1..]);
        TallyTrans(p.w, p.c, g.p.w, g.p.c, f.p.w, f.p.c);
      }
    }
  }

  lemma {:induction false} SweepTally(p: Progress, s: Script, keys: seq<Key>)
    ensures var f := Sweep(p, s, keys); Tally(p.w, p.c, f.p.w, f.p.c)
    decreases |keys|
  {
    if keys == [] {
      TallySame(p.w, p.w, p.c, p.c);
    } else if KeyForPod(keys[0]) in p.desired {
      SweepTally(p, s, keys[1..]);
    } else {
      ReapTally(p, s, keys[0]);
      var g := Reap(p, s, keys[0]);
      if g.Next? {
        SweepTally(g.p, s, keys[1..]);
        var f := Sweep(g.p, s, keys[1..]);
        TallyTrans(p.w, p.c, g.p.w, g.p.c, f.p.w, f.p.c);
      }
    }
  }

  lemma SyncAndSweepTally(w: World, s: Script, e: Engine, srcs: seq<CorePod>)
    ensures var f := SyncAndSweep(w, s, e, srcs); Tally(w, NoCounts, f.p.w, f.p.c)
  {
    var p := Progress(w, {}, NoCounts.(sourcePods := |srcs|));
    SyncPodsTally(p, s, e, srcs);
    var g := SyncPods(p, s, e, srcs);
    assert Tally(w, NoCounts, g.p.w, g.p.c);
    if g.Next? {
      var w1 := Tick(g.p.w, s);
      TickCountsNothing(g.p.w, s);
      TallySame(g.p.w, w1, g.p.c, g.p.c);
      TallyTrans(w, NoCounts, g.p.w, g.p.c, w1, g.p.c);
      if Fails(g.p.w, s).None? {
        var keys := s.hostOrder(Labelled(w1.st, e.pool.ns, e.pool.name));
        SweepTally(g.p.(w := w1), s, keys);
        var f := Sweep(g.p.(w := w1), s, keys);
        TallyTrans(w, NoCounts, w1, g.p.c, f.p.w, f.p.c);
      }
    }
  }

  lemma PassTally(w: World, s: Script, e: Engine, nodes: seq<VNode>)
    ensures var f := Pass(w, s, e, nodes); Tally(w, NoCounts, f.p.w, f.p.c)
  {
    var w1 := Tick(w, s);
    var w2 := Tick(w1, s);
    var w3 := Tick(w2, s);
    TickCountsNothing(w, s);
    TickCountsNothing(w1, s);
    TickCountsNothing(w2, s);
    TallySame(w, w1, NoCounts, NoCounts);
    TallySame(w, w2, NoCounts, NoCounts);
    TallySame(w, w3, NoCounts, NoCounts);
    var srcs := Sources(w3.st, s, ReadyNames(nodes));
    SyncAndSweepTally(w2, s, e, []);
    SyncAndSweepTally(w3, s, e, srcs);
    var f2, f3 := SyncAndSweep(w2, s, e, []), SyncAndSweep(w3, s, e, srcs);
    TallyTrans(w, NoCounts, w2, NoCounts, f2.p.w, f2.p.c);
    TallyTrans(w, NoCounts, w3, NoCounts, f3.p.w, f3.p.c);
  }

  /**
   * However a pass ends and whoever else acts meanwhile: the host is the replay of what happened; `created` and
   * `deleted` are exactly the creations and the deletion requests the pass made, each creation at a key
   * that was absent; the number of host pods changes by `created`, by what others added and by completed deletions;
   * and no more pods stop being live than deletions were requested.
   */
  lemma PassConservation(w: World, s: Script, e: Engine, nodes: seq<VNode>)
    ensures var f := Pass(w, s, e, nodes); var evs := Between(w, f.p.w);
      && Explained(w, f.p.w)
      && f.p.c.created == OwnCreations(evs) == |f.p.w.log| - |w.log| && f.p.c.deleted == OwnDeletions(evs)
      && |f.p.w.st.hostPods.Keys| + Gone(w.st, evs) == |w.st.hostPods.Keys| + f.p.c.created + OthersAdded(w.st, evs)
      && |LiveKeys(w.st.hostPods) - LiveKeys(f.p.w.st.hostPods)| <= f.p.c.deleted + OthersDeletions(evs)
  {
    var f := Pass(w, s, e, nodes);
    var evs := Between(w, f.p.w);
    PassIsExplained(w, s, e, nodes);
    PassTally(w, s, e, nodes);
    FilterConcat(IsOwnCreation, w.trace, evs);
    FilterConcat(IsOwnDeletion, w.trace, evs);
    KeysLedger(w.st, evs);
    LiveLedger(w.st, evs);
  }
}
