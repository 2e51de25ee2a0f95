/** A tenant pod re-created under a name whose host pod is still there takes over that pod's status. */
module NameReuse {
  import opened Lists
  import opened PodModel
  import opened CorePods
  import opened Translation
  import opened Drift
  import opened Clusters
  import opened Execution
  import opened PassEffect
  import opened Convergence
  import opened Walks

  lemma {:induction false} CopySucceeds(w: World, s: Script, e: Engine, refs: seq<ResourceRef>)
    requires s.fault.None?
    ensures SyncResources(w, s, e, refs).1.None?
    decreases |refs|
  {
    if refs != [] {
      var r := refs[0];
      var (w1, reply) := GetTenantResource(w, s, r.kind, Key(r.sourceNs, r.sourceName));
      match reply
      case Err(_) =>
      case NotFound => CopySucceeds(w1, s, e, refs[1..]);
      case Got(payload) =>
        var (w2, failure) :=
          EnsureResource(w1, s, r.kind, Key(e.pool.ns, r.targetName), HostResource(payload, ResourceLabels(e)));
        CopySucceeds(w2, s, e, refs[1..]);
    }
  }

  /** The source as the tenant has it, with or without a status that has just been written. */
  function TenantPhase(w: World, tk: Key): PodPhase
    requires tk in w.st.tenantPods
  {
    w.st.tenantPods[tk].status.phase
  }

  lemma MirrorWrites(w: World, s: Script, k: Key, tk: Key)
    requires Quiet(s) && s.fault.None? && k in w.st.hostPods && tk in w.st.tenantPods
    ensures var m := MirrorStatus(w, s, k, tk);
      m.failure.None? && m.w.log == w.log && tk in m.w.st.tenantPods && TenantPhase(m.w, tk) == w.st.hostPods[k].status.phase
  {
    var w1, w2, w3 := Tick(w, s), Tick(Tick(w, s), s), Tick(Tick(Tick(w, s), s), s);
    assert w1.st == w.st && w2.st == w.st && w3.st == w.st;
  }

  /** Right after its pod has been ensured. */
  lemma EnsureThenMirror(p: Progress, s: Script, e: Engine, src: CorePod)
    requires Quiet(s) && s.fault.None? && !IsTerminal(src) && KeyOf(src) in p.w.st.tenantPods
    ensures var v := EnsureAndMirror(p, s, e, src).p.w; var k := HostKey(e, src);
      && KeyOf(src) in v.st.tenantPods
      && TenantPhase(v, KeyOf(src)) ==
           (if k !in p.w.st.hostPods then PhasePending
            else if Serves(p.w, k, Wanted(e, src)) then p.w.st.hostPods[k].status.phase
            else TenantPhase(p.w, KeyOf(src)))
      && (k in p.w.st.hostPods ==> v.log == p.w.log)
  {
    if HostKey(e, src) in p.w.st.hostPods {
      EnsureFinds(p.w, s, Wanted(e, src));
    } else {
      EnsureCreates(p.w, s, Wanted(e, src));
    }
    var r := EnsureHostPod(p.w, s, Wanted(e, src));
    if r.verdict.Fine? {
      MirrorWrites(r.w, s, HostKey(e, src), KeyOf(src));
    }
  }

  /** With no pod at the key a creation succeeds. */
  lemma EnsureCreates(w: World, s: Script, spec: PodSpec)
    requires Quiet(s) && s.fault.None? && Key(spec.ns, spec.name) !in w.st.hostPods
    ensures var r := EnsureHostPod(w, s, spec);
      r.verdict.Fine? && r.w.st.tenantPods == w.st.tenantPods && Cell(r.w, Key(spec.ns, spec.name)) == Some(Stored(spec))
  {
    assert Tick(w, s).st == w.st && Tick(Tick(w, s), s).st == w.st;
  }

  /** With a pod at the key nothing is created; the call succeeds exactly if that pod passes for the wanted one. */
  lemma EnsureFinds(w: World, s: Script, spec: PodSpec)
    requires Quiet(s) && s.fault.None? && Key(spec.ns, spec.name) in w.st.hostPods
    ensures var r := EnsureHostPod(w, s, spec);
      && !r.verdict.ApiError? && r.w.st.tenantPods == w.st.tenantPods && r.w.log == w.log
      && (r.verdict.Fine? <==> Serves(w, Key(spec.ns, spec.name), spec)) && (r.verdict.Fine? ==> r.w.st.hostPods == w.st.hostPods)
  {
    assert Tick(w, s).st == w.st && Tick(Tick(w, s), s).st == w.st;
  }

  /**
   * Undisturbed and without failures, a running source is reported finished by its turn in a pass if and only
   * if a live host pod that passes for the wanted one has finished already.
   */
  lemma ReportedFinishedIff(p: Progress, s: Script, e: Engine, src: CorePod)
    requires Quiet(s) && s.fault.None? && !IsTerminal(src)
    requires KeyOf(src) in p.w.st.tenantPods && p.w.st.tenantPods[KeyOf(src)] == src
    ensures var v := SyncPod(p, s, e, src).p.w; var k := HostKey(e, src);
      && KeyOf(src) in v.st.tenantPods
      && (IsTerminal(v.st.tenantPods[KeyOf(src)]) <==> Serves(p.w, k, Wanted(e, src)) && IsTerminal(p.w.st.hostPods[k]))
      && (k in p.w.st.hostPods ==> v.log == p.w.log)
  {
    var (w1, failure) := SyncResources(Fresh(p.w), s, e, RefsOf(src));
    CopySucceeds(Fresh(p.w), s, e, RefsOf(src));
    SyncResourcesEffect(Fresh(p.w), s, e, RefsOf(src));
    EnsureThenMirror(p.(w := w1, desired := p.desired + {KeyForPod(HostKey(e, src))}), s, e, src);
  }

  /** The tenant deletes the pod of this name and creates `again` in its place. */
  function Recreated(w: World, again: CorePod): World {
    Acted(Acted(w, TenantRemoved(KeyOf(again))), TenantCreated(again))
  }

  lemma RecreatedPods(w: World, again: CorePod)
    requires !IsTerminal(again)
    ensures var v := Recreated(w, again);
      && v.st.hostPods == w.st.hostPods && v.log == w.log
      && KeyOf(again) in v.st.tenantPods && v.st.tenantPods[KeyOf(again)] == again
  {
    var u := Acted(w, TenantRemoved(KeyOf(again)));
    assert KeyOf(again) !in u.st.tenantPods && u.st.hostPods == w.st.hostPods;
  }

  /**
   * A tenant deletes a pod and creates one of the same name on the same node before the next pass. If the old
   * host pod has finished and passes for the new pod, the new pod is reported finished and never runs.
   */
  lemma ReusedNameNeverRuns(w: World, s: Script, e: Engine, again: CorePod)
    requires Quiet(s) && s.fault.None? && !IsTerminal(again)
    requires Serves(w, HostKey(e, again), Wanted(e, again)) && IsTerminal(w.st.hostPods[HostKey(e, again)])
    ensures var after := SyncPod(Progress(Recreated(w, again), {}, NoCounts), s, e, again).p.w;
      KeyOf(again) in after.st.tenantPods && IsTerminal(after.st.tenantPods[KeyOf(again)]) && after.log == w.log
  {
    RecreatedPods(w, again);
    ReportedFinishedIff(Progress(Recreated(w, again), {}, NoCounts), s, e, again);
  }
}
