/** The sources of a tenant state, and what one undisturbed pass leaves for them. */
module Convergence {
  import opened Lists
  import opened PodModel
  import opened CorePods
  import opened Drift
  import opened Clusters
  import opened Execution
  import opened PassEffect

  // ---------- sources of a tenant state ----------

  ghost predicate Coherent(pods: map<Key, CorePod>) {
    forall k :: k in pods ==> KeyOf(pods[k]) == k
  }

  ghost predicate SourceAt(pods: map<Key, CorePod>, ready: set<string>, tk: Key) {
    tk in pods && IsSource(pods[tk], ready)
  }

  /** Distinct source pods of the tenant want distinct host keys. */
  ghost predicate DistinctClaims(e: Engine, pods: map<Key, CorePod>, ready: set<string>) {
    forall a, b :: SourceAt(pods, ready, a) && SourceAt(pods, ready, b) && a != b ==>
      HostKey(e, pods[a]) != HostKey(e, pods[b])
  }

  /** The selected pods of a list, with the key of each: every key once, none missing. */
  ghost predicate Selects(pods: map<Key, CorePod>, ready: set<string>, keys: seq<Key>, srcs: seq<CorePod>, at: seq<Key>) {
    && |at| == |srcs|
    && (forall i :: 0 <= i < |at| ==> at[i] in keys && SourceAt(pods, ready, at[i]) && pods[at[i]] == srcs[i])
    && (forall i, j :: 0 <= i < j < |at| ==> at[i] != at[j])
    && (forall tk :: tk in keys && SourceAt(pods, ready, tk) ==> tk in at)
  }

  function Selected(pods: map<Key, CorePod>, ready: set<string>, keys: seq<Key>): seq<CorePod> {
    Filter((p: CorePod) => IsSource(p, ready), Listed(pods, keys))
  }

  lemma SelectedSnoc(pods: map<Key, CorePod>, ready: set<string>, keys: seq<Key>)
    requires keys != []
    ensures var n := |keys| - 1;
      Selected(pods, ready, keys) ==
        Selected(pods, ready, keys[..n]) + (if SourceAt(pods, ready, keys[n]) then [pods[keys[n]]] else [])
  {
    var n := |keys| - 1;
    var before := Listed(pods, keys[..n]);
    if keys[n] in pods {
      assert (before + [pods[keys[n]]])[..|before|] == before;
    } else {
      assert Listed(pods, keys) == before;
    }
  }

  lemma {:induction false} SelectByKey(pods: map<Key, CorePod>, ready: set<string>, keys: seq<Key>) returns (at: seq<Key>)
    requires forall i, j :: 0 <= i < j < |keys| ==> keys[i] != keys[j]
    ensures Selects(pods, ready, keys, Selected(pods, ready, keys), at)
  {
    at := [];
    if keys != [] {
      var n := |keys| - 1;
      at := SelectByKey(pods, ready, keys[..n]);
      SelectedSnoc(pods, ready, keys);
      assert keys == keys[..n] + [keys[n]];
      assert keys[n] !in keys[..n];
      if SourceAt(pods, ready, keys[n]) {
        at := at + [keys[n]];
      }
    }
  }

  /** The source list, with the tenant key of each entry: every source pod once, in some order. */
  lemma SourcesByKey(st: Stores, s: Script, ready: set<string>) returns (at: seq<Key>)
    requires Orderly(s)
    ensures Selects(st.tenantPods, ready, at, Sources(st, s, ready), at)
    ensures forall tk :: SourceAt(st.tenantPods, ready, tk) ==> tk in at
  {
    var keys := s.tenantOrder(st.tenantPods.Keys);
    assert Enumerates(keys, st.tenantPods.Keys);
    at := SelectByKey(st.tenantPods, ready, keys);
    assert Sources(st, s, ready) == Selected(st.tenantPods, ready, keys);
  }

  /** The source list holds exactly the source pods of the tenant, and distinct claims give distinct host keys. */
  lemma SourcesAreExact(st: Stores, s: Script, ready: set<string>, e: Engine)
    requires Orderly(s)
    ensures forall src :: src in Sources(st, s, ready) ==> exists tk :: SourceAt(st.tenantPods, ready, tk) && st.tenantPods[tk] == src
    ensures forall tk :: SourceAt(st.tenantPods, ready, tk) ==> st.tenantPods[tk] in Sources(st, s, ready)
    ensures DistinctClaims(e, st.tenantPods, ready) ==> DistinctKeys(e, Sources(st, s, ready))
  {
    var srcs := Sources(st, s, ready);
    var at := SourcesByKey(st, s, ready);
    forall src | src in srcs ensures exists tk :: SourceAt(st.tenantPods, ready, tk) && st.tenantPods[tk] == src {
      var i :| 0 <= i < |srcs| && srcs[i] == src;
      assert SourceAt(st.tenantPods, ready, at[i]);
    }
    forall tk | SourceAt(st.tenantPods, ready, tk) ensures st.tenantPods[tk] in srcs {
      var i :| 0 <= i < |at| && at[i] == tk;
      assert srcs[i] in srcs;
    }
  }

  // ---------- host pods that serve a source ----------

  ghost predicate Live(w: World, k: Key) {
    k in w.st.hostPods && !w.st.hostPods[k].deleting
  }

  ghost predicate Ours(e: Engine, w: World, k: Key) {
    k in w.st.hostPods && k.ns == e.pool.ns && HasPoolLabels(w.st.hostPods[k], e.pool.name)
  }

  /** The host pod at `k` is live and compares equal to `want`. */
  ghost predicate Serves(w: World, k: Key, want: PodSpec) {
    Live(w, k) && PodSpecsEqual(FromCore(w.st.hostPods[k]), want)
  }

  lemma ClaimedCellAfterPass(e: Engine, src: CorePod, cur: Option<CorePod>)
    requires Storable(Wanted(e, src))
    ensures var next := ClaimedStep(e, src, cur);
      if IsTerminal(src) then next.None? || next.value.deleting
      else next.Some? && (next.value.deleting || PodSpecsEqual(FromCore(next.value), Wanted(e, src)))
  {
    ReadBackMatchesExactly(src, Opts(e, src.nodeName));
  }

  /**
   * After a completed undisturbed pass over any sources and from any host state no live pod of the pool is outside
   * the desired set; a running source is served or its old host pod is on the way out; a finished source has no
   * live host pod; and pods of nobody's concern are exactly as before.
   */
  lemma QuietPassPostcondition(w: World, s: Script, e: Engine, srcs: seq<CorePod>)
    requires Quiet(s) && Orderly(s) && e.pool.ns != "" && DistinctKeys(e, srcs)
    requires forall src :: src in srcs ==> Storable(Wanted(e, src))
    ensures var f := SyncAndSweep(w, s, e, srcs);
      f.Next? ==>
        && (forall k :: Ours(e, f.p.w, k) && Live(f.p.w, k) ==> Claimant(e, srcs, k).Some?)
        && (forall src :: src in srcs && !IsTerminal(src) ==>
              Serves(f.p.w, HostKey(e, src), Wanted(e, src)) ||
              (HostKey(e, src) in f.p.w.st.hostPods && f.p.w.st.hostPods[HostKey(e, src)].deleting))
        && (forall src :: src in srcs && IsTerminal(src) ==> !Live(f.p.w, HostKey(e, src)))
        && (forall k :: Claimant(e, srcs, k).None? && !Ours(e, w, k) ==> Cell(f.p.w, k) == Cell(w, k))
  {
    PassActsPointwise(w, s, e, srcs);
    var f := SyncAndSweep(w, s, e, srcs);
    if f.Next? {
      forall k ensures Cell(f.p.w, k) == NextCell(e, srcs, k, Cell(w, k)) {
        assert Applied(w, f, k, NextCell(e, srcs, k, Cell(w, k)));
      }
      forall src | src in srcs ensures Cell(f.p.w, HostKey(e, src)) == ClaimedStep(e, src, Cell(w, HostKey(e, src))) {
        ClaimantIs(e, srcs, src);
      }
      forall src | src in srcs
        ensures var k := HostKey(e, src);
          if IsTerminal(src) then !Live(f.p.w, k)
          else Serves(f.p.w, k, Wanted(e, src)) || (k in f.p.w.st.hostPods && f.p.w.st.hostPods[k].deleting)
      {
        ClaimedCellAfterPass(e, src, Cell(w, HostKey(e, src)));
      }
      forall k | Claimant(e, srcs, k).None? ensures Cell(f.p.w, k) == UnclaimedStep(e, k, Cell(w, k)) {
        assert Cell(f.p.w, k) == NextCell(e, srcs, k, Cell(w, k));
      }
    }
  }

  lemma ClaimantIs(e: Engine, srcs: seq<CorePod>, src: CorePod)
    requires DistinctKeys(e, srcs) && src in srcs
    ensures Claimant(e, srcs, HostKey(e, src)) == Some(src)
  {
  }

  /** A pod the engine has just created survives the next pass exactly when its spec is storable. */
  lemma CreatedPodSurvivesIff(e: Engine, src: CorePod)
    requires !IsTerminal(src)
    ensures var created := ClaimedStep(e, src, None);
      ClaimedStep(e, src, created) == created <==> Storable(Wanted(e, src))
  {
    ReadBackMatchesExactly(src, Opts(e, src.nodeName));
  }
}
