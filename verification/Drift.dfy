/** Drift detection: when the engine considers a running host pod equal to the pod it wants. */
module Drift {
  import opened Lists
  import opened PodModel
  import opened CorePods
  import opened Translation

  /** Go's map read: a missing key reads as the empty string. */
  function Lookup(m: map<string, string>, k: string): string {
    if k in m then m[k] else ""
  }

  predicate StringMapEqual(a: map<string, string>, b: map<string, string>) {
    if |a| == 0 && |b| == 0 then true
    else if |a| != |b| then false
    else forall k :: k in a ==> Lookup(b, k) == a[k]
  }

  function NormalizeServiceAccount(name: string): string {
    if name == "" then "default" else name
  }

  predicate ContainerEqual(a: Container, b: Container) {
    && a.name == b.name && a.image == b.image
    && a.command == b.command && a.args == b.args
    && a.env == b.env && a.volumeMounts == b.volumeMounts
    && a.resources == b.resources
  }

  predicate ContainersEqual(a: seq<Container>, b: seq<Container>) {
    |a| == |b| && forall i :: 0 <= i < |a| ==> ContainerEqual(a[i], b[i])
  }

  predicate PodSpecsEqual(a: PodSpec, b: PodSpec) {
    && a.name == b.name
    && a.ns == b.ns
    && NormalizeServiceAccount(a.serviceAccountName) == NormalizeServiceAccount(b.serviceAccountName)
    && a.automount == b.automount
    && a.runtimeClassName == b.runtimeClassName
    && StringMapEqual(a.labels, b.labels)
    && StringMapEqual(a.nodeSelector, b.nodeSelector)
    && ContainersEqual(a.containers, b.containers)
    && a.volumes == b.volumes
  }

  /** The part of a spec that drift detection is meant to compare. */
  function Compared(a: PodSpec): PodSpec {
    a.(nodeName := "", deleting := false, serviceAccountName := NormalizeServiceAccount(a.serviceAccountName))
  }

  ghost predicate NoEmptyValue(m: map<string, string>) {
    forall k :: k in m ==> m[k] != ""
  }

  // ---------- exactness of the map comparison ----------

  lemma MapEqualIsReflexive(a: map<string, string>)
    ensures StringMapEqual(a, a)
  {
  }

  /** Without empty values, equal sizes and agreeing lookups leave no room for a key of `b` outside `a`. */
  lemma MapEqualIsExact(a: map<string, string>, b: map<string, string>)
    requires NoEmptyValue(a)
    ensures StringMapEqual(a, b) <==> a == b
  {
    if StringMapEqual(a, b) && |a| != 0 {
      assert a.Keys <= b.Keys;
      SubsetOfSameSize(a.Keys, b.Keys);
    }
  }

  /** Longer than every member, hence outside the set. */
  lemma FreshString(s: set<string>) returns (f: string)
    ensures f !in s
  {
    var rest, n := s, 0;
    while rest != {}
      invariant rest <= s && 0 <= n
      invariant forall x :: x in s - rest ==> |x| <= n
      decreases |rest|
    {
      var x :| x in rest;
      rest := rest - {x};
      n := if |x| > n then |x| else n;
    }
    assert forall x :: x in s ==> x in s - rest;
    f := seq(n + 1, i => 'x');
  }

  /** Any empty value can be traded for a key that `a` lacks without the comparison noticing. */
  lemma EmptyValueHidesAKey(a: map<string, string>, k: string) returns (b: map<string, string>)
    requires k in a && a[k] == ""
    ensures StringMapEqual(a, b) && !StringMapEqual(b, a) && a != b
  {
    var f := FreshString(a.Keys);
    var without := map x | x in a && x != k :: a[x];
    b := without[f := "v"];
    assert without.Keys == a.Keys - {k};
    assert b.Keys == without.Keys + {f};
    assert |b.Keys| == |a.Keys|;
    assert b[f] != Lookup(a, f);
  }

  // ---------- exactness of the spec comparison ----------

  lemma ContainersEqualIsEquality(a: seq<Container>, b: seq<Container>)
    ensures ContainersEqual(a, b) <==> a == b
  {
  }

  lemma DriftIsExactFor(a: PodSpec, b: PodSpec)
    requires NoEmptyValue(a.labels) && NoEmptyValue(a.nodeSelector)
    ensures PodSpecsEqual(a, b) <==> Compared(a) == Compared(b)
  {
    MapEqualIsExact(a.labels, b.labels);
    MapEqualIsExact(a.nodeSelector, b.nodeSelector);
    ContainersEqualIsEquality(a.containers, b.containers);
  }

  /**
   * The engine passes the running pod first and the wanted pod second. For a given running pod,
   * exactly the differences in the compared fields are reported, whatever is wanted, if and only if
   * the running pod carries no empty label or selector value.
   */
  lemma DriftDetectionIsExact(running: PodSpec)
    ensures (forall want :: PodSpecsEqual(running, want) <==> Compared(running) == Compared(want))
       <==> (NoEmptyValue(running.labels) && NoEmptyValue(running.nodeSelector))
  {
    if NoEmptyValue(running.labels) && NoEmptyValue(running.nodeSelector) {
      forall want ensures PodSpecsEqual(running, want) <==> Compared(running) == Compared(want) {
        DriftIsExactFor(running, want);
      }
    } else {
      ContainersEqualIsEquality(running.containers, running.containers);
      var want := running;
      if !NoEmptyValue(running.labels) {
        var k :| k in running.labels && running.labels[k] == "";
        var m := EmptyValueHidesAKey(running.labels, k);
        want := running.(labels := m);
      } else {
        var k :| k in running.nodeSelector && running.nodeSelector[k] == "";
        var m := EmptyValueHidesAKey(running.nodeSelector, k);
        want := running.(nodeSelector := m);
      }
      assert PodSpecsEqual(running, want) && Compared(running) != Compared(want);
    }
  }

  /** Any entry of the wanted map can be traded for a fresh key with an empty value. */
  lemma EntryCanBeHidden(want: map<string, string>, k: string) returns (running: map<string, string>)
    requires k in want
    ensures StringMapEqual(running, want) && k !in running && running != want
  {
    var f := FreshString(want.Keys);
    var without := map x | x in want && x != k :: want[x];
    running := without[f := ""];
    assert without.Keys == want.Keys - {k};
    assert running.Keys == without.Keys + {f};
    assert |running.Keys| == |want.Keys|;
  }

  /** For a given wanted pod, drift is reported exactly, whatever runs, if and only if it asks for no label and no selector. */
  lemma DriftAgainstWantedIsExact(want: PodSpec)
    ensures (forall running :: PodSpecsEqual(running, want) <==> Compared(running) == Compared(want))
       <==> (want.labels == map[] && want.nodeSelector == map[])
  {
    if want.labels == map[] && want.nodeSelector == map[] {
      forall running ensures PodSpecsEqual(running, want) <==> Compared(running) == Compared(want) {
        ContainersEqualIsEquality(running.containers, want.containers);
        assert |running.labels| == 0 <==> running.labels == map[];
        assert |running.nodeSelector| == 0 <==> running.nodeSelector == map[];
      }
    } else {
      ContainersEqualIsEquality(want.containers, want.containers);
      MapEqualIsReflexive(want.labels);
      var running := want;
      if want.labels != map[] {
        var k :| k in want.labels;
        var m := EntryCanBeHidden(want.labels, k);
        running := want.(labels := m);
      } else {
        var k :| k in want.nodeSelector;
        var m := EntryCanBeHidden(want.nodeSelector, k);
        running := want.(nodeSelector := m);
      }
      assert PodSpecsEqual(running, want) && Compared(running) != Compared(want);
    }
  }

  /** Every pod the engine wants carries labels, so against each one some running pod passes unnoticed, even one of no pool. */
  lemma EveryTargetCanBeMissed(source: PodSpec, opts: TranslateOpts) returns (running: PodSpec)
    ensures PodSpecsEqual(running, Target(source, opts)) && Compared(running) != Compared(Target(source, opts))
    ensures LABEL_VNODE_POOL !in running.labels
  {
    var want := Target(source, opts);
    var m := EntryCanBeHidden(want.labels, LABEL_VNODE_POOL);
    ContainersEqualIsEquality(want.containers, want.containers);
    MapEqualIsReflexive(want.nodeSelector);
    running := want.(labels := m);
  }

  /** On specs without empty values the comparison is an equivalence relation. */
  lemma DriftIsAnEquivalence(a: PodSpec, b: PodSpec, c: PodSpec)
    requires NoEmptyValue(a.labels) && NoEmptyValue(a.nodeSelector)
    requires NoEmptyValue(b.labels) && NoEmptyValue(b.nodeSelector)
    ensures PodSpecsEqual(a, a)
    ensures PodSpecsEqual(a, b) <==> PodSpecsEqual(b, a)
    ensures PodSpecsEqual(a, b) && PodSpecsEqual(b, c) ==> PodSpecsEqual(a, c)
  {
    DriftIsExactFor(a, a);
    DriftIsExactFor(a, b);
    DriftIsExactFor(b, a);
    DriftIsExactFor(b, c);
    DriftIsExactFor(a, c);
  }

  // ---------- the translation fixpoint ----------

  /** What the host stores once the engine has created `spec`. */
  function Stored(spec: PodSpec): CorePod {
    Admitted(ToCore(spec))
  }

  predicate NoPodsQuantity(c: Container) {
    c.resources.requests.pods == 0 && c.resources.limits.pods == 0
  }

  /** No container of the spec carries a `pods` quantity. */
  predicate Storable(spec: PodSpec) {
    forall i :: 0 <= i < |spec.containers| ==> NoPodsQuantity(spec.containers[i])
  }

  /** Volumes that came from Kubernetes carry a source only where their kind has one. */
  predicate VolumeIsNormal(v: Volume) {
    v.kind.EmptyDir? || v.kind.Other? || v.kind.Projected? ==> v.source == ""
  }

  lemma TranslatedVolumesAreNormal(pod: CorePod, opts: TranslateOpts)
    ensures var vs := Target(SourceOf(pod), opts).volumes;
      forall i :: 0 <= i < |vs| ==> VolumeIsNormal(vs[i])
  {
    var all := Map(VolumeFromCore, pod.volumes);
    var kept := Filter(KeepsVolume, all);
    forall i | 0 <= i < |kept| ensures VolumeIsNormal(Rehomed(kept[i], pod.ns)) {
      assert kept[i] in all;
    }
  }

  lemma VolumesRoundTrip(vs: seq<Volume>)
    requires forall i :: 0 <= i < |vs| ==> VolumeIsNormal(vs[i])
    ensures Map(VolumeFromCore, Map(VolumeToCore, vs)) == vs
  {
  }

  lemma ContainersRoundTrip(cs: seq<Container>)
    ensures Map(ContainerFromCore, Map(ContainerToCore, cs)) == cs
       <==> (forall i :: 0 <= i < |cs| ==> NoPodsQuantity(cs[i]))
  {
  }

  /**
   * Reading a created host pod back compares equal to the wanted pod exactly when no container
   * carries a `pods` quantity, so only such a source can be deleted and re-created forever.
   */
  lemma ReadBackMatchesExactly(pod: CorePod, opts: TranslateOpts)
    ensures var want := Target(SourceOf(pod), opts);
      && (PodSpecsEqual(FromCore(Stored(want)), want) <==> Storable(want))
      && (Compared(FromCore(Stored(want))) == Compared(want) <==> Storable(want))
  {
    var want := Target(SourceOf(pod), opts);
    var back := FromCore(Stored(want));
    TranslatedVolumesAreNormal(pod, opts);
    VolumesRoundTrip(want.volumes);
    ContainersRoundTrip(want.containers);
    ContainersEqualIsEquality(back.containers, want.containers);
    MapEqualIsReflexive(want.labels);
    MapEqualIsReflexive(want.nodeSelector);
  }

  /** One entry with an empty value is replaced by an entry `y`. */
  ghost predicate Replaced(a: map<string, string>, b: map<string, string>, x: string, y: string) {
    && x in a && a[x] == "" && x !in b && y !in a && y in b
    && (forall k :: k != x && k != y ==> (k in a <==> k in b))
    && (forall k :: k in a && k in b ==> a[k] == b[k])
  }

  lemma ReplacementIsMissed(a: map<string, string>, b: map<string, string>, x: string, y: string)
    requires Replaced(a, b, x, y)
    ensures StringMapEqual(a, b) && a != b
  {
    assert b.Keys == (a.Keys - {x}) + {y};
    assert |b.Keys| == |a.Keys|;
  }

  lemma ReplacementSurvivesOverride(a: map<string, string>, b: map<string, string>, system: map<string, string>, x: string, y: string)
    requires Replaced(a, b, x, y) && x !in system && y !in system
    ensures Replaced(a + system, b + system, x, y)
  {
  }

  /** A tenant who replaces a label with an empty value by any other label never sees the host pod follow. */
  lemma RelabellingIsMissed(pod: CorePod, labels: map<string, string>, opts: TranslateOpts, x: string, y: string)
    requires Replaced(pod.labels, labels, x, y) && Storable(Target(SourceOf(pod), opts))
    requires x !in SystemLabels(SourceOf(pod), opts) && y !in SystemLabels(SourceOf(pod), opts)
    ensures var running := FromCore(Stored(Target(SourceOf(pod), opts)));
      var want := Target(SourceOf(pod.(labels := labels)), opts);
      PodSpecsEqual(running, want) && Compared(running) != Compared(want)
  {
    ReadBackMatchesExactly(pod, opts);
    var before := Target(SourceOf(pod), opts);
    var want := Target(SourceOf(pod.(labels := labels)), opts);
    ReplacementSurvivesOverride(pod.labels, labels, SystemLabels(SourceOf(pod), opts), x, y);
    ReplacementIsMissed(before.labels, want.labels, x, y);
    ContainersEqualIsEquality(before.containers, want.containers);
    ContainersEqualIsEquality(FromCore(Stored(before)).containers, before.containers);
  }

  /** The same condition, read off the tenant pod: no request or limit whose `pods` value is non-zero as an int32. */
  lemma StorableMeansNoPodsRequested(pod: CorePod, opts: TranslateOpts)
    ensures Storable(Target(SourceOf(pod), opts))
       <==> (forall i :: 0 <= i < |pod.containers| ==> NoPodsQuantity(ContainerFromCore(pod.containers[i])))
  {
  }
}
