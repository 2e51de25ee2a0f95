/** Translation of a tenant pod into the host pod that runs it. */
module Translation {
  import opened Lists
  import opened PodModel

  const LABEL_MANAGED_BY := "app.kubernetes.io/managed-by"
  const LABEL_MANAGED_BY_VALUE := "kroderdev-vnode"
  const LABEL_VNODE_POOL := "vnode.kroderdev.io/pool"
  const LABEL_VNODE_NAME := "vnode.kroderdev.io/node-name"
  const LABEL_SOURCE_POD_NAME := "vnode.kroderdev.io/source-pod-name"
  const LABEL_SOURCE_POD_NS := "vnode.kroderdev.io/source-pod-namespace"
  const SERVICE_ACCOUNT_PATH := "/var/run/secrets/kubernetes.io/serviceaccount"

  datatype TranslateOpts = TranslateOpts(
    vnodeName: string, poolName: string, targetNamespace: string, runtimeClass: string,
    nodeSelector: map<string, string>)

  datatype PodTranslation = PodTranslation(source: PodSpec, target: PodSpec)

  /** A ConfigMap or Secret that must be copied from the tenant to the host. */
  datatype ResourceRef = ResourceRef(kind: VolumeType, sourceName: string, sourceNs: string, targetName: string)

  // ---------- what the loops compute ----------

  function HostName(vnodeName: string, ns: string, name: string): string {
    vnodeName + "-" + ns + "-" + name
  }

  function SystemLabels(source: PodSpec, opts: TranslateOpts): map<string, string> {
    map[LABEL_MANAGED_BY := LABEL_MANAGED_BY_VALUE,
        LABEL_VNODE_POOL := opts.poolName,
        LABEL_VNODE_NAME := opts.vnodeName,
        LABEL_SOURCE_POD_NAME := source.name,
        LABEL_SOURCE_POD_NS := source.ns]
  }

  predicate IsServiceAccountMount(m: VolumeMount) {
    m.mountPath == SERVICE_ACCOUNT_PATH
  }

  predicate KeepsMount(m: VolumeMount) {
    !IsServiceAccountMount(m)
  }

  predicate KeepsVolume(v: Volume) {
    !v.kind.Projected?
  }

  predicate IsResourceKind(kind: VolumeType) {
    kind.ConfigMap? || kind.Secret?
  }

  predicate IsResource(v: Volume) {
    IsResourceKind(v.kind)
  }

  /** The name under which a tenant ConfigMap or Secret is kept on the host. */
  function ResourceName(ns: string, name: string): string {
    ns + "-" + name
  }

  function Rehomed(v: Volume, ns: string): Volume {
    if IsResource(v) then v.(source := ResourceName(ns, v.source)) else v
  }

  function TranslatedContainer(c: Container): Container {
    c.(volumeMounts := Filter(KeepsMount, c.volumeMounts))
  }

  function FilteredVolumes(volumes: seq<Volume>, ns: string): seq<Volume> {
    Map((v: Volume) => Rehomed(v, ns), Filter(KeepsVolume, volumes))
  }

  function RefOf(v: Volume, ns: string): ResourceRef {
    ResourceRef(v.kind, v.source, ns, ResourceName(ns, v.source))
  }

  function Refs(volumes: seq<Volume>, ns: string): seq<ResourceRef> {
    Map((v: Volume) => RefOf(v, ns), Filter(IsResource, volumes))
  }

  function Target(source: PodSpec, opts: TranslateOpts): PodSpec {
    PodSpec(
      HostName(opts.vnodeName, source.ns, source.name), opts.targetNamespace,
      source.labels + SystemLabels(source, opts), "",
      Map(TranslatedContainer, source.containers), FilteredVolumes(source.volumes, source.ns),
      "", Some(false), opts.runtimeClass, opts.nodeSelector, false)
  }

  // ---------- the loops ----------

  method TranslateContainers(containers: seq<Container>) returns (result: seq<Container>)
    ensures result == Map(TranslatedContainer, containers)
  {
    result := [];
    for i := 0 to |containers|
      invariant result == Map(TranslatedContainer, containers[..i])
    {
      var c := containers[i];
      var mounts := [];
      for j := 0 to |c.volumeMounts|
        invariant mounts == Filter(KeepsMount, c.volumeMounts[..j])
      {
        FilterSnoc(KeepsMount, c.volumeMounts, j);
        if IsServiceAccountMount(c.volumeMounts[j]) {
          continue;
        }
        mounts := mounts + [c.volumeMounts[j]];
      }
      assert c.volumeMounts[..|c.volumeMounts|] == c.volumeMounts;
      result := result + [c.(volumeMounts := mounts)];
    }
    assert containers[..|containers|] == containers;
  }

  method FilterVolumes(volumes: seq<Volume>, sourceNamespace: string) returns (result: seq<Volume>)
    ensures result == FilteredVolumes(volumes, sourceNamespace)
  {
    result := [];
    for i := 0 to |volumes|
      invariant result == FilteredVolumes(volumes[..i], sourceNamespace)
    {
      FilterSnoc(KeepsVolume, volumes, i);
      var v := volumes[i];
      if v.kind == Projected {
        continue;
      }
      if v.kind == ConfigMap || v.kind == Secret {
        v := v.(source := sourceNamespace + "-" + v.source);
      }
      result := result + [v];
    }
    assert volumes[..|volumes|] == volumes;
  }

  method ResourceRefs(t: PodTranslation) returns (refs: seq<ResourceRef>)
    ensures refs == Refs(t.source.volumes, t.source.ns)
  {
    refs := [];
    var sourceNs := t.source.ns;
    for i := 0 to |t.source.volumes|
      invariant refs == Refs(t.source.volumes[..i], sourceNs)
    {
      FilterSnoc(IsResource, t.source.volumes, i);
      var sv := t.source.volumes[i];
      if sv.kind != ConfigMap && sv.kind != Secret {
        continue;
      }
      refs := refs + [ResourceRef(sv.kind, sv.source, sourceNs, sourceNs + "-" + sv.source)];
    }
    assert t.source.volumes[..|t.source.volumes|] == t.source.volumes;
  }

  /** The label loop walks the source labels in any order and skips keys that are already set. */
  method TranslatePod(source: PodSpec, opts: TranslateOpts) returns (t: PodTranslation)
    ensures t == PodTranslation(source, Target(source, opts))
  {
    var containers := TranslateContainers(source.containers);
    var volumes := FilterVolumes(source.volumes, source.ns);
    var labels := SystemLabels(source, opts);
    var rest := source.labels.Keys;
    while rest != {}
      invariant rest <= source.labels.Keys
      invariant labels == (map k | k in source.labels.Keys - rest :: source.labels[k]) + SystemLabels(source, opts)
      decreases |rest|
    {
      var k :| k in rest;
      if k !in labels {
        labels := labels[k := source.labels[k]];
      }
      rest := rest - {k};
    }
    t := PodTranslation(source, PodSpec(
      opts.vnodeName + "-" + source.ns + "-" + source.name, opts.targetNamespace, labels, "",
      containers, volumes, "", Some(false), opts.runtimeClass, opts.nodeSelector, false));
    assert labels == source.labels + SystemLabels(source, opts);
  }

  // ---------- what translation guarantees ----------

  /** System labels win over tenant labels; every other tenant label survives; nothing is added. */
  lemma SystemLabelsWin(source: PodSpec, opts: TranslateOpts)
    ensures var l := Target(source, opts).labels;
      && LABEL_MANAGED_BY in l && l[LABEL_MANAGED_BY] == LABEL_MANAGED_BY_VALUE
      && LABEL_VNODE_POOL in l && l[LABEL_VNODE_POOL] == opts.poolName
      && LABEL_VNODE_NAME in l && l[LABEL_VNODE_NAME] == opts.vnodeName
      && LABEL_SOURCE_POD_NAME in l && l[LABEL_SOURCE_POD_NAME] == source.name
      && LABEL_SOURCE_POD_NS in l && l[LABEL_SOURCE_POD_NS] == source.ns
      && (forall k :: k in source.labels && k !in SystemLabels(source, opts) ==> k in l && l[k] == source.labels[k])
      && (forall k :: k in l ==> k in source.labels || k in SystemLabels(source, opts))
  {
  }

  /** Volume names are distinct, and every mount names a declared volume. */
  ghost predicate WellMounted(spec: PodSpec) {
    && (forall i, j :: 0 <= i < j < |spec.volumes| ==> spec.volumes[i].name != spec.volumes[j].name)
    && (forall c, m :: c in spec.containers && m in c.volumeMounts ==> MountDeclared(spec, m))
  }

  ghost predicate MountDeclared(spec: PodSpec, m: VolumeMount) {
    exists v :: v in spec.volumes && v.name == m.name
  }

  ghost predicate ProjectedOnlyAtTokenPath(spec: PodSpec) {
    forall c, m, v ::
      (c in spec.containers && m in c.volumeMounts && v in spec.volumes && v.name == m.name && v.kind.Projected?)
      ==> IsServiceAccountMount(m)
  }

  lemma VolumeNamesStayUnique(volumes: seq<Volume>, ns: string)
    requires forall i, j :: 0 <= i < j < |volumes| ==> volumes[i].name != volumes[j].name
    ensures var out := FilteredVolumes(volumes, ns);
      forall i, j :: 0 <= i < j < |out| ==> out[i].name != out[j].name
  {
    var out := FilteredVolumes(volumes, ns);
    var idx := FilterKeepsOrder(KeepsVolume, volumes);
    forall i, j | 0 <= i < j < |out| ensures out[i].name != out[j].name {
      assert out[i].name == volumes[idx[i]].name && out[j].name == volumes[idx[j]].name;
    }
  }

  lemma KeptMountIsDeclared(source: PodSpec, opts: TranslateOpts, i: nat, m: VolumeMount)
    requires WellMounted(source) && ProjectedOnlyAtTokenPath(source)
    requires i < |source.containers| && m in TranslatedContainer(source.containers[i]).volumeMounts
    ensures MountDeclared(Target(source, opts), m)
  {
    var c := source.containers[i];
    assert m in c.volumeMounts && !IsServiceAccountMount(m);
    assert MountDeclared(source, m);
    var v :| v in source.volumes && v.name == m.name;
    var kept := Filter(KeepsVolume, source.volumes);
    assert KeepsVolume(v);
    var j :| 0 <= j < |kept| && kept[j] == v;
    assert Target(source, opts).volumes[j] == Rehomed(v, source.ns);
  }

  lemma MisplacedMountDangles(source: PodSpec, opts: TranslateOpts, i: nat, m: VolumeMount, v: Volume)
    requires WellMounted(source)
    requires i < |source.containers| && m in source.containers[i].volumeMounts && !IsServiceAccountMount(m)
    requires v in source.volumes && v.name == m.name && v.kind.Projected?
    ensures !WellMounted(Target(source, opts))
  {
    var t := Target(source, opts);
    assert m in t.containers[i].volumeMounts;
    var kept := Filter(KeepsVolume, source.volumes);
    forall j | 0 <= j < |t.volumes| ensures t.volumes[j].name != m.name {
      assert kept[j] in source.volumes && KeepsVolume(kept[j]);
    }
    assert !MountDeclared(t, m);
  }

  /**
   * Translating a pod whose mounts are well formed leaves them well formed (none dangling, volume
   * names unique) exactly when every projected volume is mounted only at the service-account path.
   */
  lemma MountsStayWellFormed(source: PodSpec, opts: TranslateOpts)
    requires WellMounted(source)
    ensures WellMounted(Target(source, opts)) <==> ProjectedOnlyAtTokenPath(source)
  {
    var containers := Target(source, opts).containers;
    if ProjectedOnlyAtTokenPath(source) {
      VolumeNamesStayUnique(source.volumes, source.ns);
      forall c, m | c in containers && m in c.volumeMounts
        ensures MountDeclared(Target(source, opts), m)
      {
        var i :| 0 <= i < |containers| && containers[i] == c;
        KeptMountIsDeclared(source, opts, i, m);
      }
    } else {
      var c, m, v :| c in source.containers && m in c.volumeMounts && v in source.volumes && v.name == m.name &&
                     v.kind.Projected? && !IsServiceAccountMount(m);
      var i :| 0 <= i < |source.containers| && source.containers[i] == c;
      MisplacedMountDangles(source, opts, i, m, v);
    }
  }

  /** Containers, mounts and volumes keep their relative order, and exactly the token mounts and projected volumes go. */
  lemma TranslationKeepsOrder(source: PodSpec, opts: TranslateOpts, c: nat) returns (mounts: seq<nat>, volumes: seq<nat>)
    requires c < |source.containers|
    ensures var t := Target(source, opts);
      && |t.containers| == |source.containers|
      && t.containers[c].(volumeMounts := source.containers[c].volumeMounts) == source.containers[c]
      && KeptPositions(KeepsMount, source.containers[c].volumeMounts, mounts)
      && |mounts| == |t.containers[c].volumeMounts|
      && (forall j :: 0 <= j < |mounts| ==> t.containers[c].volumeMounts[j] == source.containers[c].volumeMounts[mounts[j]])
      && KeptPositions(KeepsVolume, source.volumes, volumes)
      && |volumes| == |t.volumes|
      && (forall j :: 0 <= j < |volumes| ==> t.volumes[j] == Rehomed(source.volumes[volumes[j]], source.ns))
  {
    mounts := FilterKeepsOrder(KeepsMount, source.containers[c].volumeMounts);
    volumes := FilterKeepsOrder(KeepsVolume, source.volumes);
  }

  function NamedResource(v: Volume): (VolumeType, string) {
    (v.kind, v.source)
  }

  function RefTarget(r: ResourceRef): (VolumeType, string) {
    (r.kind, r.targetName)
  }

  /**
   * The references handed to the resource copier name, in order, exactly the ConfigMaps and
   * Secrets that the translated pod's volumes will look up on the host.
   */
  lemma {:induction false} RefsMatchTargetVolumes(volumes: seq<Volume>, ns: string)
    ensures Map(RefTarget, Refs(volumes, ns)) == Map(NamedResource, Filter(IsResource, FilteredVolumes(volumes, ns)))
  {
    if volumes != [] {
      var n := |volumes| - 1;
      var v := volumes[n];
      RefsMatchTargetVolumes(volumes[..n], ns);
      var before := FilteredVolumes(volumes[..n], ns);
      LastVolume(volumes, ns);
      if IsResource(v) {
        NamedSnoc(before, Rehomed(v, ns));
        MapSnoc(RefTarget, Refs(volumes[..n], ns), RefOf(v, ns));
      } else {
        assert Refs(volumes, ns) == Refs(volumes[..n], ns);
        if KeepsVolume(v) {
          NamedSnoc(before, v);
        } else {
          assert FilteredVolumes(volumes, ns) == before;
        }
      }
    }
  }

  lemma NamedSnoc(volumes: seq<Volume>, v: Volume)
    ensures Map(NamedResource, Filter(IsResource, volumes + [v])) ==
      Map(NamedResource, Filter(IsResource, volumes)) + (if IsResource(v) then [NamedResource(v)] else [])
  {
    assert (volumes + [v])[..|volumes|] == volumes;
  }

  /** What the last volume contributes to the references and to the translated volumes. */
  lemma LastVolume(volumes: seq<Volume>, ns: string)
    requires volumes != []
    ensures var n := |volumes| - 1; var v := volumes[n];
      && Refs(volumes, ns) == Refs(volumes[..n], ns) + (if IsResource(v) then [RefOf(v, ns)] else [])
      && FilteredVolumes(volumes, ns) == FilteredVolumes(volumes[..n], ns) + (if KeepsVolume(v) then [Rehomed(v, ns)] else [])
  {
  }
}
