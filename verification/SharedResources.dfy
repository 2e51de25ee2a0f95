/**
 * ConfigMaps and Secrets on the host are not separated by pool: their host names carry the tenant
 * namespace and the resource name only.
 */
module SharedResources {
  import opened Lists
  import opened PodModel
  import opened CorePods
  import opened Translation
  import opened Clusters
  import opened Execution
  import opened RunSafety

  /** The copy of `ref` by pool `f` writes the host object `k` of this kind: the tenant has the resource, and `k` is its host name. */
  ghost predicate Writes(f: Engine, st: Stores, ref: ResourceRef, kind: VolumeType, k: Key) {
    ref.kind == kind && Key(f.pool.ns, ref.targetName) == k && Key(ref.sourceNs, ref.sourceName) in TenantResource(st, kind)
  }

  /** What that copy writes. */
  ghost function CopyObject(f: Engine, st: Stores, ref: ResourceRef): HostResource
    requires Key(ref.sourceNs, ref.sourceName) in TenantResource(st, ref.kind)
  {
    HostResource(TenantResource(st, ref.kind)[Key(ref.sourceNs, ref.sourceName)], ResourceLabels(f))
  }

  ghost predicate LeftBy(f: Engine, st: Stores, ref: ResourceRef, after: Stores, kind: VolumeType, k: Key) {
    Writes(f, st, ref, kind, k) && At(HostResourceOf(after, kind), k) == Some(CopyObject(f, st, ref))
  }

  /** The object is as before, or one of the references wrote it, with the tenant's payload and the pool's labels. */
  ghost predicate WrittenBy(f: Engine, refs: seq<ResourceRef>, st: Stores, after: Stores, kind: VolumeType, k: Key) {
    if exists i :: 0 <= i < |refs| && Writes(f, st, refs[i], kind, k)
    then exists i :: 0 <= i < |refs| && LeftBy(f, st, refs[i], after, kind, k)
    else At(HostResourceOf(after, kind), k) == At(HostResourceOf(st, kind), k)
  }

  /** One reference of an undisturbed copy. */
  lemma FirstRefWrites(w: World, s: Script, f: Engine, refs: seq<ResourceRef>) returns (v: World)
    requires Quiet(s) && refs != [] && IsResourceKind(refs[0].kind) && SyncResources(w, s, f, refs).1.None?
    ensures SyncResources(w, s, f, refs) == SyncResources(v, s, f, refs[1..])
    ensures v.st.tenantMaps == w.st.tenantMaps && v.st.tenantSecrets == w.st.tenantSecrets
    ensures forall kind, k :: IsResourceKind(kind) ==>
      At(HostResourceOf(v.st, kind), k) ==
        if Writes(f, w.st, refs[0], kind, k)
        then Some(CopyObject(f, w.st, refs[0]))
        else At(HostResourceOf(w.st, kind), k)
  {
    var r := refs[0];
    var (w1, reply) := GetTenantResource(w, s, r.kind, Key(r.sourceNs, r.sourceName));
    assert w1.st == w.st;
    match reply
    case Err(_) => v := w1;
    case NotFound => v := w1;
    case Got(payload) =>
      v := EnsureResource(w1, s, r.kind, Key(f.pool.ns, r.targetName), HostResource(payload, ResourceLabels(f))).0;
  }

  /** What an undisturbed, successful copy does to every host object. */
  lemma {:induction false} CopyWrites(w: World, s: Script, f: Engine, refs: seq<ResourceRef>, kind: VolumeType, k: Key)
    requires Quiet(s) && IsResourceKind(kind) && (forall r :: r in refs ==> IsResourceKind(r.kind))
    requires SyncResources(w, s, f, refs).1.None?
    ensures WrittenBy(f, refs, w.st, SyncResources(w, s, f, refs).0.st, kind, k)
    decreases |refs|
  {
    if refs != [] {
      assert refs[0] in refs;
      var v := FirstRefWrites(w, s, f, refs);
      CopyWrites(v, s, f, refs[1..], kind, k);
      WrittenByFirst(f, refs, w.st, v.st, SyncResources(w, s, f, refs).0.st, kind, k);
    }
  }

  lemma WrittenByFirst(f: Engine, refs: seq<ResourceRef>, st: Stores, mid: Stores, after: Stores, kind: VolumeType, k: Key)
    requires refs != [] && mid.tenantMaps == st.tenantMaps && mid.tenantSecrets == st.tenantSecrets
    requires WrittenBy(f, refs[1..], mid, after, kind, k)
    requires At(HostResourceOf(mid, kind), k) ==
      if Writes(f, st, refs[0], kind, k)
      then Some(CopyObject(f, st, refs[0]))
      else At(HostResourceOf(st, kind), k)
    ensures WrittenBy(f, refs, st, after, kind, k)
  {
    if i :| 0 <= i < |refs[1..]| && LeftBy(f, mid, refs[1..][i], after, kind, k) {
      assert refs[i + 1] == refs[1..][i] && LeftBy(f, st, refs[i + 1], after, kind, k);
    } else {
      assert !(exists i :: 0 <= i < |refs[1..]| && Writes(f, mid, refs[1..][i], kind, k));
      if i :| 0 <= i < |refs| && Writes(f, st, refs[i], kind, k) {
        assert i > 0 ==> Writes(f, mid, refs[1..][i - 1], kind, k);
        assert LeftBy(f, st, refs[0], after, kind, k);
      }
    }
  }

  /** Within one tenant namespace all references to one host object find the same resource. */
  lemma SameTargetSameCopy(f: Engine, st: Stores, src: CorePod, a: ResourceRef, b: ResourceRef, kind: VolumeType, k: Key)
    requires a in RefsOf(src) && b in RefsOf(src) && Writes(f, st, a, kind, k) && Writes(f, st, b, kind, k)
    ensures CopyObject(f, st, a) == CopyObject(f, st, b)
  {
    RefsComeFromTheSource(src);
    ResourceNameIsInjective(src.ns, a.sourceName, b.sourceName);
  }

  /**
   * What pool `f`'s copy for its pod `src` does to the host copy of tenant resource `x` of namespace `a` made by pool
   * `e`, the same pool or another: it changes if and only if the pools share a host namespace and one of
   * the resources of that pod that the tenant has is of this kind, has this host name and is not there already.
   */
  lemma CopyChangesIff(w: World, s: Script, e: Engine, f: Engine, src: CorePod, kind: VolumeType, a: string, x: string)
    requires Quiet(s) && IsResourceKind(kind) && SyncResources(w, s, f, RefsOf(src)).1.None?
    ensures HostCopy(e, SyncResources(w, s, f, RefsOf(src)).0.st, kind, a, x) != HostCopy(e, w.st, kind, a, x) <==>
      exists r :: r in RefsOf(src) && r.kind == kind && Key(src.ns, r.sourceName) in TenantResource(w.st, kind) &&
                  e.pool.ns == f.pool.ns && ResourceName(src.ns, r.sourceName) == ResourceName(a, x) &&
                  HostCopy(e, w.st, kind, a, x) !=
                    Some(HostResource(TenantResource(w.st, kind)[Key(src.ns, r.sourceName)], ResourceLabels(f)))
  {
    var refs, k := RefsOf(src), Key(e.pool.ns, ResourceName(a, x));
    RefsComeFromTheSource(src);
    CopyWrites(w, s, f, refs, kind, k);
    forall r | r in refs
      ensures Writes(f, w.st, r, kind, k) <==>
        (r.kind == kind && Key(src.ns, r.sourceName) in TenantResource(w.st, kind) &&
         e.pool.ns == f.pool.ns && ResourceName(src.ns, r.sourceName) == ResourceName(a, x))
    {
    }
    if i :| 0 <= i < |refs| && Writes(f, w.st, refs[i], kind, k) {
      var n :| 0 <= n < |refs| && LeftBy(f, w.st, refs[n], SyncResources(w, s, f, refs).0.st, kind, k);
      assert refs[n] in refs;
      forall r | r in refs && Writes(f, w.st, r, kind, k) ensures CopyObject(f, w.st, r) == CopyObject(f, w.st, refs[n]) {
        SameTargetSameCopy(f, w.st, src, r, refs[n], kind, k);
      }
    } else {
      forall r | r in refs ensures !Writes(f, w.st, r, kind, k) {
        var n :| 0 <= n < |refs| && refs[n] == r;
      }
    }
  }

  /** Different pools label their copies differently, so between them every write to a shared name is a change. */
  lemma PoolsOverwriteEachOther(w: World, s: Script, e: Engine, f: Engine, src: CorePod, kind: VolumeType, a: string, x: string)
    requires Quiet(s) && IsResourceKind(kind) && e.pool.name != f.pool.name && SyncResources(w, s, f, RefsOf(src)).1.None?
    requires HostCopy(e, w.st, kind, a, x).Some? && HostCopy(e, w.st, kind, a, x).value.labels == ResourceLabels(e)
    ensures HostCopy(e, SyncResources(w, s, f, RefsOf(src)).0.st, kind, a, x) != HostCopy(e, w.st, kind, a, x) <==>
      exists r :: r in RefsOf(src) && r.kind == kind && Key(src.ns, r.sourceName) in TenantResource(w.st, kind) &&
                  e.pool.ns == f.pool.ns && ResourceName(src.ns, r.sourceName) == ResourceName(a, x)
  {
    CopyChangesIff(w, s, e, f, src, kind, a, x);
    assert ResourceLabels(e)[LABEL_VNODE_POOL] != ResourceLabels(f)[LABEL_VNODE_POOL];
  }
}
