/**
 * Safety of the engine over whole runs in which the outside world acts before every API call:
 * finished pods are never run again, and what a pod's volumes name is on the host before the pod is.
 */
module RunSafety {
  import opened Lists
  import opened PodModel
  import opened NodeModel
  import opened CorePods
  import opened Translation
  import opened Drift
  import opened HostKeys
  import opened Clusters
  import opened Execution
  import opened Convergence
  import opened Walks

  /**
   * A pool, the name its nodes derive from, and the tenant namespaces in use. `steadyData` says that
   * tenant ConfigMaps and Secrets change only between passes.
   */
  datatype Setting = Setting(e: Engine, display: string, namespaces: iset<string>, steadyData: bool)

  ghost predicate IsPoolNode(g: Setting, node: string) {
    exists i: nat :: node == NodeName(g.display, i)
  }

  ghost predicate OnPool(g: Setting, pod: CorePod) {
    IsPoolNode(g, pod.nodeName)
  }

  lemma PoolNodeNamesAreNotEmpty(g: Setting, node: string)
    requires IsPoolNode(g, node)
    ensures node != ""
  {
  }

  // ---------- the invariant ----------

  /** No host pod at `k`, or one that has finished. */
  ghost predicate NotRunning(st: Stores, k: Key) {
    k in st.hostPods ==> IsTerminal(st.hostPods[k])
  }

  ghost predicate FinishedStaysFinished(g: Setting, st: Stores) {
    forall tk :: tk in st.tenantPods && OnPool(g, st.tenantPods[tk]) && IsTerminal(st.tenantPods[tk]) ==>
      NotRunning(st, HostKey(g.e, st.tenantPods[tk]))
  }

  ghost predicate NamesAreSane(g: Setting, st: Stores) {
    Coherent(st.tenantPods) &&
    forall tk :: tk in st.tenantPods && OnPool(g, st.tenantPods[tk]) ==> tk.ns in g.namespaces
  }

  ghost predicate Safe(g: Setting, st: Stores) {
    DashPrefixFree(g.namespaces) && NamesAreSane(g, st) && FinishedStaysFinished(g, st)
  }

  /** At the moment of creation no finished tenant pod of the pool owned the key. */
  ghost predicate NotARerun(g: Setting, c: Creation) {
    forall tk ::
      (tk in c.at.tenantPods && OnPool(g, c.at.tenantPods[tk]) && HostKey(g.e, c.at.tenantPods[tk]) == KeyOf(c.pod))
      ==> !IsTerminal(c.at.tenantPods[tk])
  }

  /** The host holds tenant resource `name` of `ns`, under its host name and with the tenant's data, if the tenant has it. */
  ghost predicate InPlace(e: Engine, st: Stores, kind: VolumeType, ns: string, name: string) {
    Key(ns, name) in TenantResource(st, kind) ==>
      var k := Key(e.pool.ns, ResourceName(ns, name));
      k in HostResourceOf(st, kind) && HostResourceOf(st, kind)[k].payload == TenantResource(st, kind)[Key(ns, name)]
  }

  /** Everything the created pod's volumes will look up is in place at the moment of creation. */
  ghost predicate ResourcesInPlace(g: Setting, c: Creation) {
    LABEL_SOURCE_POD_NS in c.pod.labels &&
    var ns := c.pod.labels[LABEL_SOURCE_POD_NS];
    forall v, name :: v in c.pod.volumes ==>
      && (v.configMap == Some(ResourceName(ns, name)) ==> InPlace(g.e, c.at, ConfigMap, ns, name))
      && (v.secret == Some(ResourceName(ns, name)) ==> InPlace(g.e, c.at, Secret, ns, name))
  }

  /** The host holds this payload under the host name of tenant resource `name` of `ns`. */
  ghost predicate HostHas(e: Engine, st: Stores, kind: VolumeType, ns: string, name: string, payload: Payload) {
    HostCopy(e, st, kind, ns, name).Some? && HostCopy(e, st, kind, ns, name).value.payload == payload
  }

  ghost function HostCopy(e: Engine, st: Stores, kind: VolumeType, ns: string, name: string): Option<HostResource> {
    At(HostResourceOf(st, kind), Key(e.pool.ns, ResourceName(ns, name)))
  }

  /** The copy for this pod looked the resource up, and what it then found is on the host. */
  ghost predicate CopiedAt(e: Engine, c: Creation, kind: VolumeType, ns: string, name: string) {
    (kind, Key(ns, name)) in c.copied &&
    (c.copied[(kind, Key(ns, name))].Some? ==> HostHas(e, c.at, kind, ns, name, c.copied[(kind, Key(ns, name))].value))
  }

  /** Everything the created pod's volumes will look up was copied for this pod and is on the host as it was read. */
  ghost predicate CopiedInPlace(g: Setting, c: Creation) {
    LABEL_SOURCE_POD_NS in c.pod.labels &&
    var ns := c.pod.labels[LABEL_SOURCE_POD_NS];
    forall v, name :: v in c.pod.volumes ==>
      && (v.configMap == Some(ResourceName(ns, name)) ==> CopiedAt(g.e, c, ConfigMap, ns, name))
      && (v.secret == Some(ResourceName(ns, name)) ==> CopiedAt(g.e, c, Secret, ns, name))
  }

  ghost predicate GoodLog(g: Setting, log: seq<Creation>) {
    forall i :: 0 <= i < |log| ==>
      NotARerun(g, log[i]) && CopiedInPlace(g, log[i]) && (g.steadyData ==> ResourcesInPlace(g, log[i]))
  }

  // ---------- what the outside world may do ----------

  /** The host keys of pods on the pool's nodes. */
  ghost predicate IsPoolKey(g: Setting, k: Key) {
    exists node, ns, name :: IsPoolNode(g, node) && k == Key(g.e.pool.ns, HostName(node, ns, name))
  }

  /** The host names of the tenant's ConfigMaps and Secrets. */
  ghost predicate IsPoolResource(g: Setting, k: Key) {
    exists ns, name :: ns in g.namespaces && k == Key(g.e.pool.ns, ResourceName(ns, name))
  }

  lemma HostKeyIsPoolKey(g: Setting, pod: CorePod)
    requires OnPool(g, pod)
    ensures IsPoolKey(g, HostKey(g.e, pod))
  {
  }

  /**
   * During a pass that started with tenant keys `T`, a key of `T` is not reused, pool nodes get pods of
   * known namespaces, and others create host objects under other names than this pool does.
   */
  ghost predicate Fair(g: Setting, T: set<Key>, a: EnvAction) {
    match a
    case TenantCreated(pod) => KeyOf(pod) !in T && (OnPool(g, pod) ==> pod.ns in g.namespaces)
    case TenantBound(k, node) => IsPoolNode(g, node) ==> k.ns in g.namespaces
    case HostCreated(k, _) => !IsPoolKey(g, k)
    case HostWritten(_, k, _) => !IsPoolResource(g, k)
    case _ => true
  }

  ghost predicate FairScript(g: Setting, T: set<Key>, s: Script) {
    && (forall n: nat, a :: a in s.env(n) ==> Fair(g, T, a))
    && (g.steadyData ==> forall n: nat, a :: a in s.env(n) ==> !a.TenantResources?)
  }

  /** Same pod, perhaps bound, edited or marked for deletion in between; a finished or bound pod keeps its node. */
  ghost predicate SamePod(p: CorePod, q: CorePod) {
    q == p.(deleting := q.deleting, nodeName := q.nodeName, labels := q.labels, containers := q.containers) &&
    (p.nodeName != "" || IsTerminal(p) ==> q.nodeName == p.nodeName)
  }

  ghost predicate TenantPodRely(g: Setting, T: set<Key>, a: Stores, b: Stores, tk: Key)
    requires tk in b.tenantPods
  {
    || (tk in a.tenantPods && SamePod(a.tenantPods[tk], b.tenantPods[tk]) &&
        (b.tenantPods[tk].nodeName == a.tenantPods[tk].nodeName || (OnPool(g, b.tenantPods[tk]) ==> tk.ns in g.namespaces)))
    || (tk !in T && KeyOf(b.tenantPods[tk]) == tk && !IsTerminal(b.tenantPods[tk]) &&
        (OnPool(g, b.tenantPods[tk]) ==> tk.ns in g.namespaces))
  }

  ghost predicate HostRely(g: Setting, a: Stores, b: Stores) {
    forall k :: k in b.hostPods && IsPoolKey(g, k) ==>
      k in a.hostPods && (IsTerminal(a.hostPods[k]) ==> IsTerminal(b.hostPods[k]))
  }

  /** The pool's copies of tenant resources are as they were. */
  ghost predicate CopiesRely(g: Setting, a: Stores, b: Stores) {
    forall kind, ns, name :: IsResourceKind(kind) && ns in g.namespaces ==>
      HostCopy(g.e, a, kind, ns, name) == HostCopy(g.e, b, kind, ns, name)
  }

  ghost predicate DataRely(g: Setting, a: Stores, b: Stores) {
    g.steadyData ==> a.tenantMaps == b.tenantMaps && a.tenantSecrets == b.tenantSecrets
  }

  /** Everything the outside world may have changed between two moments of a pass. */
  ghost predicate Rely(g: Setting, T: set<Key>, a: Stores, b: Stores) {
    && HostRely(g, a, b) && DataRely(g, a, b)
    && forall tk :: tk in b.tenantPods ==> TenantPodRely(g, T, a, b, tk)
  }

  lemma UntouchedTenantRely(g: Setting, T: set<Key>, a: Stores, b: Stores, tk: Key)
    requires tk in a.tenantPods && tk in b.tenantPods && a.tenantPods[tk] == b.tenantPods[tk]
    ensures TenantPodRely(g, T, a, b, tk)
  {
  }

  lemma EnvStepKeepsData(g: Setting, T: set<Key>, st: Stores, a: EnvAction)
    requires Fair(g, T, a) && (g.steadyData ==> !a.TenantResources?)
    ensures DataRely(g, st, EnvStep(st, a)) && CopiesRely(g, st, EnvStep(st, a))
  {
    if a.HostWritten? {
      ForeignResourceKeepsCopies(g, st, a.kind, a.key, a.resource);
    } else {
      EnvStepKeepsHostData(st, a);
      SameCopiesRely(g, st, EnvStep(st, a));
    }
  }

  lemma EnvStepKeepsHostData(st: Stores, a: EnvAction)
    requires !a.HostWritten?
    ensures EnvStep(st, a).hostMaps == st.hostMaps && EnvStep(st, a).hostSecrets == st.hostSecrets
  {
  }

  lemma SameCopiesRely(g: Setting, a: Stores, b: Stores)
    requires a.hostMaps == b.hostMaps && a.hostSecrets == b.hostSecrets
    ensures CopiesRely(g, a, b)
  {
  }

  lemma ForeignResourceKeepsCopies(g: Setting, st: Stores, kind: VolumeType, k: Key, r: HostResource)
    requires !IsPoolResource(g, k)
    ensures CopiesRely(g, st, PutResource(st, kind, k, r))
  {
    forall ns, name | ns in g.namespaces ensures Key(g.e.pool.ns, ResourceName(ns, name)) != k {
    }
  }

  lemma EnvStepHost(g: Setting, T: set<Key>, st: Stores, a: EnvAction)
    requires Fair(g, T, a)
    ensures HostRely(g, st, EnvStep(st, a))
  {
    match a
    case HostStatus(k, status) => HostStatusRely(g, st, k, status);
    case HostEvicted(k) => HostEvictedRely(g, st, k);
    case HostRemoved(k) => HostRemovedRely(g, st, k);
    case HostCreated(k, pod) => ForeignPodRely(g, st, k, pod);
    case _ => assert EnvStep(st, a).hostPods == st.hostPods;
  }

  lemma HostStatusRely(g: Setting, st: Stores, k: Key, status: CoreStatus)
    ensures HostRely(g, st, EnvStep(st, HostStatus(k, status)))
  {
  }

  lemma HostEvictedRely(g: Setting, st: Stores, k: Key)
    ensures HostRely(g, st, EnvStep(st, HostEvicted(k)))
  {
  }

  lemma HostRemovedRely(g: Setting, st: Stores, k: Key)
    ensures HostRely(g, st, EnvStep(st, HostRemoved(k)))
  {
  }

  lemma ForeignPodRely(g: Setting, st: Stores, k: Key, pod: CorePod)
    requires !IsPoolKey(g, k)
    ensures HostRely(g, st, EnvStep(st, HostCreated(k, pod)))
  {
  }

  lemma EnvStepTenant(g: Setting, T: set<Key>, st: Stores, a: EnvAction, tk: Key)
    requires Fair(g, T, a) && tk in EnvStep(st, a).tenantPods
    ensures TenantPodRely(g, T, st, EnvStep(st, a), tk)
  {
    var b := EnvStep(st, a);
    if tk in st.tenantPods && b.tenantPods[tk] == st.tenantPods[tk] {
      UntouchedTenantRely(g, T, st, b, tk);
    } else {
      match a
      case TenantCreated(pod) => assert b.tenantPods[tk] == pod;
      case TenantBound(k, node) => assert b.tenantPods[tk] == st.tenantPods[k].(nodeName := node);
      case TenantEdited(k, labels, containers) =>
        assert b.tenantPods[tk] == st.tenantPods[k].(labels := labels, containers := containers);
      case TenantDeleted(k) => assert b.tenantPods[tk] == st.tenantPods[k].(deleting := true);
      case _ =>
    }
  }

  lemma EnvStepRely(g: Setting, T: set<Key>, st: Stores, a: EnvAction)
    requires Fair(g, T, a) && (g.steadyData ==> !a.TenantResources?)
    ensures Rely(g, T, st, EnvStep(st, a)) && CopiesRely(g, st, EnvStep(st, a))
  {
    EnvStepKeepsData(g, T, st, a);
    EnvStepHost(g, T, st, a);
    forall tk | tk in EnvStep(st, a).tenantPods ensures TenantPodRely(g, T, st, EnvStep(st, a), tk) {
      EnvStepTenant(g, T, st, a, tk);
    }
  }

  lemma RelyTrans(g: Setting, T: set<Key>, a: Stores, b: Stores, c: Stores)
    requires Rely(g, T, a, b) && Rely(g, T, b, c)
    ensures Rely(g, T, a, c)
  {
  }

  lemma CopiesTrans(g: Setting, a: Stores, b: Stores, c: Stores)
    requires CopiesRely(g, a, b) && CopiesRely(g, b, c)
    ensures CopiesRely(g, a, c)
  {
    forall kind, ns, name | IsResourceKind(kind) && ns in g.namespaces
      ensures HostCopy(g.e, a, kind, ns, name) == HostCopy(g.e, c, kind, ns, name)
    {
      assert HostCopy(g.e, a, kind, ns, name) == HostCopy(g.e, b, kind, ns, name);
    }
  }

  lemma {:induction false} EnvStepsRely(g: Setting, T: set<Key>, st: Stores, actions: seq<EnvAction>)
    requires forall a :: a in actions ==> Fair(g, T, a) && (g.steadyData ==> !a.TenantResources?)
    ensures Rely(g, T, st, EnvSteps(st, actions)) && CopiesRely(g, st, EnvSteps(st, actions))
  {
    if actions != [] {
      var n := |actions| - 1;
      var mid := EnvSteps(st, actions[..n]);
      EnvStepsRely(g, T, st, actions[..n]);
      EnvStepRely(g, T, mid, actions[n]);
      RelyTrans(g, T, st, mid, EnvStep(mid, actions[n]));
      CopiesTrans(g, st, mid, EnvStep(mid, actions[n]));
    }
  }

  lemma TickRely(g: Setting, T: set<Key>, w: World, s: Script)
    requires FairScript(g, T, s)
    ensures Rely(g, T, w.st, Tick(w, s).st) && CopiesRely(g, w.st, Tick(w, s).st)
  {
    EnvStepsRely(g, T, w.st, s.env(w.calls));
  }

  lemma RelyKeepsSafe(g: Setting, T: set<Key>, a: Stores, b: Stores)
    requires Safe(g, a) && Rely(g, T, a, b)
    ensures Safe(g, b)
  {
    forall tk | tk in b.tenantPods && OnPool(g, b.tenantPods[tk]) && IsTerminal(b.tenantPods[tk])
      ensures NotRunning(b, HostKey(g.e, b.tenantPods[tk]))
    {
      assert TenantPodRely(g, T, a, b, tk);
      HostKeyIsPoolKey(g, b.tenantPods[tk]);
    }
  }

  // ---------- following one source through a pass ----------

  /** Tenant pods changed only as the outside world may change them. */
  ghost predicate TenantRely(g: Setting, T: set<Key>, a: Stores, b: Stores) {
    forall tk :: tk in b.tenantPods ==> TenantPodRely(g, T, a, b, tk)
  }

  lemma TenantRelyTrans(g: Setting, T: set<Key>, a: Stores, b: Stores, c: Stores)
    requires TenantRely(g, T, a, b) && TenantRely(g, T, b, c)
    ensures TenantRely(g, T, a, c)
  {
  }

  /** The listed source is a pod of this pool and the tenant has it as listed, or no longer has it. */
  ghost predicate Unwritten(g: Setting, T: set<Key>, st: Stores, src: CorePod) {
    && KeyOf(src) in T && OnPool(g, src) && src.ns in g.namespaces
    && (KeyOf(src) in st.tenantPods ==>
          st.tenantPods[KeyOf(src)].nodeName == src.nodeName && st.tenantPods[KeyOf(src)].status == src.status)
  }

  lemma UnwrittenIsStable(g: Setting, T: set<Key>, a: Stores, b: Stores, src: CorePod)
    requires Unwritten(g, T, a, src) && TenantRely(g, T, a, b)
    ensures Unwritten(g, T, b, src)
  {
  }

  /** On the pool only one tenant pod can own a source's host key: the source itself. */
  lemma SoleOwner(g: Setting, T: set<Key>, st: Stores, src: CorePod, tk: Key)
    requires Safe(g, st) && Unwritten(g, T, st, src)
    requires tk in st.tenantPods && OnPool(g, st.tenantPods[tk]) && HostKey(g.e, st.tenantPods[tk]) == HostKey(g.e, src)
    ensures tk == KeyOf(src)
  {
    var t := st.tenantPods[tk];
    var i: nat :| t.nodeName == NodeName(g.display, i);
    var j: nat :| src.nodeName == NodeName(g.display, j);
    HostNameIsInjective(g.display, g.namespaces, i, t.ns, t.name, j, src.ns, src.name);
  }

  // ---------- resources ----------

  lemma ResourceNameIsInjective(ns: string, a: string, b: string)
    requires ResourceName(ns, a) == ResourceName(ns, b)
    ensures a == b
  {
    CancelPrefix(ns + "-", a, b);
  }

  predicate RefsFrom(ns: string, refs: seq<ResourceRef>) {
    forall r :: r in refs ==> r.sourceNs == ns && r.targetName == ResourceName(ns, r.sourceName) && IsResourceKind(r.kind)
  }

  /** The current copy looked the resource up and what it found is on the host; steady data is then also what the tenant has. */
  ghost predicate Copied(g: Setting, w: World, kind: VolumeType, ns: string, name: string) {
    && (kind, Key(ns, name)) in w.seen
    && (w.seen[(kind, Key(ns, name))].Some? ==> HostHas(g.e, w.st, kind, ns, name, w.seen[(kind, Key(ns, name))].value))
    && (g.steadyData ==> w.seen[(kind, Key(ns, name))] == At(TenantResource(w.st, kind), Key(ns, name)))
  }

  /** What was copied stays copied. */
  ghost predicate CopiesKept(g: Setting, ns: string, a: World, b: World) {
    forall kind, name :: IsResourceKind(kind) && Copied(g, a, kind, ns, name) ==> Copied(g, b, kind, ns, name)
  }

  lemma CopiesKeptTrans(g: Setting, ns: string, a: World, b: World, c: World)
    requires CopiesKept(g, ns, a, b) && CopiesKept(g, ns, b, c)
    ensures CopiesKept(g, ns, a, c)
  {
  }

  lemma SameCopies(g: Setting, a: World, b: World, kind: VolumeType, ns: string, name: string)
    requires a.seen == b.seen && HostCopy(g.e, a.st, kind, ns, name) == HostCopy(g.e, b.st, kind, ns, name)
    requires DataRely(g, a.st, b.st)
    ensures Copied(g, a, kind, ns, name) ==> Copied(g, b, kind, ns, name)
  {
  }

  lemma TickKeepsCopies(g: Setting, T: set<Key>, w: World, s: Script, ns: string)
    requires FairScript(g, T, s) && ns in g.namespaces
    ensures CopiesKept(g, ns, w, Tick(w, s))
  {
    TickRely(g, T, w, s);
    forall kind, name | IsResourceKind(kind) && Copied(g, w, kind, ns, name) ensures Copied(g, Tick(w, s), kind, ns, name) {
      assert HostCopy(g.e, w.st, kind, ns, name) == HostCopy(g.e, Tick(w, s).st, kind, ns, name);
      SameCopies(g, w, Tick(w, s), kind, ns, name);
    }
  }

  /** What is read first and written two ticks later: the copy of one resource. */
  ghost predicate CopyOf(g: Setting, w: World, r: ResourceRef, ns: string, payload: Payload) {
    && r.sourceNs == ns && r.targetName == ResourceName(ns, r.sourceName) && IsResourceKind(r.kind)
    && (r.kind, Key(ns, r.sourceName)) in w.seen && w.seen[(r.kind, Key(ns, r.sourceName))] == Some(payload)
    && (g.steadyData ==> At(TenantResource(w.st, r.kind), Key(ns, r.sourceName)) == Some(payload))
  }

  lemma PutCopies(g: Setting, w: World, r: ResourceRef, ns: string, payload: Payload)
    requires CopyOf(g, w, r, ns, payload)
    ensures var v := Put(w, r.kind, Key(g.e.pool.ns, r.targetName), HostResource(payload, ResourceLabels(g.e)));
      && Copied(g, v, r.kind, ns, r.sourceName)
      && (forall kind, name :: IsResourceKind(kind) && (kind != r.kind || name != r.sourceName) && Copied(g, w, kind, ns, name) ==>
            Copied(g, v, kind, ns, name))
  {
    var v := Put(w, r.kind, Key(g.e.pool.ns, r.targetName), HostResource(payload, ResourceLabels(g.e)));
    forall kind, name | IsResourceKind(kind) && (kind != r.kind || name != r.sourceName) && Copied(g, w, kind, ns, name)
      ensures Copied(g, v, kind, ns, name)
    {
      if ResourceName(ns, name) == ResourceName(ns, r.sourceName) {
        ResourceNameIsInjective(ns, name, r.sourceName);
      }
      SameCopies(g, w, v, kind, ns, name);
    }
  }

  /** Copied before, or the resource being copied now. */
  ghost predicate CopiesKeptBut(g: Setting, ns: string, r: ResourceRef, a: World, b: World) {
    forall kind, name :: IsResourceKind(kind) && (kind != r.kind || name != r.sourceName) && Copied(g, a, kind, ns, name) ==>
      Copied(g, b, kind, ns, name)
  }

  lemma EnsureResourceSafe(g: Setting, T: set<Key>, w: World, s: Script, ns: string, r: ResourceRef, payload: Payload)
    requires FairScript(g, T, s) && ns in g.namespaces && CopyOf(g, w, r, ns, payload)
    ensures var (v, failure) :=
              EnsureResource(w, s, r.kind, Key(g.e.pool.ns, r.targetName), HostResource(payload, ResourceLabels(g.e)));
      && Rely(g, T, w.st, v.st) && v.log == w.log
      && (failure.None? ==> CopiesKeptBut(g, ns, r, w, v) && Copied(g, v, r.kind, ns, r.sourceName))
  {
    var w1 := Tick(w, s);
    var w2 := Tick(w1, s);
    TickRely(g, T, w, s);
    TickRely(g, T, w1, s);
    RelyTrans(g, T, w.st, w1.st, w2.st);
    TickKeepsCopies(g, T, w, s, ns);
    TickKeepsCopies(g, T, w1, s, ns);
    CopiesKeptTrans(g, ns, w, w1, w2);
    var v := Put(w2, r.kind, Key(g.e.pool.ns, r.targetName), HostResource(payload, ResourceLabels(g.e)));
    PutCopies(g, w2, r, ns, payload);
    PutRely(g, T, w.st, w2.st, r.kind, Key(g.e.pool.ns, r.targetName), HostResource(payload, ResourceLabels(g.e)));
    assert CopiesKeptBut(g, ns, r, w, v);
  }

  lemma PutRely(g: Setting, T: set<Key>, a: Stores, b: Stores, kind: VolumeType, k: Key, r: HostResource)
    requires Rely(g, T, a, b)
    ensures Rely(g, T, a, PutResource(b, kind, k, r))
  {
  }

  /** One reference: looked up, and copied if it is there. */
  lemma LookupSafe(g: Setting, T: set<Key>, w: World, s: Script, ns: string, r: ResourceRef)
    requires FairScript(g, T, s) && ns in g.namespaces && RefsFrom(ns, [r])
    ensures var (v, reply) := GetTenantResource(w, s, r.kind, Key(ns, r.sourceName));
      && Rely(g, T, w.st, v.st) && v.log == w.log && CopiesKeptBut(g, ns, r, w, v)
      && (reply.NotFound? ==> Copied(g, v, r.kind, ns, r.sourceName))
      && (reply.Got? ==> CopyOf(g, v, r, ns, reply.value))
  {
    assert r in [r];
    TickRely(g, T, w, s);
    TickKeepsCopies(g, T, w, s, ns);
    var (v, reply) := GetTenantResource(w, s, r.kind, Key(ns, r.sourceName));
    forall kind, name | IsResourceKind(kind) && (kind != r.kind || name != r.sourceName) && Copied(g, w, kind, ns, name)
      ensures Copied(g, v, kind, ns, name)
    {
      assert Copied(g, Tick(w, s), kind, ns, name);
    }
  }

  lemma StepKeepsCopies(g: Setting, ns: string, r: ResourceRef, a: World, b: World, c: World)
    requires CopiesKeptBut(g, ns, r, a, b) && CopiesKeptBut(g, ns, r, b, c) && Copied(g, c, r.kind, ns, r.sourceName)
    ensures CopiesKept(g, ns, a, c)
  {
  }

  lemma RefStepSafe(g: Setting, T: set<Key>, w: World, s: Script, ns: string, r: ResourceRef, payload: Payload)
    requires FairScript(g, T, s) && ns in g.namespaces && RefsFrom(ns, [r])
    requires GetTenantResource(w, s, r.kind, Key(ns, r.sourceName)).1 == Got(payload)
    ensures var w1 := GetTenantResource(w, s, r.kind, Key(ns, r.sourceName)).0;
      var (w2, failure) := EnsureResource(w1, s, r.kind, Key(g.e.pool.ns, r.targetName), HostResource(payload, ResourceLabels(g.e)));
      && Rely(g, T, w.st, w2.st) && w2.log == w.log
      && (failure.None? ==> CopiesKept(g, ns, w, w2) && Copied(g, w2, r.kind, ns, r.sourceName))
  {
    var w1 := GetTenantResource(w, s, r.kind, Key(ns, r.sourceName)).0;
    LookupSafe(g, T, w, s, ns, r);
    EnsureResourceSafe(g, T, w1, s, ns, r, payload);
    var (w2, failure) := EnsureResource(w1, s, r.kind, Key(g.e.pool.ns, r.targetName), HostResource(payload, ResourceLabels(g.e)));
    RelyTrans(g, T, w.st, w1.st, w2.st);
    if failure.None? {
      StepKeepsCopies(g, ns, r, w, w1, w2);
    }
  }

  lemma {:induction false} SyncResourcesSafe(g: Setting, T: set<Key>, w: World, s: Script, ns: string, refs: seq<ResourceRef>)
    requires FairScript(g, T, s) && ns in g.namespaces && RefsFrom(ns, refs)
    ensures var (v, failure) := SyncResources(w, s, g.e, refs);
      && Rely(g, T, w.st, v.st) && v.log == w.log
      && (failure.None? ==> CopiesKept(g, ns, w, v) && forall r :: r in refs ==> Copied(g, v, r.kind, ns, r.sourceName))
    decreases |refs|
  {
    if refs == [] {
      assert forall tk :: tk in w.st.tenantPods ==> TenantPodRely(g, T, w.st, w.st, tk);
    } else {
      var r := refs[0];
      assert refs == [r] + refs[1..] && r in refs;
      var (w1, reply) := GetTenantResource(w, s, r.kind, Key(r.sourceNs, r.sourceName));
      LookupSafe(g, T, w, s, ns, r);
      match reply
      case Err(_) =>
      case NotFound =>
        assert CopiesKept(g, ns, w, w1);
        RestSafe(g, T, w, w1, s, ns, refs);
      case Got(payload) =>
        RefStepSafe(g, T, w, s, ns, r, payload);
        var (w2, failure) :=
          EnsureResource(w1, s, r.kind, Key(g.e.pool.ns, r.targetName), HostResource(payload, ResourceLabels(g.e)));
        if failure.None? {
          RestSafe(g, T, w, w2, s, ns, refs);
        }
    }
  }

  /** The remaining references, once the first one is copied. */
  lemma RestSafe(g: Setting, T: set<Key>, w: World, u: World, s: Script, ns: string, refs: seq<ResourceRef>)
    requires FairScript(g, T, s) && ns in g.namespaces && RefsFrom(ns, refs) && refs != []
    requires Rely(g, T, w.st, u.st) && u.log == w.log && CopiesKept(g, ns, w, u) && Copied(g, u, refs[0].kind, ns, refs[0].sourceName)
    ensures var (v, failure) := SyncResources(u, s, g.e, refs[1..]);
      && Rely(g, T, w.st, v.st) && v.log == w.log
      && (failure.None? ==> CopiesKept(g, ns, w, v) && forall r :: r in refs ==> Copied(g, v, r.kind, ns, r.sourceName))
    decreases |refs|, 0
  {
    SyncResourcesSafe(g, T, u, s, ns, refs[1..]);
    var (v, failure) := SyncResources(u, s, g.e, refs[1..]);
    RelyTrans(g, T, w.st, u.st, v.st);
    if failure.None? {
      CopiesKeptTrans(g, ns, w, u, v);
      assert refs[0] in refs && IsResourceKind(refs[0].kind);
      forall r | r in refs ensures Copied(g, v, r.kind, ns, r.sourceName) {
        assert r == refs[0] || r in refs[1..];
      }
    }
  }

  /** The references copied for a source cover every ConfigMap and Secret its host pod's volumes name. */
  lemma CreatedVolumesAreReferenced(e: Engine, src: CorePod, v: CoreVolume, name: string)
    requires v in Stored(Wanted(e, src)).volumes
    ensures v.configMap == Some(ResourceName(src.ns, name)) ==> exists r :: r in RefsOf(src) && r.kind.ConfigMap? && r.sourceName == name
    ensures v.secret == Some(ResourceName(src.ns, name)) ==> exists r :: r in RefsOf(src) && r.kind.Secret? && r.sourceName == name
  {
    var vols := SourceOf(src).volumes;
    var want := Wanted(e, src).volumes;
    var i :| 0 <= i < |want| && VolumeToCore(want[i]) == v;
    if IsResource(want[i]) {
      RefsMatchTargetVolumes(vols, src.ns);
      var named := Filter(IsResource, want);
      assert want[i] in named;
      var j :| 0 <= j < |named| && named[j] == want[i];
      var r := RefsOf(src)[j];
      assert Map(RefTarget, RefsOf(src))[j] == Map(NamedResource, named)[j];
      assert r.kind == want[i].kind && r.targetName == want[i].source;
      assert r.targetName == ResourceName(src.ns, r.sourceName);
      if want[i].source == ResourceName(src.ns, name) {
        ResourceNameIsInjective(src.ns, name, r.sourceName);
      }
      assert r in RefsOf(src);
    }
  }

  lemma RefsComeFromTheSource(src: CorePod)
    ensures RefsFrom(src.ns, RefsOf(src))
  {
    var kept := Filter(IsResource, SourceOf(src).volumes);
    forall r | r in RefsOf(src) ensures r.sourceNs == src.ns && r.targetName == ResourceName(src.ns, r.sourceName) && IsResourceKind(r.kind) {
      var i :| 0 <= i < |RefsOf(src)| && RefsOf(src)[i] == r;
      assert kept[i] in kept;
    }
  }

  ghost predicate RefsCopied(g: Setting, w: World, src: CorePod) {
    forall r :: r in RefsOf(src) ==> Copied(g, w, r.kind, src.ns, r.sourceName)
  }

  lemma CopiedMeansInPlace(g: Setting, w: World, c: Creation, kind: VolumeType, ns: string, name: string)
    requires Copied(g, w, kind, ns, name) && c.at == w.st && c.copied == w.seen
    ensures CopiedAt(g.e, c, kind, ns, name) && (g.steadyData ==> InPlace(g.e, c.at, kind, ns, name))
  {
  }

  /** What a volume names is copied and, if data is steady, in place. */
  ghost predicate VolumeServed(g: Setting, c: Creation, v: CoreVolume, ns: string, name: string) {
    && (v.configMap == Some(ResourceName(ns, name)) ==>
          CopiedAt(g.e, c, ConfigMap, ns, name) && (g.steadyData ==> InPlace(g.e, c.at, ConfigMap, ns, name)))
    && (v.secret == Some(ResourceName(ns, name)) ==>
          CopiedAt(g.e, c, Secret, ns, name) && (g.steadyData ==> InPlace(g.e, c.at, Secret, ns, name)))
  }

  lemma VolumesServed(g: Setting, c: Creation, ns: string)
    requires LABEL_SOURCE_POD_NS in c.pod.labels && c.pod.labels[LABEL_SOURCE_POD_NS] == ns
    requires forall v, name :: v in c.pod.volumes ==> VolumeServed(g, c, v, ns, name)
    ensures CopiedInPlace(g, c) && (g.steadyData ==> ResourcesInPlace(g, c))
  {
    forall v, name | v in c.pod.volumes
      ensures v.configMap == Some(ResourceName(ns, name)) ==> CopiedAt(g.e, c, ConfigMap, ns, name)
      ensures v.secret == Some(ResourceName(ns, name)) ==> CopiedAt(g.e, c, Secret, ns, name)
      ensures g.steadyData && v.configMap == Some(ResourceName(ns, name)) ==> InPlace(g.e, c.at, ConfigMap, ns, name)
      ensures g.steadyData && v.secret == Some(ResourceName(ns, name)) ==> InPlace(g.e, c.at, Secret, ns, name)
    {
      assert VolumeServed(g, c, v, ns, name);
    }
  }

  lemma VolumeHasResource(g: Setting, w: World, src: CorePod, c: Creation, v: CoreVolume, name: string)
    requires RefsCopied(g, w, src) && c.at == w.st && c.copied == w.seen && v in Stored(Wanted(g.e, src)).volumes
    ensures VolumeServed(g, c, v, src.ns, name)
  {
    CreatedVolumesAreReferenced(g.e, src, v, name);
    if v.configMap == Some(ResourceName(src.ns, name)) {
      CopiedMeansInPlace(g, w, c, ConfigMap, src.ns, name);
    }
    if v.secret == Some(ResourceName(src.ns, name)) {
      CopiedMeansInPlace(g, w, c, Secret, src.ns, name);
    }
  }

  lemma CreationHasResources(g: Setting, w: World, src: CorePod)
    requires RefsCopied(g, w, src)
    ensures var c := Creation(Stored(Wanted(g.e, src)), w.st, w.seen);
      CopiedInPlace(g, c) && (g.steadyData ==> ResourcesInPlace(g, c))
  {
    var c := Creation(Stored(Wanted(g.e, src)), w.st, w.seen);
    assert LABEL_SOURCE_POD_NS in c.pod.labels && c.pod.labels[LABEL_SOURCE_POD_NS] == src.ns by {
      SystemLabelsWin(SourceOf(src), Opts(g.e, src.nodeName));
    }
    forall v, name | v in c.pod.volumes ensures VolumeServed(g, c, v, src.ns, name) {
      VolumeHasResource(g, w, src, c, v, name);
    }
    VolumesServed(g, c, src.ns);
  }

  lemma CreateIsSafe(g: Setting, T: set<Key>, w: World, src: CorePod)
    requires Safe(g, w.st) && GoodLog(g, w.log) && Unwritten(g, T, w.st, src) && !IsTerminal(src) && RefsCopied(g, w, src)
    ensures var b := Create(w, Wanted(g.e, src)); Safe(g, b.st) && GoodLog(g, b.log)
  {
    var b := Create(w, Wanted(g.e, src));
    var k := HostKey(g.e, src);
    forall tk | tk in w.st.tenantPods && OnPool(g, w.st.tenantPods[tk]) && IsTerminal(w.st.tenantPods[tk])
      ensures HostKey(g.e, w.st.tenantPods[tk]) != k
    {
      if HostKey(g.e, w.st.tenantPods[tk]) == k { SoleOwner(g, T, w.st, src, tk); }
    }
    assert NotARerun(g, Creation(Stored(Wanted(g.e, src)), w.st, w.seen));
    CreationHasResources(g, w, src);
  }

  lemma MarkDeletingIsSafe(g: Setting, st: Stores, k: Key)
    requires Safe(g, st)
    ensures Safe(g, MarkDeleting(st, k))
  {
  }

  /** One tick: everything the proof of a call needs. */
  lemma TickIsSafe(g: Setting, T: set<Key>, w: World, s: Script, src: CorePod)
    requires FairScript(g, T, s) && Safe(g, w.st) && RefsCopied(g, w, src) && src.ns in g.namespaces
    ensures var b := Tick(w, s).st; Safe(g, b) && TenantRely(g, T, w.st, b) && HostRely(g, w.st, b)
    ensures RefsCopied(g, Tick(w, s), src)
    ensures Unwritten(g, T, w.st, src) ==> Unwritten(g, T, Tick(w, s).st, src)
  {
    TickRely(g, T, w, s);
    RelyKeepsSafe(g, T, w.st, Tick(w, s).st);
    TickKeepsCopies(g, T, w, s, src.ns);
    RefsComeFromTheSource(src);
    if Unwritten(g, T, w.st, src) { UnwrittenIsStable(g, T, w.st, Tick(w, s).st, src); }
  }

  lemma EnsureIsSafe(g: Setting, T: set<Key>, w: World, s: Script, src: CorePod)
    requires FairScript(g, T, s) && Safe(g, w.st) && GoodLog(g, w.log)
    requires Unwritten(g, T, w.st, src) && !IsTerminal(src) && RefsCopied(g, w, src)
    ensures var r := EnsureHostPod(w, s, Wanted(g.e, src));
      Safe(g, r.w.st) && GoodLog(g, r.w.log) && TenantRely(g, T, w.st, r.w.st)
  {
    var w1 := Tick(w, s);
    TickIsSafe(g, T, w, s, src);
    CreateOrDeleteIsSafe(g, T, w1, s, src);
    var r := EnsureHostPod(w, s, Wanted(g.e, src));
    EnsureEndsIn(w, s, g.e, src);
    if r.w != w1 {
      TenantRelyTrans(g, T, w.st, w1.st, r.w.st);
    }
  }

  /** Ensuring a pod is a read, perhaps followed by a creation or a deletion. */
  lemma EnsureEndsIn(w: World, s: Script, e: Engine, src: CorePod)
    ensures var r := EnsureHostPod(w, s, Wanted(e, src)); var w1 := Tick(w, s);
      r.w == w1 || r.w == CreatePod(w1, s, Wanted(e, src)).0 || r.w == DeletePod(w1, s, HostKey(e, src)).0
  {
  }

  lemma CreateOrDeleteIsSafe(g: Setting, T: set<Key>, w: World, s: Script, src: CorePod)
    requires FairScript(g, T, s) && Safe(g, w.st) && GoodLog(g, w.log)
    requires Unwritten(g, T, w.st, src) && !IsTerminal(src) && RefsCopied(g, w, src)
    ensures var v := CreatePod(w, s, Wanted(g.e, src)).0; Safe(g, v.st) && GoodLog(g, v.log) && TenantRely(g, T, w.st, v.st)
    ensures var v := DeletePod(w, s, HostKey(g.e, src)).0; Safe(g, v.st) && v.log == w.log && TenantRely(g, T, w.st, v.st)
  {
    var w1 := Tick(w, s);
    TickIsSafe(g, T, w, s, src);
    CreateIsSafe(g, T, w1, src);
    MarkDeletingIsSafe(g, w1.st, HostKey(g.e, src));
  }

  /** The keys of `T` other than `own` were touched only by the outside world. */
  ghost predicate OthersKept(T: set<Key>, a: Stores, b: Stores, own: Key) {
    forall tk :: tk in T && tk != own && tk in b.tenantPods ==> tk in a.tenantPods && SamePod(a.tenantPods[tk], b.tenantPods[tk])
  }

  lemma RelyKeepsOthers(g: Setting, T: set<Key>, a: Stores, b: Stores, c: Stores, own: Key)
    requires OthersKept(T, a, b, own) && TenantRely(g, T, b, c)
    ensures OthersKept(T, a, c, own)
  {
  }

  /** Writing a host status back is safe when a finished status comes from a host pod that has finished or gone. */
  lemma WriteIsSafe(g: Setting, T: set<Key>, st: Stores, src: CorePod, status: PodStatus)
    requires Safe(g, st) && KeyOf(src) in st.tenantPods && Unwritten(g, T, st, src)
    requires status.phase == PhaseSucceeded || status.phase == PhaseFailed ==> NotRunning(st, HostKey(g.e, src))
    ensures Safe(g, WriteStatus(st, KeyOf(src), status)) && OthersKept(T, st, WriteStatus(st, KeyOf(src), status), KeyOf(src))
  {
  }

  /** One tick while following a source whose status is about to be written. */
  lemma TickFollows(g: Setting, T: set<Key>, a: Stores, w: World, s: Script, src: CorePod)
    requires FairScript(g, T, s) && Safe(g, w.st) && Unwritten(g, T, w.st, src) && OthersKept(T, a, w.st, KeyOf(src))
    ensures var b := Tick(w, s).st;
      Safe(g, b) && Unwritten(g, T, b, src) && OthersKept(T, a, b, KeyOf(src)) && HostRely(g, w.st, b)
  {
    TickRely(g, T, w, s);
    RelyKeepsSafe(g, T, w.st, Tick(w, s).st);
    UnwrittenIsStable(g, T, w.st, Tick(w, s).st, src);
    RelyKeepsOthers(g, T, a, w.st, Tick(w, s).st, KeyOf(src));
  }

  lemma PutStatusIsSafe(g: Setting, T: set<Key>, a: Stores, w: World, s: Script, src: CorePod, status: PodStatus)
    requires FairScript(g, T, s) && Safe(g, w.st) && Unwritten(g, T, w.st, src) && OthersKept(T, a, w.st, KeyOf(src))
    requires status.phase == PhaseSucceeded || status.phase == PhaseFailed ==> NotRunning(w.st, HostKey(g.e, src))
    ensures var v := PutTenantStatus(w, s, KeyOf(src), status).0;
      Safe(g, v.st) && v.log == w.log && OthersKept(T, a, v.st, KeyOf(src))
  {
    TickFollows(g, T, a, w, s, src);
    var w1 := Tick(w, s);
    if KeyOf(src) in w1.st.tenantPods {
      WriteIsSafe(g, T, w1.st, src, status);
    }
  }

  lemma MirrorIsSafe(g: Setting, T: set<Key>, w: World, s: Script, src: CorePod)
    requires FairScript(g, T, s) && Safe(g, w.st) && Unwritten(g, T, w.st, src)
    ensures var m := MirrorStatus(w, s, HostKey(g.e, src), KeyOf(src));
      Safe(g, m.w.st) && m.w.log == w.log && OthersKept(T, w.st, m.w.st, KeyOf(src))
  {
    var k := HostKey(g.e, src);
    var w1 := Tick(w, s);
    var w2 := Tick(w1, s);
    TickFollows(g, T, w.st, w, s, src);
    TickFollows(g, T, w.st, w1, s, src);
    if k in w1.st.hostPods {
      PutStatusIsSafe(g, T, w.st, w2, s, src, StatusFromCore(w1.st.hostPods[k].status));
    }
  }

  lemma ReapIsSafe(g: Setting, T: set<Key>, p: Progress, s: Script, k: Key)
    requires FairScript(g, T, s) && Safe(g, p.w.st)
    ensures var f := Reap(p, s, k);
      Safe(g, f.p.w.st) && f.p.w.log == p.w.log && TenantRely(g, T, p.w.st, f.p.w.st)
  {
    var w1 := Tick(p.w, s);
    TickRely(g, T, p.w, s);
    RelyKeepsSafe(g, T, p.w.st, w1.st);
    MarkDeletingIsSafe(g, w1.st, k);
  }

  lemma MirrorAndReapIsSafe(g: Setting, T: set<Key>, p: Progress, s: Script, src: CorePod)
    requires FairScript(g, T, s) && Safe(g, p.w.st) && Unwritten(g, T, p.w.st, src)
    ensures var f := MirrorAndReap(p, s, g.e, src);
      Safe(g, f.p.w.st) && f.p.w.log == p.w.log && OthersKept(T, p.w.st, f.p.w.st, KeyOf(src))
  {
    var k := HostKey(g.e, src);
    var m := MirrorStatus(p.w, s, k, KeyOf(src));
    MirrorIsSafe(g, T, p.w, s, src);
    if m.failure.None? && IsTerminal(src) {
      var q := p.(w := m.w, c := if m.synced then p.c.(synced := p.c.synced + 1) else p.c);
      ReapIsSafe(g, T, q, s, k);
      RelyKeepsOthers(g, T, p.w.st, m.w.st, Reap(q, s, k).p.w.st, KeyOf(src));
    }
  }

  lemma OthersThroughRely(g: Setting, T: set<Key>, a: Stores, b: Stores, c: Stores, own: Key)
    requires TenantRely(g, T, a, b) && OthersKept(T, b, c, own)
    ensures OthersKept(T, a, c, own)
  {
  }

  lemma SyncPodIsSafe(g: Setting, T: set<Key>, p: Progress, s: Script, src: CorePod)
    requires FairScript(g, T, s) && Safe(g, p.w.st) && GoodLog(g, p.w.log) && Unwritten(g, T, p.w.st, src)
    ensures var f := SyncPod(p, s, g.e, src);
      Safe(g, f.p.w.st) && GoodLog(g, f.p.w.log) && OthersKept(T, p.w.st, f.p.w.st, KeyOf(src))
  {
    var d := p.desired + {KeyForPod(HostKey(g.e, src))};
    var (w1, failure) := SyncResources(p.w.(seen := map[]), s, g.e, RefsOf(src));
    RefsComeFromTheSource(src);
    SyncResourcesSafe(g, T, p.w.(seen := map[]), s, src.ns, RefsOf(src));
    RelyKeepsSafe(g, T, p.w.st, w1.st);
    UnwrittenIsStable(g, T, p.w.st, w1.st, src);
    assert OthersKept(T, w1.st, w1.st, KeyOf(src));
    OthersThroughRely(g, T, p.w.st, w1.st, w1.st, KeyOf(src));
    if failure.None? {
      if IsTerminal(src) {
        var q := p.(w := w1, desired := d);
        MirrorAndReapIsSafe(g, T, q, s, src);
        OthersThroughRely(g, T, p.w.st, w1.st, MirrorAndReap(q, s, g.e, src).p.w.st, KeyOf(src));
      } else {
        SyncRunningPodIsSafe(g, T, p.(w := w1, desired := d), s, src);
        OthersThroughRely(g, T, p.w.st, w1.st, SyncPod(p, s, g.e, src).p.w.st, KeyOf(src));
      }
    }
  }

  lemma SyncRunningPodIsSafe(g: Setting, T: set<Key>, p: Progress, s: Script, src: CorePod)
    requires FairScript(g, T, s) && Safe(g, p.w.st) && GoodLog(g, p.w.log)
    requires Unwritten(g, T, p.w.st, src) && !IsTerminal(src) && RefsCopied(g, p.w, src)
    ensures var f := EnsureAndMirror(p, s, g.e, src);
      Safe(g, f.p.w.st) && GoodLog(g, f.p.w.log) && OthersKept(T, p.w.st, f.p.w.st, KeyOf(src))
  {
    var r := EnsureHostPod(p.w, s, Wanted(g.e, src));
    EnsureIsSafe(g, T, p.w, s, src);
    UnwrittenIsStable(g, T, p.w.st, r.w.st, src);
    assert OthersKept(T, r.w.st, r.w.st, KeyOf(src));
    OthersThroughRely(g, T, p.w.st, r.w.st, r.w.st, KeyOf(src));
    if r.verdict.Fine? {
      var q := p.(w := r.w, c := Counted(p.c, r.created, r.deleted));
      MirrorAndReapIsSafe(g, T, q, s, src);
      OthersThroughRely(g, T, p.w.st, r.w.st, MirrorAndReap(q, s, g.e, src).p.w.st, KeyOf(src));
    }
  }

  // ---------- whole passes ----------

  ghost predicate DistinctSources(srcs: seq<CorePod>) {
    forall i, j :: 0 <= i < j < |srcs| ==> KeyOf(srcs[i]) != KeyOf(srcs[j])
  }

  ghost predicate AllUnwritten(g: Setting, T: set<Key>, st: Stores, srcs: seq<CorePod>) {
    forall src :: src in srcs ==> Unwritten(g, T, st, src)
  }

  lemma RestStaysUnwritten(g: Setting, T: set<Key>, a: Stores, b: Stores, srcs: seq<CorePod>)
    requires srcs != [] && DistinctSources(srcs) && AllUnwritten(g, T, a, srcs) && OthersKept(T, a, b, KeyOf(srcs[0]))
    ensures AllUnwritten(g, T, b, srcs[1..]) && DistinctSources(srcs[1..])
  {
    forall src | src in srcs[1..] ensures Unwritten(g, T, b, src) {
      var i :| 0 <= i < |srcs[1..]| && srcs[1..][i] == src;
      assert KeyOf(srcs[0]) != KeyOf(srcs[i + 1]);
      assert Unwritten(g, T, a, src);
      PoolNodeNamesAreNotEmpty(g, src.nodeName);
    }
  }

  lemma {:induction false} SyncPodsIsSafe(g: Setting, T: set<Key>, p: Progress, s: Script, srcs: seq<CorePod>)
    requires FairScript(g, T, s) && Safe(g, p.w.st) && GoodLog(g, p.w.log)
    requires DistinctSources(srcs) && AllUnwritten(g, T, p.w.st, srcs)
    ensures var f := SyncPods(p, s, g.e, srcs); Safe(g, f.p.w.st) && GoodLog(g, f.p.w.log)
    decreases |srcs|
  {
    if srcs != [] {
      SyncPodIsSafe(g, T, p, s, srcs[0]);
      var f := SyncPod(p, s, g.e, srcs[0]);
      if f.Next? {
        RestStaysUnwritten(g, T, p.w.st, f.p.w.st, srcs);
        SyncPodsIsSafe(g, T, f.p, s, srcs[1..]);
      }
    }
  }

  lemma {:induction false} SweepIsSafe(g: Setting, T: set<Key>, p: Progress, s: Script, keys: seq<Key>)
    requires FairScript(g, T, s) && Safe(g, p.w.st)
    ensures var f := Sweep(p, s, keys); Safe(g, f.p.w.st) && f.p.w.log == p.w.log
    decreases |keys|
  {
    if keys != [] {
      if KeyForPod(keys[0]) in p.desired {
        SweepIsSafe(g, T, p, s, keys[1..]);
      } else {
        ReapIsSafe(g, T, p, s, keys[0]);
        if Reap(p, s, keys[0]).Next? {
          SweepIsSafe(g, T, Reap(p, s, keys[0]).p, s, keys[1..]);
        }
      }
    }
  }

  lemma SweepListedIsSafe(g: Setting, T: set<Key>, p: Progress, s: Script)
    requires FairScript(g, T, s) && Safe(g, p.w.st)
    ensures var f := SweepListed(p, s, g.e); Safe(g, f.p.w.st) && f.p.w.log == p.w.log
  {
    var w1 := Tick(p.w, s);
    TickRely(g, T, p.w, s);
    RelyKeepsSafe(g, T, p.w.st, w1.st);
    SweepIsSafe(g, T, p.(w := w1), s, s.hostOrder(Labelled(w1.st, g.e.pool.ns, g.e.pool.name)));
  }

  lemma SyncAndSweepIsSafe(g: Setting, T: set<Key>, w: World, s: Script, srcs: seq<CorePod>)
    requires FairScript(g, T, s) && Safe(g, w.st) && GoodLog(g, w.log)
    requires DistinctSources(srcs) && AllUnwritten(g, T, w.st, srcs)
    ensures var f := SyncAndSweep(w, s, g.e, srcs); Safe(g, f.p.w.st) && GoodLog(g, f.p.w.log)
  {
    var p := Progress(w, {}, NoCounts.(sourcePods := |srcs|));
    SyncPodsIsSafe(g, T, p, s, srcs);
    var f := SyncPods(p, s, g.e, srcs);
    if f.Next? {
      SweepListedIsSafe(g, T, f.p, s);
    }
  }

  ghost predicate PoolNodes(g: Setting, nodes: seq<VNode>) {
    forall n :: n in nodes ==> IsPoolNode(g, n.name)
  }

  lemma ListedSourcesAreUnwritten(g: Setting, st: Stores, s: Script, nodes: seq<VNode>)
    requires Safe(g, st) && Orderly(s) && PoolNodes(g, nodes)
    ensures var srcs := Sources(st, s, ReadyNames(nodes));
      DistinctSources(srcs) && AllUnwritten(g, st.tenantPods.Keys, st, srcs)
  {
    var ready := ReadyNames(nodes);
    var srcs := Sources(st, s, ready);
    var at := SourcesByKey(st, s, ready);
    assert forall i :: 0 <= i < |srcs| ==> KeyOf(srcs[i]) == at[i];
    forall src | src in srcs ensures Unwritten(g, st.tenantPods.Keys, st, src) {
      var i :| 0 <= i < |srcs| && srcs[i] == src;
      assert SourceAt(st.tenantPods, ready, at[i]);
      var n :| n in nodes && IsReady(n) && n.name == src.nodeName;
    }
  }

  /** The tenant keys at the moment a pass lists them. */
  ghost function ListedKeys(w: World, s: Script): set<Key> {
    Tick(Tick(Tick(w, s), s), s).st.tenantPods.Keys
  }

  lemma PassIsSafe(g: Setting, w: World, s: Script, nodes: seq<VNode>)
    requires Safe(g, w.st) && GoodLog(g, w.log)
    requires FairScript(g, ListedKeys(w, s), s) && Orderly(s) && PoolNodes(g, nodes)
    ensures var f := Pass(w, s, g.e, nodes); Safe(g, f.p.w.st) && GoodLog(g, f.p.w.log)
  {
    var T := ListedKeys(w, s);
    var w1 := Tick(w, s);
    var w2 := Tick(w1, s);
    var w3 := Tick(w2, s);
    TickRely(g, T, w, s);
    TickRely(g, T, w1, s);
    TickRely(g, T, w2, s);
    RelyKeepsSafe(g, T, w.st, w1.st);
    RelyKeepsSafe(g, T, w1.st, w2.st);
    RelyKeepsSafe(g, T, w2.st, w3.st);
    ListedSourcesAreUnwritten(g, w3.st, s, nodes);
    SyncAndSweepIsSafe(g, T, w2, s, []);
    SyncAndSweepIsSafe(g, T, w3, s, Sources(w3.st, s, ReadyNames(nodes)));
  }

  // ---------- runs ----------

  /** A pass or a pool cleanup, with the outside world acting before each of its calls, or a step of the outside world alone. */
  datatype RunStep = PassStep(nodes: seq<VNode>, s: Script) | CleanupStep(s: Script) | OutsideStep(a: EnvAction)

  function Step(g: Setting, w: World, step: RunStep): World {
    match step
    case PassStep(nodes, s) => Pass(w, s, g.e, nodes).p.w
    case CleanupStep(s) => Cleanup(w, s, g.e).p.w
    case OutsideStep(a) => Acted(w, a)
  }

  ghost predicate StepAllowed(g: Setting, w: World, step: RunStep) {
    match step
    case PassStep(nodes, s) => PoolNodes(g, nodes) && Orderly(s) && FairScript(g, ListedKeys(w, s), s)
    case CleanupStep(s) => FairScript(g, {}, s)
    case OutsideStep(a) => Fair(g, {}, a)
  }

  function Run(g: Setting, w: World, steps: seq<RunStep>): World
    decreases |steps|
  {
    if steps == [] then w else Run(g, Step(g, w, steps[0]), steps[1..])
  }

  ghost predicate Allowed(g: Setting, w: World, steps: seq<RunStep>)
    decreases |steps|
  {
    steps != [] ==> StepAllowed(g, w, steps[0]) && Allowed(g, Step(g, w, steps[0]), steps[1..])
  }

  lemma StepIsSafe(g: Setting, w: World, step: RunStep)
    requires Safe(g, w.st) && GoodLog(g, w.log) && StepAllowed(g, w, step)
    ensures Safe(g, Step(g, w, step).st) && GoodLog(g, Step(g, w, step).log)
  {
    match step
    case PassStep(nodes, s) => PassIsSafe(g, w, s, nodes);
    case CleanupStep(s) => SweepListedIsSafe(g, {}, Progress(w, {}, NoCounts), s);
    case OutsideStep(a) =>
      if !a.TenantResources? {
        EnvStepRely(g, {}, w.st, a);
        RelyKeepsSafe(g, {}, w.st, EnvStep(w.st, a));
      }
  }

  /**
   * Over every run, whatever fails and however the outside world interleaves: a finished tenant pod
   * of the pool has no host pod or a finished one, no creation ever re-runs a finished pod, and every
   * ConfigMap and Secret that a created pod names was looked up for it, and what was found is on the
   * host at that moment. If tenant data is steady during passes, it is what the tenant has then.
   */
  lemma {:induction false} RunsAreSafe(g: Setting, w: World, steps: seq<RunStep>)
    requires Safe(g, w.st) && GoodLog(g, w.log) && Allowed(g, w, steps)
    ensures FinishedStaysFinished(g, Run(g, w, steps).st)
    ensures Safe(g, Run(g, w, steps).st) && GoodLog(g, Run(g, w, steps).log)
    decreases |steps|
  {
    if steps != [] {
      StepIsSafe(g, w, steps[0]);
      RunsAreSafe(g, Step(g, w, steps[0]), steps[1..]);
    }
  }
}
