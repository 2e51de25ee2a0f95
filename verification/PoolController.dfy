/**
 * The pool controller as a state machine: an event queue with filtering predicates, the pool's status,
 * its finalizer and its deletion, over the pool's node records. The pool itself may be changed or
 * deleted before any call of a reconcile.
 */
module PoolController {
  import opened PodModel
  import opened NodeRecords
  import opened NodeLifecycle
  import opened PoolScaling

  predicate Valid(pool: VNodePool) {
    && pool.name != ""
    && pool.tenant.kubeconfigSecret != ""
    && pool.nodeCount >= 0
    && !(pool.mode.Dedicated? && |pool.nodeSelector| == 0)
    && !pool.mode.InvalidMode?
  }

  /** Which of the controller's own calls fail, besides those of the services. */
  datatype Faults = Faults(addFinalizer: bool, writeStatus: bool, listRemaining: bool, removeFinalizer: bool)

  datatype Step =
    | Outside(a: NodeAction)                // node reconcilers, deletions, the tenant, the pool's owner
    | Restarted                             // the controller lists everything again
    | ReconcileStep(s: NodeScript, f: Faults)

  function Enqueue(n: Nodes): Nodes {
    n.(store := n.store.(queued := true))
  }

  function Dequeue(n: Nodes): NodeWorld {
    NodeWorld(n.(store := n.store.(queued := false)), 0)
  }

  function WithPool(n: Nodes, pool: PoolResource): Nodes {
    n.(store := n.store.(pool := pool))
  }

  /** Deletion of the pool read as `cr`: deprovision everything, and drop the finalizer once a list shows no node left. */
  function HandleDeletion(w: NodeWorld, s: NodeScript, f: Faults, cr: PoolResource): Nodes {
    if !cr.finalizer then w.n
    else
      var r := Reconcile(w, s, cr.spec.(nodeCount := 0));
      if r.err.Some? then Enqueue(r.w.n)
      else
        var w1 := Tick(r.w, s);
        if f.listRemaining || |w1.n.store.records| > 0 then Enqueue(w1.n)
        else
          var w2 := Tick(w1, s);
          if f.removeFinalizer then Enqueue(w2.n)
          else WithPool(w2.n, w2.n.store.pool.(finalizer := false, present := false))
  }

  /** Scaling the pool as it was read, and writing the count of ready nodes to the pool as it is by then. */
  function ScaleAndReport(w: NodeWorld, s: NodeScript, f: Faults, spec: VNodePool): Nodes {
    if !Valid(spec) then w.n
    else
      var r := Reconcile(w, s, spec);
      if r.err.Some? then Enqueue(r.w.n)
      else
        var w1 := Tick(r.w, s);
        if f.writeStatus || !w1.n.store.pool.present then Enqueue(w1.n)
        else WithPool(w1.n, w1.n.store.pool.(readyNodes := ReadyNodes(r.working)))
  }

  /** One reconcile of a queued pool: it is read once. Errors put it back in the queue; an invalid spec does not. */
  function ReconcilePool(n: Nodes, s: NodeScript, f: Faults): Nodes {
    var w := Tick(Dequeue(n), s);
    var cr := w.n.store.pool;
    if !cr.present then w.n
    else if cr.deleting then HandleDeletion(w, s, f, cr)
    else if cr.finalizer then ScaleAndReport(w, s, f, cr.spec)
    else
      var w1 := Tick(w, s);
      // An update of a version that is no longer current is refused.
      if f.addFinalizer || w1.n.store.pool != cr then Enqueue(w1.n)
      else ScaleAndReport(w1.(n := WithPool(w1.n, cr.(finalizer := true))), s, f, cr.spec)
  }

  function Take(n: Nodes, step: Step): Nodes {
    match step
    case Outside(a) => ActOn(n, a)
    case Restarted => Enqueue(n)
    case ReconcileStep(s, f) => if n.store.queued then ReconcilePool(n, s, f) else n
  }

  function TakeAll(n: Nodes, steps: seq<Step>): Nodes
    decreases |steps|
  {
    if steps == [] then n else TakeAll(Take(n, steps[0]), steps[1..])
  }

  // ---------- as it runs ----------

  /** The controller over the records, the pool resource and the queue, all changed in place. */
  class Controller {
    var n: Nodes

    constructor (n: Nodes)
      ensures this.n == n
    {
      this.n := n;
    }

    method Requeue()
      modifies this
      ensures n == Enqueue(old(n))
    {
      n := n.(store := n.store.(queued := true));
    }

    method WritePool(pool: PoolResource)
      modifies this
      ensures n == WithPool(old(n), pool)
    {
      n := n.(store := n.store.(pool := pool));
    }

    method ReconcileOnce(s: NodeScript, f: Faults)
      modifies this
      ensures n == ReconcilePool(old(n), s, f)
    {
      n := n.(store := n.store.(queued := false));
      var svc := new NodeService(n, s);
      svc.Begin();
      n := Nodes(svc.store, svc.tenant);
      var cr := n.store.pool;
      if !cr.present {
        return;
      }
      if cr.deleting {
        DeleteOnce(svc, f, cr);
        return;
      }
      if !cr.finalizer {
        svc.Begin();
        n := Nodes(svc.store, svc.tenant);
        if f.addFinalizer || n.store.pool != cr {
          Requeue();
          return;
        }
        svc.store := svc.store.(pool := cr.(finalizer := true));
        n := Nodes(svc.store, svc.tenant);
      }
      ScaleOnce(svc, f, cr.spec);
    }

    method ScaleOnce(svc: NodeService, f: Faults, spec: VNodePool)
      requires n == svc.State().n
      modifies this, svc
      ensures n == ScaleAndReport(old(svc.State()), svc.script, f, spec)
    {
      if !Valid(spec) {
        return;
      }
      var ready, phase, names, err := ReconcilePoolNodes(svc, spec, PoolPending);
      n := Nodes(svc.store, svc.tenant);
      if err.Some? {
        Requeue();
        return;
      }
      svc.Begin();
      n := Nodes(svc.store, svc.tenant);
      if f.writeStatus || !n.store.pool.present {
        Requeue();
        return;
      }
      WritePool(n.store.pool.(readyNodes := ready));
    }

    method DeleteOnce(svc: NodeService, f: Faults, cr: PoolResource)
      requires n == svc.State().n
      modifies this, svc
      ensures n == HandleDeletion(old(svc.State()), svc.script, f, cr)
    {
      if !cr.finalizer {
        return;
      }
      var ready, phase, names, err := ReconcilePoolNodes(svc, cr.spec.(nodeCount := 0), PoolDeleting);
      n := Nodes(svc.store, svc.tenant);
      if err.Some? {
        Requeue();
        return;
      }
      svc.Begin();
      n := Nodes(svc.store, svc.tenant);
      if f.listRemaining || |n.store.records| > 0 {
        Requeue();
        return;
      }
      svc.Begin();
      n := Nodes(svc.store, svc.tenant);
      if f.removeFinalizer {
        Requeue();
        return;
      }
      WritePool(n.store.pool.(finalizer := false, present := false));
    }
  }
}
