/** The operator's reconcile functions as they run against a cluster, each proved
    to be a stretch of the state machine in `Reconciler`, whatever happens around
    its requests. */
module Controller {
  import opened Wrappers
  import opened Crd
  import opened Resources
  import opened ApiServer
  import opened Reconciler
  import opened Client

  const RECREATE_DELAY: nat := 2000

  /** One step of the machine in a world, with the pause before recreating a pod. */
  function StepAt(cfg: Config, rec: Rec, w: World): (Rec, World)
    requires !Halted(rec)
  {
    var (w', resp) := CallAt(cfg, w, NextOp(cfg, rec));
    var pc := NextPc(rec, resp);
    (rec.(pc := pc), if pc.PodRecreate? then Wait(w', RECREATE_DELAY) else w')
  }

  /** A step in a world is a step of the machine on the store as the others left it. */
  lemma StepInAWorld(cfg: Config, rec: Rec, w: World)
    requires !Halted(rec)
    ensures
      var tick := Upcoming(w);
      var (rec', w') := StepAt(cfg, rec, w);
      (rec', w'.store) == Step(cfg, rec, tick.world(w.store), tick.reply)
  {
  }

  function RunRec(cfg: Config, rec: Rec, w: World): (Rec, World)
    decreases Remaining(rec.pc), 1
  {
    if Halted(rec) then (rec, w) else RunOn(cfg, rec, w)
  }

  function RunOn(cfg: Config, rec: Rec, w: World): (Rec, World)
    requires !Halted(rec)
    decreases Remaining(rec.pc), 0
  {
    var (rec', w') := StepAt(cfg, rec, w);
    RunRec(cfg, rec', w')
  }

  /** The machine is at the same point of the same run in both worlds. */
  ghost predicate SameRun(cfg: Config, a: Agent, was: Pc, w: World, pc: Pc, w': World) {
    RunRec(cfg, Rec(a, was), w) == RunRec(cfg, Rec(a, pc), w')
  }

  /** An answer of the kind the request asks for. */
  predicate Fits(op: Op, resp: Resp) {
    || resp.Failed?
    || match op
       case GetPvc(_) => resp.GotPvc?
       case GetPod(_) => resp.GotPod?
       case GetPolicy(_) => resp.GotPolicy?
       case GetService(_) => resp.GotService?
       case _ => true
  }

  /** One request of the program at `pc`; the world moves along the run. */
  method Request(kube: Cluster, a: Agent, ghost pc: Pc, op: Op) returns (resp: Resp)
    requires !Halted(Rec(a, pc)) && op == NextOp(kube.cfg, Rec(a, pc))
    modifies kube
    ensures Fits(op, resp)
    ensures
      var next := NextPc(Rec(a, pc), resp);
      SameRun(kube.cfg, a, pc, old(kube.W()), next,
              if next.PodRecreate? then Wait(kube.W(), RECREATE_DELAY) else kube.W())
  {
    resp := kube.Call(op);
  }

  method ReconcilePvc(kube: Cluster, a: Agent) returns (ok: bool)
    modifies kube
    ensures SameRun(kube.cfg, a, PvcGet, old(kube.W()), if ok then AfterPvc(a) else Aborted, kube.W())
  {
    var found := Request(kube, a, PvcGet, GetPvc(PvcName(a.name)));
    if found.Failed? {
      return false;
    }
    if found.pvc.None? {
      var pvc := MakePvc(kube.cfg, a);
      var created := Request(kube, a, PvcCreate, CreatePvc(pvc));
      if created.Failed? {
        return false;
      }
    }
    return true;
  }

  method ReconcilePod(kube: Cluster, a: Agent) returns (ok: bool)
    modifies kube
    ensures SameRun(kube.cfg, a, PodGet, old(kube.W()), if ok then PolicyGet else Aborted, kube.W())
  {
    var desired := MakePod(kube.cfg, a);
    var found := Request(kube, a, PodGet, GetPod(PodName(a.name)));
    if found.Failed? {
      return false;
    }
    match found.pod {
      case Some(existing) =>
        if PodNeedsUpdate(existing, a) {
          var deleted := Request(kube, a, PodDelete, DeletePod(PodName(a.name)));
          if deleted.Failed? {
            return false;
          }
          kube.Sleep(RECREATE_DELAY);
          var created := Request(kube, a, PodRecreate, CreatePod(desired));
          if created.Failed? {
            return false;
          }
        }
      case None =>
        var created := Request(kube, a, PodCreate, CreatePod(desired));
        if created.Failed? {
          return false;
        }
    }
    return true;
  }

  method DeletePodIfExists(kube: Cluster, a: Agent) returns (ok: bool)
    modifies kube
    ensures SameRun(kube.cfg, a, StopGet, old(kube.W()), if ok then PolicyGet else Aborted, kube.W())
  {
    var found := Request(kube, a, StopGet, GetPod(PodName(a.name)));
    if found.Failed? {
      return false;
    }
    if found.pod.Some? {
      var deleted := Request(kube, a, StopDelete, DeletePod(PodName(a.name)));
      if deleted.Failed? {
        return false;
      }
    }
    return true;
  }

  method ReconcileNetworkPolicy(kube: Cluster, a: Agent) returns (ok: bool)
    modifies kube
    ensures SameRun(kube.cfg, a, PolicyGet, old(kube.W()), if ok then ServiceGet else Aborted, kube.W())
  {
    var found := Request(kube, a, PolicyGet, GetPolicy(PolicyName(a.name)));
    if found.Failed? {
      return false;
    }
    if found.policy.None? {
      var np := MakeNetworkPolicy(kube.cfg, a);
      var created := Request(kube, a, PolicyCreate, CreatePolicy(np));
      if created.Failed? {
        return false;
      }
    }
    return true;
  }

  method ReconcileService(kube: Cluster, a: Agent) returns (ok: bool)
    modifies kube
    ensures SameRun(kube.cfg, a, ServiceGet, old(kube.W()), if ok then AfterService(a) else Aborted, kube.W())
  {
    var found := Request(kube, a, ServiceGet, GetService(ServiceName(a.name)));
    if found.Failed? {
      return false;
    }
    if found.service.None? {
      var svc := MakeService(kube.cfg, a);
      var created := Request(kube, a, ServiceCreate, CreateService(svc));
      if created.Failed? {
        return false;
      }
    }
    return true;
  }

  method UpdateStatus(kube: Cluster, a: Agent) returns (ok: bool)
    modifies kube
    ensures SameRun(kube.cfg, a, AfterService(a), old(kube.W()), if ok then Completed else Aborted, kube.W())
  {
    hide StatusOfPod, WithNodePorts;
    var status := DEFAULT_STATUS.(phase := Some("Stopped"), restartCount := Some(0));
    if a.spec.state.Running? {
      var pod := Request(kube, a, StatusPod, GetPod(PodName(a.name)));
      if pod.Failed? {
        return false;
      }
      status := StatusOfPod(pod.pod);
    }
    // A failure to read the service leaves the node ports unset.
    var svc := Request(kube, a, StatusService(status), GetService(ServiceName(a.name)));
    if svc.GotService? {
      status := WithNodePorts(status, svc.service);
    }
    var patched := Request(kube, a, StatusPatch(status), PatchStatus(a.name, status));
    return !patched.Failed?;
  }

  /** A whole reconcile, under any interference and any failures, is a run of the
      machine from its start: the same requests in the same order, the same store
      and the same outcome. */
  method Reconcile(kube: Cluster, a: Agent) returns (ok: bool)
    modifies kube
    ensures (Rec(a, if ok then Completed else Aborted), kube.W()) == RunRec(kube.cfg, Start(a), old(kube.W()))
  {
    ok := ReconcilePvc(kube, a);
    if !ok {
      return;
    }
    if a.spec.state == Stopped {
      ok := DeletePodIfExists(kube, a);
    } else {
      ok := ReconcilePod(kube, a);
    }
    if !ok {
      return;
    }
    ok := ReconcileNetworkPolicy(kube, a);
    if !ok {
      return;
    }
    ok := ReconcileService(kube, a);
    if !ok {
      return;
    }
    ok := UpdateStatus(kube, a);
  }
}
