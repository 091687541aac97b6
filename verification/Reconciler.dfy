/** `reconcile` as a state machine: one step per request to the API server, so
    that anything may happen in between and any request may fail. */
module Reconciler {
  import opened Wrappers
  import opened Crd
  import opened Resources
  import opened ApiServer

  // ---------------------------------------------------------------------
  // Drift
  // ---------------------------------------------------------------------

  /** Three fields are compared: the image and the two limits. */
  predicate PodNeedsUpdate(existing: Pod, agent: Agent) {
    if existing.spec.None? || existing.spec.value.containers == [] then false
    else
      var container := existing.spec.value.containers[0];
      if container.image != Some(agent.spec.image) then true
      else if container.resources.None? || container.resources.value.limits.None? then true
      else
        var limits := container.resources.value.limits.value;
        !(Lookup(limits, "cpu") == Some(agent.spec.cpu) && Lookup(limits, "memory") == Some(agent.spec.memory))
  }

  // ---------------------------------------------------------------------
  // Status
  // ---------------------------------------------------------------------

  function SumRestarts(statuses: seq<ContainerStatus>): int {
    if statuses == [] then 0 else statuses[0].restartCount + SumRestarts(statuses[1..])
  }

  function ContainerStatuses(pod: Pod): seq<ContainerStatus> {
    if pod.status.Some? then pod.status.value.containerStatuses.GetOr([]) else []
  }

  predicate CrashLooping(pod: Pod) {
    exists cs | cs in ContainerStatuses(pod) :: cs.waitingReason == Some("CrashLoopBackOff")
  }

  function PodPhase(pod: Pod): Option<string> {
    if pod.status.Some? then pod.status.value.phase else None
  }

  function ReportedPhase(pod: Pod): string {
    if CrashLooping(pod) then "CrashLoopBackOff"
    else
      match PodPhase(pod)
      case Some(p) =>
        if p == "Pending" then "Creating"
        else if p == "Running" then "Running"
        else if p == "Succeeded" then "Stopped"
        else if p == "Failed" then "Failed"
        else p
      case None => "Unknown"
  }

  function DeriveStatusFromPod(pod: Pod): AgentStatus {
    DEFAULT_STATUS.(
      phase := Some(ReportedPhase(pod)),
      hostNode := if pod.spec.Some? then pod.spec.value.nodeName else None,
      podIp := if pod.status.Some? then pod.status.value.podIp else None,
      restartCount := Some(WrapI32(SumRestarts(ContainerStatuses(pod)))))
  }

  /** The ports the cluster has assigned a node port to. */
  function AssignedNodePorts(ports: seq<ServicePort>): seq<NodePort> {
    if ports == [] then []
    else
      (if ports[0].nodePort.Some?
       then [NodePort(ports[0].name.GetOr(""), ports[0].port, ports[0].nodePort.value)]
       else [])
      + AssignedNodePorts(ports[1..])
  }

  function WithNodePorts(status: AgentStatus, svc: Option<Service>): AgentStatus {
    if svc.Some? && svc.value.ports.Some? then status.(nodePorts := AssignedNodePorts(svc.value.ports.value))
    else status
  }

  function StatusOfPod(pod: Option<Pod>): AgentStatus {
    match pod
    case Some(p) => DeriveStatusFromPod(p)
    case None => DEFAULT_STATUS.(phase := Some("Creating"))
  }

  // ---------------------------------------------------------------------
  // The program
  // ---------------------------------------------------------------------

  datatype Pc =
    | PvcGet
    | PvcCreate
    | StopGet
    | StopDelete
    | PodGet
    | PodDelete
    | PodRecreate
    | PodCreate
    | PolicyGet
    | PolicyCreate
    | ServiceGet
    | ServiceCreate
    | StatusPod
    | StatusService(status: AgentStatus)
    | StatusPatch(status: AgentStatus)
    | Completed
    | Aborted

  /** A reconcile in flight, with the agent snapshot it was started on. */
  datatype Rec = Rec(agent: Agent, pc: Pc)

  function Start(agent: Agent): Rec {
    Rec(agent, PvcGet)
  }

  predicate Halted(rec: Rec) {
    rec.pc.Completed? || rec.pc.Aborted?
  }

  /** The request the program is about to make. */
  function NextOp(cfg: Config, rec: Rec): Op
    requires !Halted(rec)
  {
    var a := rec.agent;
    match rec.pc
    case PvcGet => GetPvc(PvcName(a.name))
    case PvcCreate => CreatePvc(BuildPvc(cfg, a))
    case StopGet => GetPod(PodName(a.name))
    case StopDelete => DeletePod(PodName(a.name))
    case PodGet => GetPod(PodName(a.name))
    case PodDelete => DeletePod(PodName(a.name))
    case PodRecreate => CreatePod(BuildPod(cfg, a))
    case PodCreate => CreatePod(BuildPod(cfg, a))
    case PolicyGet => GetPolicy(PolicyName(a.name))
    case PolicyCreate => CreatePolicy(BuildNetworkPolicy(cfg, a))
    case ServiceGet => GetService(ServiceName(a.name))
    case ServiceCreate => CreateService(BuildService(cfg, a))
    case StatusPod => GetPod(PodName(a.name))
    case StatusService(_) => GetService(ServiceName(a.name))
    case StatusPatch(status) => PatchStatus(a.name, status)
  }

  function AfterPvc(a: Agent): Pc {
    if a.spec.state.Stopped? then StopGet else PodGet
  }

  function AfterService(a: Agent): Pc {
    if a.spec.state.Stopped? then StatusService(DEFAULT_STATUS.(phase := Some("Stopped"), restartCount := Some(0)))
    else StatusPod
  }

  /** An upper bound on the requests still to come. */
  function Remaining(pc: Pc): nat {
    match pc
    case PvcGet => 12
    case PvcCreate => 11
    case StopGet => 10
    case StopDelete => 9
    case PodGet => 10
    case PodDelete => 9
    case PodRecreate => 8
    case PodCreate => 9
    case PolicyGet => 7
    case PolicyCreate => 6
    case ServiceGet => 5
    case ServiceCreate => 4
    case StatusPod => 3
    case StatusService(_) => 2
    case StatusPatch(_) => 1
    case Completed => 0
    case Aborted => 0
  }

  // What the program is done with

  predicate ClaimDone(pc: Pc) {
    !pc.PvcGet? && !pc.PvcCreate? && !pc.Aborted?
  }

  predicate PolicyDone(pc: Pc) {
    pc.ServiceGet? || pc.ServiceCreate? || ServiceDone(pc)
  }

  predicate ServiceDone(pc: Pc) {
    pc.StatusPod? || pc.StatusService? || pc.StatusPatch? || pc.Completed?
  }

  /** How the program continues. Every failure aborts it, except that of reading
      the service for its node ports. */
  function NextPc(rec: Rec, resp: Resp): (pc: Pc)
    requires !Halted(rec)
    ensures Remaining(pc) < Remaining(rec.pc)
  {
    var a := rec.agent;
    if resp.Failed? then
      (if rec.pc.StatusService? then StatusPatch(rec.pc.status) else Aborted)
    else
      match rec.pc
      case PvcGet => if resp.GotPvc? && resp.pvc.None? then PvcCreate else AfterPvc(a)
      case PvcCreate => AfterPvc(a)
      case StopGet => if resp.GotPod? && resp.pod.Some? then StopDelete else PolicyGet
      case StopDelete => PolicyGet
      case PodGet =>
        if resp.GotPod? && resp.pod.Some? then
          (if PodNeedsUpdate(resp.pod.value, a) then PodDelete else PolicyGet)
        else PodCreate
      case PodDelete => PodRecreate
      case PodRecreate => PolicyGet
      case PodCreate => PolicyGet
      case PolicyGet => if resp.GotPolicy? && resp.policy.None? then PolicyCreate else ServiceGet
      case PolicyCreate => ServiceGet
      case ServiceGet => if resp.GotService? && resp.service.None? then ServiceCreate else AfterService(a)
      case ServiceCreate => AfterService(a)
      case StatusPod => StatusService(StatusOfPod(if resp.GotPod? then resp.pod else None))
      case StatusService(status) => StatusPatch(WithNodePorts(status, if resp.GotService? then resp.service else None))
      case StatusPatch(_) => Completed
  }

  /** A request that fails ends the reconcile, except the read of the service for its
      node ports; one that does not fail never does. */
  lemma FailureAborts(rec: Rec, resp: Resp)
    requires !Halted(rec)
    ensures NextPc(rec, resp).Aborted? <==> resp.Failed? && !rec.pc.StatusService?
    ensures rec.pc.StatusService? ==> NextPc(rec, Failed) == StatusPatch(rec.pc.status)
  {
  }

  /** One request, answered as `reply` says. A halted program stays put. */
  function Step(cfg: Config, rec: Rec, st: Store, reply: Reply): (Rec, Store) {
    if Halted(rec) then (rec, st)
    else
      var (st', resp) := Perform(cfg, st, NextOp(cfg, rec), reply);
      (rec.(pc := NextPc(rec, resp)), st')
  }
}
