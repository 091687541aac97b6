/** The Kubernetes API server and the controllers around it, as far as the
    operator and the API depend on them: named objects, creation that rejects an
    existing name, graceful pod deletion, merge patches of an agent's status and
    state, and garbage collection by owner uid. */
module ApiServer {
  import opened Wrappers
  import opened Json
  import opened Crd
  import opened Resources

  /** An agent and its status document; Null until a status is first written. */
  datatype Stored = Stored(agent: Agent, status: Json)

  datatype Store = Store(
    agents: map<string, Stored>,
    pods: map<string, Pod>,
    pvcs: map<string, Pvc>,
    policies: map<string, NetworkPolicy>,
    services: map<string, Service>,
    nextUid: nat)

  // ---------------------------------------------------------------------
  // Requests
  // ---------------------------------------------------------------------

  datatype Op =
    | GetAgent(name: string)
    | CreateAgent(name: string, spec: AgentSpec)
    | PatchState(name: string, state: AgentState)
    | PatchStatus(name: string, status: AgentStatus)
    | DeleteAgent(name: string)
    | GetPvc(name: string)
    | CreatePvc(pvc: Pvc)
    | GetPod(name: string)
    | CreatePod(pod: Pod)
    | DeletePod(name: string)
    | GetPolicy(name: string)
    | CreatePolicy(policy: NetworkPolicy)
    | GetService(name: string)
    | CreateService(service: Service)

  datatype Resp =
    | Failed
    | Done
    | Created(uid: nat)
    | GotAgent(agent: Option<Stored>)
    | GotPvc(pvc: Option<Pvc>)
    | GotPod(pod: Option<Pod>)
    | GotPolicy(policy: Option<NetworkPolicy>)
    | GotService(service: Option<Service>)

  /** How the server stores a pod: quantities are rewritten, a status appears. */
  function Admit(cfg: Config, pod: Pod): Pod {
    pod.(spec := AdmitSpec(cfg, pod.spec), status := Some(PodStatus(Some("Pending"), None, None)))
  }

  function AdmitSpec(cfg: Config, spec: Option<PodSpec>): Option<PodSpec> {
    match spec
    case None => None
    case Some(s) =>
      Some(s.(containers := seq(|s.containers|, i requires 0 <= i < |s.containers| =>
        AdmitContainer(cfg, s.containers[i]))))
  }

  function AdmitContainer(cfg: Config, c: Container): Container {
    match c.resources
    case None => c
    case Some(r) =>
      c.(resources := Some(Requirements(AdmitQuantities(cfg, r.requests), AdmitQuantities(cfg, r.limits))))
  }

  function AdmitQuantities(cfg: Config, q: Option<map<string, string>>): Option<map<string, string>> {
    match q
    case None => None
    case Some(m) => Some(AdmitEach(cfg, m))
  }

  function AdmitEach(cfg: Config, q: map<string, string>): map<string, string> {
    map k | k in q :: cfg.canon(q[k])
  }

  /** A claim's storage request is a quantity, too. */
  function AdmitPvc(cfg: Config, pvc: Pvc): Pvc {
    pvc.(requests := AdmitEach(cfg, pvc.requests))
  }

  // Each part of the store after a request

  function AgentsAfterOp(st: Store, op: Op): map<string, Stored> {
    match op
    case CreateAgent(n, spec) =>
      if n in st.agents then st.agents else st.agents[n := Stored(Agent(n, st.nextUid, spec), Null)]
    case PatchState(n, state) =>
      if n in st.agents then st.agents[n := InState(st.agents[n], state)] else st.agents
    case PatchStatus(n, status) =>
      if n in st.agents
      then st.agents[n := st.agents[n].(status := MergePatch(st.agents[n].status, EncodeStatus(status)))]
      else st.agents
    case DeleteAgent(n) => st.agents - {n}
    case _ => st.agents
  }

  function InState(stored: Stored, state: AgentState): Stored {
    stored.(agent := stored.agent.(spec := stored.agent.spec.(state := state)))
  }

  function PodsAfterOp(cfg: Config, st: Store, op: Op): map<string, Pod> {
    match op
    case CreatePod(pod) => if pod.meta.name in st.pods then st.pods else st.pods[pod.meta.name := Admit(cfg, pod)]
    case DeletePod(k) => Terminate(st.pods, k)
    case _ => st.pods
  }

  function Terminate(pods: map<string, Pod>, k: string): map<string, Pod> {
    if k in pods then pods[k := pods[k].(terminating := true)] else pods
  }

  function PvcsAfterOp(cfg: Config, st: Store, op: Op): map<string, Pvc> {
    if op.CreatePvc? && op.pvc.meta.name !in st.pvcs
    then st.pvcs[op.pvc.meta.name := AdmitPvc(cfg, op.pvc)]
    else st.pvcs
  }

  function PoliciesAfterOp(st: Store, op: Op): map<string, NetworkPolicy> {
    if op.CreatePolicy? && op.policy.meta.name !in st.policies
    then st.policies[op.policy.meta.name := op.policy]
    else st.policies
  }

  function ServicesAfterOp(st: Store, op: Op): map<string, Service> {
    if op.CreateService? && op.service.meta.name !in st.services
    then st.services[op.service.meta.name := op.service]
    else st.services
  }

  function StoreAfterOp(cfg: Config, st: Store, op: Op): Store {
    Store(
      AgentsAfterOp(st, op),
      PodsAfterOp(cfg, st, op),
      PvcsAfterOp(cfg, st, op),
      PoliciesAfterOp(st, op),
      ServicesAfterOp(st, op),
      if op.CreateAgent? && op.name !in st.agents then st.nextUid + 1 else st.nextUid)
  }

  /** The answer to a request. Creating a name that exists fails, and so does
      patching or deleting one that does not. A client decodes the agent it gets;
      a status it cannot decode is an error. */
  function Answer(st: Store, op: Op): Resp {
    match op
    case GetAgent(n) =>
      if n in st.agents && DecodeStatus(st.agents[n].status).None? then Failed else GotAgent(Lookup(st.agents, n))
    case CreateAgent(n, _) => if n in st.agents then Failed else Created(st.nextUid)
    case PatchState(n, _) => if n in st.agents then Done else Failed
    case PatchStatus(n, _) => if n in st.agents then Done else Failed
    case DeleteAgent(n) => if n in st.agents then Done else Failed
    case GetPvc(k) => GotPvc(Lookup(st.pvcs, k))
    case CreatePvc(pvc) => if pvc.meta.name in st.pvcs then Failed else Done
    case GetPod(k) => GotPod(Lookup(st.pods, k))
    case CreatePod(pod) => if pod.meta.name in st.pods then Failed else Done
    case DeletePod(k) => if k in st.pods then Done else Failed
    case GetPolicy(k) => GotPolicy(Lookup(st.policies, k))
    case CreatePolicy(np) => if np.meta.name in st.policies then Failed else Done
    case GetService(k) => GotService(Lookup(st.services, k))
    case CreateService(svc) => if svc.meta.name in st.services then Failed else Done
  }

  /** What can happen to one request: served, refused before it takes effect, or
      served with the answer lost. The client cannot tell the last two apart. */
  datatype Reply = Delivered | Refused | Lost

  function Perform(cfg: Config, st: Store, op: Op, reply: Reply): (Store, Resp) {
    match reply
    case Delivered => (StoreAfterOp(cfg, st, op), Answer(st, op))
    case Refused => (st, Failed)
    case Lost => (StoreAfterOp(cfg, st, op), Failed)
  }

  // ---------------------------------------------------------------------
  // The controllers around the store
  // ---------------------------------------------------------------------

  predicate OwnerLives(st: Store, o: OwnerRef) {
    o.name in st.agents && st.agents[o.name].agent.uid == o.uid
  }

  /** Garbage collection takes an object that has owners, all of them gone. */
  predicate Collectable(st: Store, meta: Meta) {
    meta.owners != [] && forall o | o in meta.owners :: !OwnerLives(st, o)
  }

  function CollectPvc(st: Store, k: string): Store {
    if k in st.pvcs && Collectable(st, st.pvcs[k].meta) then st.(pvcs := st.pvcs - {k}) else st
  }

  function CollectPolicy(st: Store, k: string): Store {
    if k in st.policies && Collectable(st, st.policies[k].meta) then st.(policies := st.policies - {k}) else st
  }

  function CollectService(st: Store, k: string): Store {
    if k in st.services && Collectable(st, st.services[k].meta) then st.(services := st.services - {k}) else st
  }

  /** A collected pod is deleted gracefully, like any other. */
  function CollectPod(st: Store, k: string): Store {
    if k in st.pods && Collectable(st, st.pods[k].meta) then st.(pods := Terminate(st.pods, k)) else st
  }

  /** The kubelet confirms that a terminating pod is gone. */
  function FinishPod(st: Store, k: string): Store {
    if k in st.pods && st.pods[k].terminating then st.(pods := st.pods - {k}) else st
  }

  const POD_PHASES: set<string> := {"Pending", "Running", "Succeeded", "Failed", "Unknown"}

  /** The kubelet reports a pod's status; the phase is one of the documented ones. */
  function ReportPod(st: Store, k: string, status: PodStatus): Store {
    if k in st.pods && (status.phase.Some? ==> status.phase.value in POD_PHASES)
    then st.(pods := st.pods[k := st.pods[k].(status := Some(status))])
    else st
  }

  function BindPod(st: Store, k: string, node: string): Store {
    if k in st.pods && st.pods[k].spec.Some?
    then st.(pods := st.pods[k := st.pods[k].(spec := Some(st.pods[k].spec.value.(nodeName := Some(node))))])
    else st
  }

  function AllocateNodePorts(st: Store, k: string, nodePorts: seq<Option<i32>>): Store {
    if k in st.services && st.services[k].ports.Some? && |nodePorts| == |st.services[k].ports.value| then
      var ports := st.services[k].ports.value;
      var exposed := seq(|ports|, i requires 0 <= i < |ports| => ports[i].(nodePort := nodePorts[i]));
      st.(services := st.services[k := st.services[k].(ports := Some(exposed))])
    else st
  }
}
