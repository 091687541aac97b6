/** What one move of the platform does to each part of the store. */
module Effects {
  import opened Wrappers
  import opened Json
  import opened Crd
  import opened Resources
  import opened ApiServer
  import opened Reconciler
  import opened Sse
  import opened System

  /** The reconcile that moves has its next request take effect. */
  predicate RecActs(s: State, m: Move, pc: Pc) {
    RecTicks(s, m) && !m.reply.Refused? && s.recs[m.id].pc == pc
  }

  predicate HandlerActs(s: State, m: Move) {
    HandlerTicks(s, m) && !m.reply.Refused? && s.handlers[m.id].pc.Act?
  }

  function PvcsAfter(cfg: Config, s: State, m: Move): map<string, Pvc> {
    if RecActs(s, m, PvcCreate) then
      var a := s.recs[m.id].agent;
      if PvcName(a.name) in s.store.pvcs then s.store.pvcs
      else s.store.pvcs[PvcName(a.name) := AdmitPvc(cfg, BuildPvc(cfg, a))]
    else if m.GcPvc? then CollectPvc(s.store, m.key).pvcs
    else s.store.pvcs
  }

  function PoliciesAfter(cfg: Config, s: State, m: Move): map<string, NetworkPolicy> {
    if RecActs(s, m, PolicyCreate) then
      var a := s.recs[m.id].agent;
      if PolicyName(a.name) in s.store.policies then s.store.policies
      else s.store.policies[PolicyName(a.name) := BuildNetworkPolicy(cfg, a)]
    else if m.GcPolicy? then CollectPolicy(s.store, m.key).policies
    else s.store.policies
  }

  function ServicesAfter(cfg: Config, s: State, m: Move): map<string, Service> {
    if RecActs(s, m, ServiceCreate) then
      var a := s.recs[m.id].agent;
      if ServiceName(a.name) in s.store.services then s.store.services
      else s.store.services[ServiceName(a.name) := BuildService(cfg, a)]
    else if m.GcService? then CollectService(s.store, m.key).services
    else if m.NodePorts? then AllocateNodePorts(s.store, m.key, m.nodePorts).services
    else s.store.services
  }

  function PodsAfter(cfg: Config, s: State, m: Move): map<string, Pod> {
    if RecActs(s, m, PodCreate) || RecActs(s, m, PodRecreate) then
      var a := s.recs[m.id].agent;
      if PodName(a.name) in s.store.pods then s.store.pods
      else s.store.pods[PodName(a.name) := Admit(cfg, BuildPod(cfg, a))]
    else if RecActs(s, m, PodDelete) || RecActs(s, m, StopDelete) then
      Terminate(s.store.pods, PodName(s.recs[m.id].agent.name))
    else if HandlerActs(s, m) && s.handlers[m.id].call.RestartCall? then
      Terminate(s.store.pods, PodName(s.handlers[m.id].name))
    else EnvStore(s.store, m).pods
  }

  function HandlerAgents(st: Store, h: Handler): map<string, Stored> {
    match h.call
    case Create(spec) =>
      if h.name in st.agents then st.agents else st.agents[h.name := Stored(Agent(h.name, st.nextUid, spec), Null)]
    case StartCall =>
      if h.name in st.agents then st.agents[h.name := InState(st.agents[h.name], Running)] else st.agents
    case StopCall =>
      if h.name in st.agents then st.agents[h.name := InState(st.agents[h.name], Stopped)] else st.agents
    case RestartCall => st.agents
    case DeleteCall => st.agents - {h.name}
  }

  /** The reconcile that moves publishes this status. */
  predicate Publishes(s: State, m: Move) {
    RecTicks(s, m) && !m.reply.Refused? && s.recs[m.id].pc.StatusPatch?
  }

  function AgentsAfter(s: State, m: Move): map<string, Stored> {
    if Publishes(s, m) then
      var rec := s.recs[m.id];
      var n := rec.agent.name;
      if n in s.store.agents then
        var was := s.store.agents[n];
        s.store.agents[n := was.(status := MergePatch(was.status, EncodeStatus(rec.pc.status)))]
      else s.store.agents
    else if HandlerActs(s, m) then HandlerAgents(s.store, s.handlers[m.id])
    else s.store.agents
  }

  predicate Creates(s: State, m: Move) {
    HandlerActs(s, m) && s.handlers[m.id].call.Create? && s.handlers[m.id].name !in s.store.agents
  }

  /** Which requests of a reconcile change anything. */
  lemma NextOpKind(cfg: Config, rec: Rec)
    requires !Halted(rec)
    ensures
      var op := NextOp(cfg, rec);
      && !op.CreateAgent? && !op.PatchState? && !op.DeleteAgent?
      && (if rec.pc.PvcCreate? then op == CreatePvc(BuildPvc(cfg, rec.agent)) else !op.CreatePvc?)
      && (if rec.pc.PolicyCreate? then op == CreatePolicy(BuildNetworkPolicy(cfg, rec.agent)) else !op.CreatePolicy?)
      && (if rec.pc.ServiceCreate? then op == CreateService(BuildService(cfg, rec.agent)) else !op.CreateService?)
      && (if rec.pc.PodCreate? || rec.pc.PodRecreate? then op == CreatePod(BuildPod(cfg, rec.agent))
          else !op.CreatePod?)
      && (if rec.pc.PodDelete? || rec.pc.StopDelete? then op == DeletePod(PodName(rec.agent.name)) else !op.DeletePod?)
      && (if rec.pc.StatusPatch? then op == PatchStatus(rec.agent.name, rec.pc.status) else !op.PatchStatus?)
  {
  }

  /** A reconcile about to change something. */
  predicate Writes(pc: Pc) {
    || pc.PvcCreate? || pc.StopDelete? || pc.PodDelete? || pc.PodRecreate? || pc.PodCreate?
    || pc.PolicyCreate? || pc.ServiceCreate?
  }

  /** The answer to a served read. */
  predicate Reads(pc: Pc, a: Agent, st: Store, resp: Resp) {
    match pc
    case PvcGet => resp == GotPvc(Lookup(st.pvcs, PvcName(a.name)))
    case StopGet => resp == GotPod(Lookup(st.pods, PodName(a.name)))
    case PodGet => resp == GotPod(Lookup(st.pods, PodName(a.name)))
    case PolicyGet => resp == GotPolicy(Lookup(st.policies, PolicyName(a.name)))
    case ServiceGet => resp == GotService(Lookup(st.services, ServiceName(a.name)))
    case _ => !resp.Failed?
  }

  lemma ServedRead(cfg: Config, a: Agent, pc: Pc, st: Store)
    requires !Halted(Rec(a, pc)) && !Writes(pc) && (pc.StatusPatch? ==> a.name in st.agents)
    ensures Reads(pc, a, st, Answer(st, NextOp(cfg, Rec(a, pc))))
  {
  }

  // One lemma for each part of the store

  lemma PvcMoves(cfg: Config, s: State, m: Move)
    ensures StoreAfter(cfg, s, m).pvcs == PvcsAfter(cfg, s, m)
  {
    if RecTicks(s, m) {
      NextOpKind(cfg, s.recs[m.id]);
    }
  }

  lemma PolicyMoves(cfg: Config, s: State, m: Move)
    ensures StoreAfter(cfg, s, m).policies == PoliciesAfter(cfg, s, m)
  {
    if RecTicks(s, m) {
      NextOpKind(cfg, s.recs[m.id]);
    }
  }

  lemma ServiceMoves(cfg: Config, s: State, m: Move)
    ensures StoreAfter(cfg, s, m).services == ServicesAfter(cfg, s, m)
  {
    if RecTicks(s, m) {
      NextOpKind(cfg, s.recs[m.id]);
    }
  }

  lemma RecPodMoves(cfg: Config, s: State, m: Move)
    requires RecTicks(s, m)
    ensures StoreAfter(cfg, s, m).pods == PodsAfter(cfg, s, m)
  {
    hide BuildPvc, BuildNetworkPolicy, BuildService, EncodeStatus;
    NextOpKind(cfg, s.recs[m.id]);
  }

  lemma HandlerPodMoves(cfg: Config, s: State, m: Move)
    requires HandlerTicks(s, m)
    ensures StoreAfter(cfg, s, m).pods == PodsAfter(cfg, s, m)
  {
  }

  lemma PodMoves(cfg: Config, s: State, m: Move)
    ensures StoreAfter(cfg, s, m).pods == PodsAfter(cfg, s, m)
  {
    if RecTicks(s, m) {
      RecPodMoves(cfg, s, m);
    } else if HandlerTicks(s, m) {
      HandlerPodMoves(cfg, s, m);
    }
  }

  lemma HandlerAgentMoves(cfg: Config, s: State, m: Move)
    requires HandlerTicks(s, m)
    ensures StoreAfter(cfg, s, m).agents == AgentsAfter(s, m)
    ensures StoreAfter(cfg, s, m).nextUid == s.store.nextUid + if Creates(s, m) then 1 else 0
  {
  }

  lemma AgentMoves(cfg: Config, s: State, m: Move)
    ensures StoreAfter(cfg, s, m).agents == AgentsAfter(s, m)
    ensures StoreAfter(cfg, s, m).nextUid == s.store.nextUid + if Creates(s, m) then 1 else 0
  {
    if RecTicks(s, m) {
      NextOpKind(cfg, s.recs[m.id]);
    } else if HandlerTicks(s, m) {
      HandlerAgentMoves(cfg, s, m);
    }
  }

  /** The agent a creation stores. */
  function NewAgent(s: State, m: Move): Agent
    requires Creates(s, m)
  {
    Agent(s.handlers[m.id].name, s.store.nextUid, s.handlers[m.id].call.spec)
  }

  lemma HistoryMoves(cfg: Config, s: State, m: Move)
    ensures
      OriginAfter(cfg, s, m) == if Creates(s, m) then s.origin[s.store.nextUid := NewAgent(s, m)] else s.origin
    ensures
      VersionsAfter(cfg, s, m)
      == s.versions
         + if HandlerTicks(s, m) && s.handlers[m.id].name in AgentsAfter(s, m)
           then {AgentsAfter(s, m)[s.handlers[m.id].name].agent} else {}
  {
    AgentMoves(cfg, s, m);
  }
}
