/** What holds in every reachable state of the platform, under any interleaving,
    stale snapshots, failures and reuse of names: every stored child is the full
    object built for the agent that owns it. */
module Safety {
  import opened Wrappers
  import opened Crd
  import opened Resources
  import opened ApiServer
  import opened Reconciler
  import opened System
  import opened Effects

  // ---------------------------------------------------------------------
  // The recorded past
  // ---------------------------------------------------------------------

  /** Every version of an agent differs from the one its uid was created with in
      nothing but the desired state. */
  ghost predicate VersionsKnown(versions: set<Agent>, origin: map<nat, Agent>) {
    forall v | v in versions :: v.uid in origin && SameButState(v, origin[v.uid])
  }

  /** Uids are handed out in order and never twice. */
  ghost predicate OriginSound(origin: map<nat, Agent>, nextUid: nat) {
    forall u | u in origin :: u < nextUid && origin[u].uid == u
  }

  ghost predicate AgentsKnown(agents: map<string, Stored>, versions: set<Agent>) {
    forall n | n in agents :: agents[n].agent.name == n && agents[n].agent in versions
  }

  ghost predicate RecsKnown(recs: map<nat, Rec>, versions: set<Agent>) {
    forall id | id in recs :: recs[id].agent in versions
  }

  ghost predicate Recorded(s: State) {
    && VersionsKnown(s.versions, s.origin)
    && OriginSound(s.origin, s.store.nextUid)
    && AgentsKnown(s.store.agents, s.versions)
    && RecsKnown(s.recs, s.versions)
  }

  ghost predicate Grows(was: map<nat, Agent>, now: map<nat, Agent>) {
    forall u | u in was :: u in now && now[u] == was[u]
  }

  lemma OriginStep(cfg: Config, s: State, m: Move)
    requires OriginSound(s.origin, s.store.nextUid)
    ensures Grows(s.origin, OriginAfter(cfg, s, m))
    ensures OriginSound(OriginAfter(cfg, s, m), StoreAfter(cfg, s, m).nextUid)
  {
    HistoryMoves(cfg, s, m);
    AgentMoves(cfg, s, m);
  }

  /** An acting handler stores a known agent, a known agent in another state, or
      the one it creates. */
  lemma HandlerStores(s: State, m: Move, n: string)
    requires HandlerTicks(s, m) && n in AgentsAfter(s, m) && AgentsKnown(s.store.agents, s.versions)
    ensures
      var a := AgentsAfter(s, m)[n].agent;
      && a.name == n
      && (|| (n in s.store.agents && SameButState(a, s.store.agents[n].agent))
          || (Creates(s, m) && a == NewAgent(s, m)))
      && (n != s.handlers[m.id].name ==> n in s.store.agents && a == s.store.agents[n].agent)
  {
  }

  lemma VersionsStep(cfg: Config, s: State, m: Move)
    requires VersionsKnown(s.versions, s.origin)
    requires OriginSound(s.origin, s.store.nextUid) && AgentsKnown(s.store.agents, s.versions)
    ensures VersionsKnown(VersionsAfter(cfg, s, m), OriginAfter(cfg, s, m))
  {
    HistoryMoves(cfg, s, m);
    if HandlerTicks(s, m) && s.handlers[m.id].name in AgentsAfter(s, m) {
      HandlerStores(s, m, s.handlers[m.id].name);
    }
  }

  lemma AgentsStep(cfg: Config, s: State, m: Move)
    requires AgentsKnown(s.store.agents, s.versions)
    ensures AgentsKnown(StoreAfter(cfg, s, m).agents, VersionsAfter(cfg, s, m))
  {
    HistoryMoves(cfg, s, m);
    AgentMoves(cfg, s, m);
    var agents := AgentsAfter(s, m);
    forall n | n in agents
      ensures agents[n].agent.name == n && agents[n].agent in VersionsAfter(cfg, s, m)
    {
      if HandlerTicks(s, m) {
        HandlerStores(s, m, n);
      }
    }
  }

  lemma RecsStep(cfg: Config, s: State, m: Move)
    requires RecsKnown(s.recs, s.versions)
    ensures RecsKnown(RecsAfter(cfg, s, m), VersionsAfter(cfg, s, m))
  {
  }

  lemma RecordedStep(cfg: Config, s: State, m: Move)
    requires Recorded(s)
    ensures Recorded(Apply(cfg, s, m)) && Grows(s.origin, Apply(cfg, s, m).origin)
  {
    OriginStep(cfg, s, m);
    VersionsStep(cfg, s, m);
    AgentsStep(cfg, s, m);
    RecsStep(cfg, s, m);
  }

  /** What any reconcile builds is what the agent of its uid was built with. */
  lemma SnapshotBuilds(cfg: Config, s: State, id: nat)
    requires Recorded(s) && id in s.recs
    ensures
      var a := s.recs[id].agent;
      && a.uid in s.origin && a.name == s.origin[a.uid].name
      && OwnerReference(a) == OwnerReference(s.origin[a.uid])
      && BuildPvc(cfg, a) == BuildPvc(cfg, s.origin[a.uid])
      && BuildPod(cfg, a) == BuildPod(cfg, s.origin[a.uid])
      && BuildNetworkPolicy(cfg, a) == BuildNetworkPolicy(cfg, s.origin[a.uid])
      && BuildService(cfg, a) == BuildService(cfg, s.origin[a.uid])
  {
    BuildersIgnoreState(cfg, s.recs[id].agent, s.origin[s.recs[id].agent.uid]);
  }

  // ---------------------------------------------------------------------
  // Children are what their owner's builders make
  // ---------------------------------------------------------------------

  /** Exactly one owner, and it was once an agent. */
  predicate Owned(origin: map<nat, Agent>, meta: Meta) {
    && |meta.owners| == 1
    && meta.owners[0].uid in origin
    && meta.owners[0] == OwnerReference(origin[meta.owners[0].uid])
  }

  function Owner(origin: map<nat, Agent>, meta: Meta): Agent
    requires Owned(origin, meta)
  {
    origin[meta.owners[0].uid]
  }

  ghost predicate PvcsBuilt(cfg: Config, origin: map<nat, Agent>, pvcs: map<string, Pvc>) {
    forall k | k in pvcs ::
      && Owned(origin, pvcs[k].meta)
      && k == PvcName(Owner(origin, pvcs[k].meta).name)
      && pvcs[k] == AdmitPvc(cfg, BuildPvc(cfg, Owner(origin, pvcs[k].meta)))
  }

  ghost predicate PoliciesBuilt(cfg: Config, origin: map<nat, Agent>, policies: map<string, NetworkPolicy>) {
    forall k | k in policies ::
      && Owned(origin, policies[k].meta)
      && k == PolicyName(Owner(origin, policies[k].meta).name)
      && policies[k] == BuildNetworkPolicy(cfg, Owner(origin, policies[k].meta))
  }

  /** A service without the node ports the cluster allocated. */
  function Unallocated(svc: Service): Service {
    match svc.ports
    case None => svc
    case Some(ports) =>
      svc.(ports := Some(seq(|ports|, i requires 0 <= i < |ports| => ports[i].(nodePort := None))))
  }

  ghost predicate ServicesBuilt(cfg: Config, origin: map<nat, Agent>, services: map<string, Service>) {
    forall k | k in services ::
      && Owned(origin, services[k].meta)
      && k == ServiceName(Owner(origin, services[k].meta).name)
      && Unallocated(services[k]) == BuildService(cfg, Owner(origin, services[k].meta))
  }

  /** A pod without what the kubelet, the scheduler and deletion put on it. */
  function Bare(pod: Pod): Pod {
    pod.(status := None, terminating := false,
         spec := match pod.spec
                 case None => None
                 case Some(spec) => Some(spec.(nodeName := None)))
  }

  ghost predicate PodsBuilt(cfg: Config, origin: map<nat, Agent>, pods: map<string, Pod>) {
    forall k | k in pods ::
      && Owned(origin, pods[k].meta)
      && k == PodName(Owner(origin, pods[k].meta).name)
      && Bare(pods[k]) == Bare(Admit(cfg, BuildPod(cfg, Owner(origin, pods[k].meta))))
      && (PodPhase(pods[k]).Some? ==> PodPhase(pods[k]).value in POD_PHASES)
  }

  ghost predicate ChildrenBuilt(cfg: Config, s: State) {
    && PvcsBuilt(cfg, s.origin, s.store.pvcs)
    && PoliciesBuilt(cfg, s.origin, s.store.policies)
    && ServicesBuilt(cfg, s.origin, s.store.services)
    && PodsBuilt(cfg, s.origin, s.store.pods)
  }

  lemma PvcChange(cfg: Config, s: State, m: Move, k: string)
    requires k in PvcsAfter(cfg, s, m)
    ensures
      || (k in s.store.pvcs && PvcsAfter(cfg, s, m)[k] == s.store.pvcs[k])
      || (RecTicks(s, m) && k == PvcName(s.recs[m.id].agent.name)
          && PvcsAfter(cfg, s, m)[k] == AdmitPvc(cfg, BuildPvc(cfg, s.recs[m.id].agent)))
  {
  }

  lemma PvcsStep(cfg: Config, s: State, m: Move)
    requires Recorded(s) && PvcsBuilt(cfg, s.origin, s.store.pvcs)
    ensures PvcsBuilt(cfg, OriginAfter(cfg, s, m), StoreAfter(cfg, s, m).pvcs)
  {
    hide StoreAfter, OriginAfter, PvcsAfter, PvcsBuilt, PvcName;
    OriginStep(cfg, s, m);
    PvcMoves(cfg, s, m);
    var after := PvcsAfter(cfg, s, m);
    if RecTicks(s, m) {
      SnapshotBuilds(cfg, s, m.id);
    }
    forall k | k in after
      ensures
        || (k in s.store.pvcs && after[k] == s.store.pvcs[k])
        || exists u | u in s.origin ::
             k == PvcName(s.origin[u].name) && after[k] == AdmitPvc(cfg, BuildPvc(cfg, s.origin[u]))
    {
      PvcChange(cfg, s, m, k);
    }
    PvcsKept(cfg, s.origin, OriginAfter(cfg, s, m), s.store.pvcs, after);
  }

  /** Objects that were there, or are what an agent of the past is built, under
      the name it is built with. */
  lemma PvcsKept(cfg: Config, origin: map<nat, Agent>, later: map<nat, Agent>,
                 pvcs: map<string, Pvc>, after: map<string, Pvc>)
    requires PvcsBuilt(cfg, origin, pvcs) && Grows(origin, later)
    requires forall u | u in origin :: origin[u].uid == u
    requires
      forall k | k in after ::
        || (k in pvcs && after[k] == pvcs[k])
        || exists u | u in origin :: k == PvcName(origin[u].name) && after[k] == AdmitPvc(cfg, BuildPvc(cfg, origin[u]))
    ensures PvcsBuilt(cfg, later, after)
  {
  }

  lemma PolicyChange(cfg: Config, s: State, m: Move, k: string)
    requires k in PoliciesAfter(cfg, s, m)
    ensures
      || (k in s.store.policies && PoliciesAfter(cfg, s, m)[k] == s.store.policies[k])
      || (RecTicks(s, m) && k == PolicyName(s.recs[m.id].agent.name)
          && PoliciesAfter(cfg, s, m)[k] == BuildNetworkPolicy(cfg, s.recs[m.id].agent))
  {
  }

  lemma PoliciesStep(cfg: Config, s: State, m: Move)
    requires Recorded(s) && PoliciesBuilt(cfg, s.origin, s.store.policies)
    ensures PoliciesBuilt(cfg, OriginAfter(cfg, s, m), StoreAfter(cfg, s, m).policies)
  {
    hide StoreAfter, OriginAfter, PoliciesAfter, PoliciesBuilt, PolicyName;
    OriginStep(cfg, s, m);
    PolicyMoves(cfg, s, m);
    var after := PoliciesAfter(cfg, s, m);
    if RecTicks(s, m) {
      SnapshotBuilds(cfg, s, m.id);
    }
    forall k | k in after
      ensures
        || (k in s.store.policies && after[k] == s.store.policies[k])
        || exists u | u in s.origin ::
             k == PolicyName(s.origin[u].name) && after[k] == BuildNetworkPolicy(cfg, s.origin[u])
    {
      PolicyChange(cfg, s, m, k);
    }
    PoliciesKept(cfg, s.origin, OriginAfter(cfg, s, m), s.store.policies, after);
  }

  lemma PoliciesKept(cfg: Config, origin: map<nat, Agent>, later: map<nat, Agent>,
                     policies: map<string, NetworkPolicy>, after: map<string, NetworkPolicy>)
    requires PoliciesBuilt(cfg, origin, policies) && Grows(origin, later)
    requires forall u | u in origin :: origin[u].uid == u
    requires
      forall k | k in after ::
        || (k in policies && after[k] == policies[k])
        || exists u | u in origin :: k == PolicyName(origin[u].name) && after[k] == BuildNetworkPolicy(cfg, origin[u])
    ensures PoliciesBuilt(cfg, later, after)
  {
  }

  lemma FreshServiceIsUnallocated(cfg: Config, a: Agent)
    ensures Unallocated(BuildService(cfg, a)) == BuildService(cfg, a)
  {
    var svc := BuildService(cfg, a);
    assert Unallocated(svc).ports.value == svc.ports.value;
  }

  lemma AllocationKeepsTheRest(st: Store, k: string, nodePorts: seq<Option<i32>>, other: string)
    requires other in AllocateNodePorts(st, k, nodePorts).services
    ensures
      var after := AllocateNodePorts(st, k, nodePorts).services;
      && other in st.services
      && after[other].meta == st.services[other].meta
      && Unallocated(after[other]) == Unallocated(st.services[other])
  {
    var after := AllocateNodePorts(st, k, nodePorts).services;
    if after != st.services && other == k {
      assert Unallocated(after[k]).ports.value == Unallocated(st.services[k]).ports.value;
    }
  }

  lemma ServicesKept(cfg: Config, origin: map<nat, Agent>, later: map<nat, Agent>,
                     services: map<string, Service>, after: map<string, Service>)
    requires ServicesBuilt(cfg, origin, services) && Grows(origin, later)
    requires forall u | u in origin :: origin[u].uid == u
    requires
      forall k | k in after ::
        || (k in services && after[k].meta == services[k].meta && Unallocated(after[k]) == Unallocated(services[k]))
        || exists u | u in origin :: k == ServiceName(origin[u].name) && after[k] == BuildService(cfg, origin[u])
    ensures ServicesBuilt(cfg, later, after)
  {
    forall u | u in origin
      ensures Unallocated(BuildService(cfg, origin[u])) == BuildService(cfg, origin[u])
    {
      FreshServiceIsUnallocated(cfg, origin[u]);
    }
  }

  lemma ServiceChange(cfg: Config, s: State, m: Move, k: string)
    requires k in ServicesAfter(cfg, s, m)
    ensures
      var svc := ServicesAfter(cfg, s, m)[k];
      || (k in s.store.services && svc.meta == s.store.services[k].meta
          && Unallocated(svc) == Unallocated(s.store.services[k]))
      || (RecTicks(s, m) && k == ServiceName(s.recs[m.id].agent.name) && svc == BuildService(cfg, s.recs[m.id].agent))
  {
    if m.NodePorts? {
      AllocationKeepsTheRest(s.store, m.key, m.nodePorts, k);
    }
  }

  lemma ServicesStep(cfg: Config, s: State, m: Move)
    requires Recorded(s) && ServicesBuilt(cfg, s.origin, s.store.services)
    ensures ServicesBuilt(cfg, OriginAfter(cfg, s, m), StoreAfter(cfg, s, m).services)
  {
    hide StoreAfter, OriginAfter, ServicesAfter, ServicesBuilt, Unallocated, ServiceName;
    OriginStep(cfg, s, m);
    ServiceMoves(cfg, s, m);
    var after := ServicesAfter(cfg, s, m);
    if RecTicks(s, m) {
      SnapshotBuilds(cfg, s, m.id);
    }
    forall k | k in after
      ensures
        || (k in s.store.services && after[k].meta == s.store.services[k].meta
            && Unallocated(after[k]) == Unallocated(s.store.services[k]))
        || exists u | u in s.origin :: k == ServiceName(s.origin[u].name) && after[k] == BuildService(cfg, s.origin[u])
    {
      ServiceChange(cfg, s, m, k);
    }
    ServicesKept(cfg, s.origin, OriginAfter(cfg, s, m), s.store.services, after);
  }

  /** The same pod but for what the environment puts on it. */
  predicate SamePod(was: Pod, now: Pod) {
    && now.meta == was.meta && Bare(now) == Bare(was)
    && (PodPhase(now) == PodPhase(was) || (PodPhase(now).Some? ==> PodPhase(now).value in POD_PHASES))
  }

  /** What the environment may do to a pod leaves its built part alone. */
  lemma EnvironmentKeepsPods(st: Store, m: Move, k: string)
    requires k in EnvStore(st, m).pods
    ensures k in st.pods && SamePod(st.pods[k], EnvStore(st, m).pods[k])
  {
  }

  lemma PodsKept(cfg: Config, origin: map<nat, Agent>, later: map<nat, Agent>,
                 pods: map<string, Pod>, after: map<string, Pod>)
    requires PodsBuilt(cfg, origin, pods) && Grows(origin, later)
    requires forall u | u in origin :: origin[u].uid == u
    requires
      forall k | k in after ::
        || (k in pods && SamePod(pods[k], after[k]))
        || exists u | u in origin :: k == PodName(origin[u].name) && after[k] == Admit(cfg, BuildPod(cfg, origin[u]))
    ensures PodsBuilt(cfg, later, after)
  {
  }

  /** A pod after a move was there before, or the moving reconcile created it. */
  lemma PodChange(cfg: Config, s: State, m: Move, k: string)
    requires k in PodsAfter(cfg, s, m)
    ensures
      || (k in s.store.pods && SamePod(s.store.pods[k], PodsAfter(cfg, s, m)[k]))
      || (RecTicks(s, m) && k == PodName(s.recs[m.id].agent.name)
          && PodsAfter(cfg, s, m)[k] == Admit(cfg, BuildPod(cfg, s.recs[m.id].agent)))
  {
    if !RecTicks(s, m) && !HandlerTicks(s, m) {
      EnvironmentKeepsPods(s.store, m, k);
    }
  }

  lemma PodsStep(cfg: Config, s: State, m: Move)
    requires Recorded(s) && PodsBuilt(cfg, s.origin, s.store.pods)
    ensures PodsBuilt(cfg, OriginAfter(cfg, s, m), StoreAfter(cfg, s, m).pods)
  {
    OriginStep(cfg, s, m);
    PodMoves(cfg, s, m);
    var after := PodsAfter(cfg, s, m);
    if RecTicks(s, m) {
      SnapshotBuilds(cfg, s, m.id);
    }
    forall k | k in after
      ensures
        || (k in s.store.pods && SamePod(s.store.pods[k], after[k]))
        || exists u | u in s.origin ::
             k == PodName(s.origin[u].name) && after[k] == Admit(cfg, BuildPod(cfg, s.origin[u]))
    {
      PodChange(cfg, s, m, k);
    }
    PodsKept(cfg, s.origin, OriginAfter(cfg, s, m), s.store.pods, after);
  }

  // ---------------------------------------------------------------------
  // Reachable states
  // ---------------------------------------------------------------------

  ghost predicate Safe(cfg: Config, s: State) {
    Recorded(s) && ChildrenBuilt(cfg, s)
  }

  lemma SafeStep(cfg: Config, s: State, m: Move)
    requires Safe(cfg, s)
    ensures Safe(cfg, Apply(cfg, s, m))
  {
    RecordedStep(cfg, s, m);
    PvcsStep(cfg, s, m);
    PoliciesStep(cfg, s, m);
    ServicesStep(cfg, s, m);
    PodsStep(cfg, s, m);
  }

  lemma {:induction false} SafeRun(cfg: Config, s: State, ms: seq<Move>)
    requires Safe(cfg, s)
    ensures Safe(cfg, Run(cfg, s, ms)) && Grows(s.origin, Run(cfg, s, ms).origin)
  {
    if ms != [] {
      var before, m := Run(cfg, s, ms[..|ms| - 1]), ms[|ms| - 1];
      SafeRun(cfg, s, ms[..|ms| - 1]);
      SafeStep(cfg, before, m);
      RecordedStep(cfg, before, m);
    }
  }
}
