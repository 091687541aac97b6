/** What the generated network policies let through. Traffic is judged by the
    Kubernetes rules: a pod selected by no policy of a direction is open in that
    direction, otherwise the union of the selecting policies decides; a missing
    or empty peer list matches every peer, a missing or empty port list every
    port. */
module Isolation {
  import opened Wrappers
  import opened Crd
  import opened Resources
  import opened ApiServer
  import opened System
  import Safety
  import Ownership
  import Convergence

  predicate Selects(selector: Selector, labels: map<string, string>) {
    forall k | k in selector :: k in labels && labels[k] == selector[k]
  }

  predicate PeersMatch(peers: Option<seq<Selector>>, labels: map<string, string>) {
    peers.None? || peers.value == [] || exists sel | sel in peers.value :: Selects(sel, labels)
  }

  predicate PortsMatch(ports: Option<seq<PolicyPort>>, p: PolicyPort) {
    ports.None? || ports.value == [] || p in ports.value
  }

  predicate GovernsIngress(np: NetworkPolicy, labels: map<string, string>) {
    "Ingress" in np.policyTypes && Selects(np.podSelector, labels)
  }

  predicate GovernsEgress(np: NetworkPolicy, labels: map<string, string>) {
    "Egress" in np.policyTypes && Selects(np.podSelector, labels)
  }

  predicate AdmitsIngress(np: NetworkPolicy, src: map<string, string>, p: PolicyPort) {
    exists rule | rule in np.ingress :: PeersMatch(rule.from, src) && PortsMatch(rule.ports, p)
  }

  predicate AdmitsEgress(np: NetworkPolicy, dst: map<string, string>, p: PolicyPort) {
    exists rule | rule in np.egress :: PeersMatch(rule.to, dst) && PortsMatch(rule.ports, p)
  }

  predicate MayReceive(policies: set<NetworkPolicy>, src: map<string, string>, dst: map<string, string>,
                       p: PolicyPort) {
    || (forall np | np in policies :: !GovernsIngress(np, dst))
    || exists np | np in policies :: GovernsIngress(np, dst) && AdmitsIngress(np, src, p)
  }

  predicate MaySend(policies: set<NetworkPolicy>, src: map<string, string>, dst: map<string, string>, p: PolicyPort) {
    || (forall np | np in policies :: !GovernsEgress(np, src))
    || exists np | np in policies :: GovernsEgress(np, src) && AdmitsEgress(np, dst, p)
  }

  predicate Reaches(policies: set<NetworkPolicy>, src: map<string, string>, dst: map<string, string>, p: PolicyPort) {
    MaySend(policies, src, dst, p) && MayReceive(policies, src, dst, p)
  }

  // ---------------------------------------------------------------------
  // A cluster holding any set of agents
  // ---------------------------------------------------------------------

  ghost predicate UniqueNames(agents: set<Agent>) {
    forall a, b | a in agents && b in agents && a.name == b.name :: a == b
  }

  function Policies(cfg: Config, agents: set<Agent>): set<NetworkPolicy> {
    set a | a in agents :: BuildNetworkPolicy(cfg, a)
  }

  function Labels(cfg: Config, a: Agent): map<string, string> {
    BuildPod(cfg, a).meta.labels
  }

  /** The policy and the service of one agent select the pod of another exactly
      when the two share a name. */
  lemma SelectsOwnPodOnly(cfg: Config, a: Agent, b: Agent)
    ensures Selects(BuildNetworkPolicy(cfg, a).podSelector, Labels(cfg, b)) <==> a.name == b.name
    ensures Selects(BuildService(cfg, a).selector, Labels(cfg, b)) <==> a.name == b.name
  {
    assert NAME_LABEL != "app";
    assert NAME_LABEL in BuildNetworkPolicy(cfg, a).podSelector;
    assert NAME_LABEL in BuildService(cfg, a).selector;
    assert Labels(cfg, b)[NAME_LABEL] == b.name;
  }

  lemma OwnEgress(cfg: Config, a: Agent, dst: map<string, string>, p: PolicyPort)
    ensures AdmitsEgress(BuildNetworkPolicy(cfg, a), dst, p) <==> p in EGRESS_PORTS
  {
    var np := BuildNetworkPolicy(cfg, a);
    assert np.egress[0] in np.egress;
  }

  /** The two kinds of pods the ingress rule without ports is for. */
  predicate Infrastructure(labels: map<string, string>) {
    Selects(map["app" := "ingress-controller"], labels) || Selects(map["app" := "ssh-proxy"], labels)
  }

  /** Whom an agent's policy admits: infrastructure on every port, anyone at all on
      the listed ones. */
  lemma OwnIngressFromAnyone(cfg: Config, b: Agent, src: map<string, string>, p: PolicyPort)
    ensures
      AdmitsIngress(BuildNetworkPolicy(cfg, b), src, p)
      <==> Infrastructure(src) || b.spec.ports == [] || p in PolicyPorts(b.spec.ports)
  {
    var np := BuildNetworkPolicy(cfg, b);
    var peers := np.ingress[0].from.value;
    assert np.ingress[0] in np.ingress && np.ingress[1] in np.ingress;
    assert peers[0] in peers && peers[1] in peers;
  }

  /** A pod labelled as an agent is neither the ingress controller nor the ssh
      proxy. */
  lemma AgentsAreNotInfrastructure(cfg: Config, a: Agent)
    ensures !Infrastructure(Labels(cfg, a))
  {
    assert NAME_LABEL != "app";
    assert Labels(cfg, a)["app"] == "agent";
    assert |"agent"| == 5 && |"ingress-controller"| == 18 && |"ssh-proxy"| == 9;
    assert map["app" := "ingress-controller"]["app"] == "ingress-controller";
    assert map["app" := "ssh-proxy"]["app"] == "ssh-proxy";
  }

  /** Listening in the sense of the policy: an empty port list opens every port. */
  ghost predicate Admits(b: Agent, p: PolicyPort) {
    b.spec.ports == [] || (p.protocol == "TCP" && exists q | q in b.spec.ports :: q.port == p.port)
  }

  lemma AdmitsPolicyPorts(b: Agent, p: PolicyPort)
    ensures Admits(b, p) <==> b.spec.ports == [] || p in PolicyPorts(b.spec.ports)
  {
    var listed := PolicyPorts(b.spec.ports);
    if p in listed {
      var i :| 0 <= i < |listed| && listed[i] == p;
      assert b.spec.ports[i] in b.spec.ports;
    }
    if p.protocol == "TCP" && exists q | q in b.spec.ports :: q.port == p.port {
      var q :| q in b.spec.ports && q.port == p.port;
      var i :| 0 <= i < |b.spec.ports| && b.spec.ports[i] == q;
      assert listed[i] == p;
    }
  }

  /** Of all agents' policies, an agent's pod is governed by its own alone. */
  lemma GovernedByOwn(cfg: Config, c: Agent, a: Agent)
    ensures GovernsEgress(BuildNetworkPolicy(cfg, c), Labels(cfg, a)) <==> c.name == a.name
    ensures GovernsIngress(BuildNetworkPolicy(cfg, c), Labels(cfg, a)) <==> c.name == a.name
  {
    SelectsOwnPodOnly(cfg, c, a);
    assert BuildNetworkPolicy(cfg, c).policyTypes[0] == "Ingress";
    assert BuildNetworkPolicy(cfg, c).policyTypes[1] == "Egress";
  }

  lemma AgentSends(cfg: Config, agents: set<Agent>, a: Agent, dst: map<string, string>, p: PolicyPort)
    requires UniqueNames(agents) && a in agents
    ensures MaySend(Policies(cfg, agents), Labels(cfg, a), dst, p) <==> p in EGRESS_PORTS
  {
    forall c | c in agents
      ensures GovernsEgress(BuildNetworkPolicy(cfg, c), Labels(cfg, a)) <==> c == a
    {
      GovernedByOwn(cfg, c, a);
    }
    assert BuildNetworkPolicy(cfg, a) in Policies(cfg, agents);
    OwnEgress(cfg, a, dst, p);
  }

  /** What an agent's pod receives under the policies of any set of agents, from a
      pod with any labels. */
  lemma ReceivesFromAnyone(cfg: Config, agents: set<Agent>, src: map<string, string>, b: Agent, p: PolicyPort)
    requires UniqueNames(agents) && b in agents
    ensures MayReceive(Policies(cfg, agents), src, Labels(cfg, b), p) <==> Infrastructure(src) || Admits(b, p)
  {
    forall c | c in agents
      ensures GovernsIngress(BuildNetworkPolicy(cfg, c), Labels(cfg, b)) <==> c == b
    {
      GovernedByOwn(cfg, c, b);
    }
    assert BuildNetworkPolicy(cfg, b) in Policies(cfg, agents);
    OwnIngressFromAnyone(cfg, b, src, p);
    AdmitsPolicyPorts(b, p);
  }

  lemma AgentReceives(cfg: Config, agents: set<Agent>, src: Agent, b: Agent, p: PolicyPort)
    requires UniqueNames(agents) && b in agents
    ensures MayReceive(Policies(cfg, agents), Labels(cfg, src), Labels(cfg, b), p) <==> Admits(b, p)
  {
    ReceivesFromAnyone(cfg, agents, Labels(cfg, src), b, p);
    AgentsAreNotInfrastructure(cfg, src);
  }

  /** Some port of every agent is open to every pod there is, so it is never true
      that only the ingress controller and the ssh proxy can reach an agent: a pod
      without labels, which no policy restricts, is one that does. */
  lemma OpenToEveryone(cfg: Config, agents: set<Agent>, b: Agent) returns (p: PolicyPort)
    requires UniqueNames(agents) && b in agents
    ensures forall src: map<string, string> :: MayReceive(Policies(cfg, agents), src, Labels(cfg, b), p)
    ensures !Infrastructure(map[]) && Reaches(Policies(cfg, agents), map[], Labels(cfg, b), p)
  {
    p := PolicyPort(if b.spec.ports == [] then 0 else b.spec.ports[0].port, "TCP");
    if b.spec.ports != [] {
      assert b.spec.ports[0] in b.spec.ports;
    }
    assert Admits(b, p);
    forall src: map<string, string>
      ensures MayReceive(Policies(cfg, agents), src, Labels(cfg, b), p)
    {
      ReceivesFromAnyone(cfg, agents, src, b, p);
    }
    assert "app" in map["app" := "ingress-controller"] && "app" in map["app" := "ssh-proxy"];
    Unrestricted(cfg, agents, map[], Labels(cfg, b), p);
  }

  /** A pod that carries no agent's name is restricted by no agent's policy. */
  lemma Unrestricted(cfg: Config, agents: set<Agent>, src: map<string, string>, dst: map<string, string>, p: PolicyPort)
    requires NAME_LABEL !in src
    ensures MaySend(Policies(cfg, agents), src, dst, p)
  {
    forall a | a in agents
      ensures !GovernsEgress(BuildNetworkPolicy(cfg, a), src)
    {
      assert NAME_LABEL in BuildNetworkPolicy(cfg, a).podSelector;
    }
  }

  /** Which pods other than agents reach an agent: the infrastructure on all ports,
      all others on the ports the agent listens on. */
  lemma OutsiderReachability(cfg: Config, agents: set<Agent>, src: map<string, string>, b: Agent, p: PolicyPort)
    requires UniqueNames(agents) && b in agents && NAME_LABEL !in src
    ensures Reaches(Policies(cfg, agents), src, Labels(cfg, b), p) <==> Infrastructure(src) || Admits(b, p)
  {
    Unrestricted(cfg, agents, src, Labels(cfg, b), p);
    ReceivesFromAnyone(cfg, agents, src, b, p);
  }

  /** Which traffic the policies let pass between the pods of two agents, whatever
      else runs in the cluster. */
  lemma AgentReachability(cfg: Config, agents: set<Agent>, a: Agent, b: Agent, p: PolicyPort)
    requires UniqueNames(agents) && a in agents && b in agents && a != b
    ensures
      Reaches(Policies(cfg, agents), Labels(cfg, a), Labels(cfg, b), p)
      <==> p in EGRESS_PORTS && Admits(b, p)
  {
    AgentSends(cfg, agents, a, Labels(cfg, b), p);
    AgentReceives(cfg, agents, a, b, p);
  }

  ghost predicate Isolated(cfg: Config, agents: set<Agent>, b: Agent) {
    forall a, p | a in agents && a != b :: !Reaches(Policies(cfg, agents), Labels(cfg, a), Labels(cfg, b), p)
  }

  lemma NoOpenEgressPort(b: Agent)
    ensures
      (forall p | p in EGRESS_PORTS :: !Admits(b, p))
      <==> b.spec.ports != [] && forall q | q in b.spec.ports :: q.port !in {53, 80, 443}
  {
    assert EGRESS_PORTS[2] in EGRESS_PORTS;
    forall q | q in b.spec.ports && q.port in {53, 80, 443}
      ensures exists p :: p in EGRESS_PORTS && Admits(b, p)
    {
      var p := PolicyPort(q.port, "TCP");
      assert p == EGRESS_PORTS[1] || p == EGRESS_PORTS[2] || p == EGRESS_PORTS[3];
      assert Admits(b, p);
    }
  }

  /** No other agent can reach `b` on any port iff `b` declares ports and none of
      them is 53, 80 or 443. The ports the API assigns by default include 80, so
      two default agents are not isolated from each other. */
  lemma IsolatedIff(cfg: Config, agents: set<Agent>, b: Agent, other: Agent)
    requires UniqueNames(agents) && b in agents && other in agents && other != b
    ensures
      Isolated(cfg, agents, b)
      <==> b.spec.ports != [] && forall q | q in b.spec.ports :: q.port !in {53, 80, 443}
  {
    NoOpenEgressPort(b);
    if Isolated(cfg, agents, b) {
      forall p | p in EGRESS_PORTS
        ensures !Admits(b, p)
      {
        AgentReachability(cfg, agents, other, b, p);
      }
    }
    if forall p | p in EGRESS_PORTS :: !Admits(b, p) {
      forall a, p | a in agents && a != b
        ensures !Reaches(Policies(cfg, agents), Labels(cfg, a), Labels(cfg, b), p)
      {
        AgentReachability(cfg, agents, a, b, p);
      }
    }
  }

  /** The port list the API assigns to a plain create request. */
  lemma DefaultAgentsAreReachable(cfg: Config, a: Agent, b: Agent)
    requires a.name != b.name
    requires b.spec.ports == [PortSpec("ssh", 22), PortSpec("http", 80)]
    ensures Reaches(Policies(cfg, {a, b}), Labels(cfg, a), Labels(cfg, b), PolicyPort(80, "TCP"))
    ensures !Reaches(Policies(cfg, {a, b}), Labels(cfg, a), Labels(cfg, b), PolicyPort(22, "TCP"))
  {
    assert b.spec.ports[1] in b.spec.ports;
    assert EGRESS_PORTS[2] in EGRESS_PORTS;
    AgentReachability(cfg, {a, b}, a, b, PolicyPort(80, "TCP"));
    AgentReachability(cfg, {a, b}, a, b, PolicyPort(22, "TCP"));
  }

  // ---------------------------------------------------------------------
  // A converged platform
  // ---------------------------------------------------------------------

  /** Every agent has converged and nothing is left for garbage collection. */
  ghost predicate AtRest(st: Store) {
    && Ownership.Quiescent(st)
    && forall n | n in st.agents :: Convergence.Converged(st, st.agents[n].agent)
  }

  function StoredAgents(st: Store): set<Agent> {
    set n | n in st.agents :: st.agents[n].agent
  }

  function StoredPolicies(st: Store): set<NetworkPolicy> {
    set k | k in st.policies :: st.policies[k]
  }

  lemma StoredNames(cfg: Config, s: State, n: string)
    requires Safety.Recorded(s) && n in s.store.agents
    ensures s.store.agents[n].agent.name == n
  {
    Ownership.LiveBuilds(cfg, s, n);
  }

  /** The policies stored are those of the stored agents. */
  lemma PoliciesAreOfTheAgents(cfg: Config, s: State)
    requires Safety.Safe(cfg, s) && AtRest(s.store)
    ensures StoredPolicies(s.store) == Policies(cfg, StoredAgents(s.store))
    ensures UniqueNames(StoredAgents(s.store))
  {
    hide BuildNetworkPolicy, BuildPvc, BuildPod, BuildService, PolicyName, PvcName, PodName, ServiceName;
    var st := s.store;
    forall n | n in st.agents
      ensures st.agents[n].agent.name == n
    {
      StoredNames(cfg, s, n);
    }
    Ownership.QuiescentMeansCurrent(cfg, s);
    forall k | k in st.policies
      ensures st.policies[k] in Policies(cfg, StoredAgents(st))
    {
      StoredPolicyIsBuilt(cfg, s, k);
    }
    forall a | a in StoredAgents(st)
      ensures BuildNetworkPolicy(cfg, a) in StoredPolicies(st)
    {
      Ownership.OwnChildrenAreCurrent(cfg, s, a.name);
      assert Convergence.Own(Convergence.PolicyMeta(st.policies, a.name), a);
      assert st.policies[PolicyName(a.name)] == BuildNetworkPolicy(cfg, a);
    }
  }

  lemma StoredPolicyIsBuilt(cfg: Config, s: State, k: string)
    requires Safety.Safe(cfg, s) && k in s.store.policies
    requires Ownership.OfCurrentAgent(s, s.store.policies[k].meta, k, PolicyName)
    ensures s.store.policies[k] in Policies(cfg, StoredAgents(s.store))
  {
    hide BuildNetworkPolicy, BuildPvc, BuildPod, BuildService, PolicyName, PvcName, PodName, ServiceName;
    var n := Safety.Owner(s.origin, s.store.policies[k].meta).name;
    Ownership.OwnChildrenAreCurrent(cfg, s, n);
    var a := s.store.agents[n].agent;
    assert a in StoredAgents(s.store);
    assert BuildNetworkPolicy(cfg, a) in Policies(cfg, StoredAgents(s.store));
  }

  /** The labels of a converged running agent's stored pod. */
  lemma StoredLabels(cfg: Config, s: State, n: string)
    requires Safety.Safe(cfg, s) && n in s.store.agents
    requires Convergence.Converged(s.store, s.store.agents[n].agent) && s.store.agents[n].agent.spec.state.Running?
    ensures s.store.agents[n].agent.name == n && PodName(n) in s.store.pods
    ensures s.store.pods[PodName(n)].meta.labels == Labels(cfg, s.store.agents[n].agent)
  {
    hide BuildNetworkPolicy, BuildPvc, BuildService, PolicyName, PvcName, PodName, ServiceName;
    StoredNames(cfg, s, n);
    Ownership.OwnChildrenAreCurrent(cfg, s, n);
    assert Safety.Bare(s.store.pods[PodName(n)]).meta == s.store.pods[PodName(n)].meta;
  }

  /** On a platform at rest, in any safe state: between the stored pods of two
      running agents, under the stored policies, exactly the traffic passes that
      goes to TCP 53, 80 or 443 (or UDP 53) and that the receiver admits. */
  lemma StoredReachability(cfg: Config, s: State, n: string, o: string, p: PolicyPort)
    requires Safety.Safe(cfg, s) && AtRest(s.store)
    requires n in s.store.agents && o in s.store.agents && n != o
    requires s.store.agents[n].agent.spec.state.Running? && s.store.agents[o].agent.spec.state.Running?
    ensures PodName(n) in s.store.pods && PodName(o) in s.store.pods
    ensures
      Reaches(StoredPolicies(s.store), s.store.pods[PodName(n)].meta.labels, s.store.pods[PodName(o)].meta.labels, p)
      <==> p in EGRESS_PORTS && Admits(s.store.agents[o].agent, p)
  {
    hide BuildNetworkPolicy, BuildPvc, BuildPod, BuildService, PodName, Policies, StoredPolicies, Reaches;
    hide Admits, Labels, Safety.Safe, AtRest, UniqueNames;
    RestingAgents(s.store, n, o);
    PoliciesAreOfTheAgents(cfg, s);
    StoredLabels(cfg, s, n);
    StoredLabels(cfg, s, o);
    AgentReachability(cfg, StoredAgents(s.store), s.store.agents[n].agent, s.store.agents[o].agent, p);
  }

  lemma RestingAgents(st: Store, n: string, o: string)
    requires AtRest(st) && n in st.agents && o in st.agents
    ensures Convergence.Converged(st, st.agents[n].agent) && Convergence.Converged(st, st.agents[o].agent)
  {
  }
}
