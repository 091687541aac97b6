/** What an agent's objects are, field by field, as its spec asks for them: of the
    objects the operator builds, and of the agent's own objects in every safe state. */
module Builds {
  import opened Wrappers
  import opened Crd
  import opened Resources
  import opened ApiServer
  import opened System
  import opened Safety
  import opened Ownership

  // ---------------------------------------------------------------------
  // The laws
  // ---------------------------------------------------------------------

  /** Named and labelled for the agent, and owned by it alone. */
  predicate Belongs(cfg: Config, meta: Meta, name: string, a: Agent) {
    && meta.name == name && meta.namespace == cfg.namespace
    && meta.labels == map["agents.near.ai/name" := a.name, "app" := "agent"]
    && |meta.owners| == 1
    && var o := meta.owners[0];
       && o.name == a.name && o.uid == a.uid && o.kind == "Agent" && o.apiVersion == "agents.near.ai/v1"
       && o.controller && o.blockOwnerDeletion
  }

  /** The environment is the spec's, in order, and then the key if there is one. */
  predicate Environment(env: Option<seq<EnvVar>>, spec: AgentSpec) {
    var vars := env.GetOr([]);
    && (env.Some? ==> vars != [])
    && |vars| == |spec.env| + (if spec.sshPubkey.Some? then 1 else 0)
    && (forall i | 0 <= i < |spec.env| :: vars[i] == spec.env[i])
    && (spec.sshPubkey.Some? ==>
          vars[|spec.env|].name == "SSH_PUBKEY" && vars[|spec.env|].value == spec.sshPubkey.value)
  }

  /** No probe with a command or without ports; otherwise of the first port. */
  predicate Probes(probe: Option<Probe>, spec: AgentSpec, period: int) {
    && (probe.None? <==> spec.command != [] || spec.ports == [])
    && (probe.Some? ==>
          && probe.value.tcpPort == spec.ports[0].port
          && probe.value.initialDelaySeconds == 30 && probe.value.periodSeconds == period
          && probe.value.failureThreshold == 10)
  }

  predicate Listens(ports: seq<ContainerPort>, spec: AgentSpec) {
    && |ports| == |spec.ports|
    && forall i | 0 <= i < |ports| ::
         var p, asked := ports[i], spec.ports[i];
         p.containerPort == asked.port && p.name == asked.name && p.protocol == "TCP"
  }

  /** The container runs the spec's image and command, as privileged as its profile
      says, on its ports, data and environment. */
  predicate RunsAsAsked(c: Container, spec: AgentSpec) {
    && c.name == "agent" && c.image == Some(spec.image)
    && (c.command == if spec.command == [] then None else Some(spec.command))
    && (c.securityContext.Trusted? <==> spec.securityProfile == "trusted")
    && Listens(c.ports, spec)
    && Probes(c.livenessProbe, spec, 10) && Probes(c.readinessProbe, spec, 5)
    && Environment(c.env, spec)
    && |c.volumeMounts| == 2
    && c.volumeMounts[0].name == "agent-data" && c.volumeMounts[0].mountPath == spec.volumeMount
    && c.volumeMounts[1].name == "tmp" && c.volumeMounts[1].mountPath == "/tmp"
  }

  /** `stored` is how a quantity is kept: as it is, or as the API server prints it. */
  predicate Bounded(cfg: Config, c: Container, spec: AgentSpec, stored: string -> string) {
    && c.resources.Some? && c.resources.value.limits.Some? && c.resources.value.requests.Some?
    && c.resources.value.limits.value == map["cpu" := stored(spec.cpu), "memory" := stored(spec.memory)]
    && c.resources.value.requests.value
       == map["cpu" := stored(cfg.cpuRequest(spec.cpu)), "memory" := stored(cfg.memoryRequest(spec.memory))]
  }

  /** The pod around it: restarted always, thirty seconds to stop, on the agent's own
      claim, and under the sysbox runtime in a user namespace iff it runs Docker. */
  predicate Hosts(p: PodSpec, a: Agent) {
    && p.restartPolicy == "Always" && p.terminationGraceSeconds == 30
    && (p.runtimeClass == if a.spec.enableDocker then Some("sysbox-runc") else None)
    && (p.hostUsers == if a.spec.enableDocker then Some(false) else None)
    && |p.volumes| == 2
    && p.volumes[0].name == "agent-data" && p.volumes[0].source.Claim?
    && p.volumes[0].source.claimName == "agent-" + a.name + "-data" && !p.volumes[0].source.readOnly
    && p.volumes[1].name == "tmp" && p.volumes[1].source.EmptyDir?
  }

  predicate PodAsAsked(cfg: Config, pod: Pod, a: Agent, stored: string -> string) {
    && Belongs(cfg, pod.meta, "agent-" + a.name, a)
    && pod.spec.Some? && |pod.spec.value.containers| == 1 && Hosts(pod.spec.value, a)
    && RunsAsAsked(pod.spec.value.containers[0], a.spec)
    && Bounded(cfg, pod.spec.value.containers[0], a.spec, stored)
  }

  /** One claim of the size asked for, for one node at a time. */
  predicate PvcAsAsked(cfg: Config, pvc: Pvc, a: Agent, stored: string -> string) {
    && Belongs(cfg, pvc.meta, "agent-" + a.name + "-data", a)
    && pvc.accessModes == ["ReadWriteOnce"] && pvc.storageClass == cfg.storageClass
    && pvc.requests == map["storage" := stored(a.spec.disk)]
  }

  /** A node port service to the agent's pod, each declared port to itself. */
  predicate ServiceAsAsked(cfg: Config, svc: Service, a: Agent) {
    && Belongs(cfg, svc.meta, "agent-" + a.name, a)
    && svc.serviceType == "NodePort" && svc.selector == map["agents.near.ai/name" := a.name]
    && svc.ports.Some? && |svc.ports.value| == |a.spec.ports|
    && forall i | 0 <= i < |a.spec.ports| ::
         var p := svc.ports.value[i];
         && p.name == Some(a.spec.ports[i].name) && p.protocol == "TCP"
         && p.port == a.spec.ports[i].port && p.targetPort == a.spec.ports[i].port
  }

  ghost predicate PolicyAsAsked(cfg: Config, np: NetworkPolicy, a: Agent) {
    && Belongs(cfg, np.meta, "agent-" + a.name + "-isolation", a)
    && np.podSelector == map["agents.near.ai/name" := a.name]
    && np.policyTypes == ["Ingress", "Egress"]
    && |np.egress| == 1 && np.egress[0].to.None? && np.egress[0].ports.Some?
    && (forall p: PolicyPort ::
          p in np.egress[0].ports.value
          <==> (p.protocol == "TCP" && p.port in {53, 80, 443}) || (p.protocol == "UDP" && p.port == 53))
  }

  // ---------------------------------------------------------------------
  // Of the builds
  // ---------------------------------------------------------------------

  lemma BuiltContainerRunsAsAsked(cfg: Config, spec: AgentSpec)
    ensures RunsAsAsked(BuildContainer(cfg, spec), spec)
    ensures Bounded(cfg, BuildContainer(cfg, spec), spec, q => q)
  {
  }

  lemma BuiltPodIsAsAsked(cfg: Config, a: Agent)
    ensures PodAsAsked(cfg, BuildPod(cfg, a), a, q => q)
  {
    hide BuildContainer, RunsAsAsked, Bounded;
    BuiltContainerRunsAsAsked(cfg, a.spec);
  }

  lemma BuiltPvcIsAsAsked(cfg: Config, a: Agent)
    ensures PvcAsAsked(cfg, BuildPvc(cfg, a), a, q => q)
  {
  }

  lemma BuiltServiceIsAsAsked(cfg: Config, a: Agent)
    ensures ServiceAsAsked(cfg, BuildService(cfg, a), a)
  {
  }

  lemma BuiltPolicyIsAsAsked(cfg: Config, a: Agent)
    ensures PolicyAsAsked(cfg, BuildNetworkPolicy(cfg, a), a)
  {
  }

  // ---------------------------------------------------------------------
  // Of the stored objects
  // ---------------------------------------------------------------------

  lemma AdmittedContainer(cfg: Config, c: Container, spec: AgentSpec)
    requires RunsAsAsked(c, spec) && Bounded(cfg, c, spec, q => q)
    ensures RunsAsAsked(AdmitContainer(cfg, c), spec) && Bounded(cfg, AdmitContainer(cfg, c), spec, cfg.canon)
  {
    hide Probes, Environment, Listens;
  }

  lemma AdmittedPodIsAsAsked(cfg: Config, pod: Pod, a: Agent)
    requires PodAsAsked(cfg, pod, a, q => q)
    ensures PodAsAsked(cfg, Admit(cfg, pod), a, cfg.canon)
  {
    hide RunsAsAsked, Bounded, Belongs, AdmitContainer;
    var c := pod.spec.value.containers[0];
    AdmittedContainer(cfg, c, a.spec);
    assert Admit(cfg, pod).spec.value.containers == [AdmitContainer(cfg, c)];
  }

  lemma SameBuiltPart(cfg: Config, pod: Pod, other: Pod, a: Agent, stored: string -> string)
    requires Bare(pod) == Bare(other) && PodAsAsked(cfg, other, a, stored)
    ensures PodAsAsked(cfg, pod, a, stored)
  {
    assert pod.meta == Bare(pod).meta && other.meta == Bare(other).meta;
    assert pod.spec.value.containers == other.spec.value.containers;
  }

  lemma SameUnallocated(cfg: Config, svc: Service, other: Service, a: Agent)
    requires Unallocated(svc) == other && ServiceAsAsked(cfg, other, a)
    ensures ServiceAsAsked(cfg, svc, a)
  {
  }

  /** In a safe state, whatever a live agent owns is as its stored spec asks. */
  lemma OwnObjectsAreAsAsked(cfg: Config, s: State, n: string)
    requires Safe(cfg, s) && n in s.store.agents
    ensures
      var st := s.store;
      var a := st.agents[n].agent;
      && (forall k | k in st.pods && OwnedBy(st.pods[k].meta, a) :: PodAsAsked(cfg, st.pods[k], a, cfg.canon))
      && (forall k | k in st.pvcs && OwnedBy(st.pvcs[k].meta, a) :: PvcAsAsked(cfg, st.pvcs[k], a, cfg.canon))
      && (forall k | k in st.services && OwnedBy(st.services[k].meta, a) :: ServiceAsAsked(cfg, st.services[k], a))
      && (forall k | k in st.policies && OwnedBy(st.policies[k].meta, a) :: PolicyAsAsked(cfg, st.policies[k], a))
  {
    hide BuildPod, BuildPvc, BuildService, BuildNetworkPolicy, Admit, Bare, Unallocated;
    hide PodAsAsked, ServiceAsAsked, PolicyAsAsked, Safe, OwnedBy;
    var st := s.store;
    var a := st.agents[n].agent;
    OwnChildrenAreCurrent(cfg, s, n);
    BuiltPodIsAsAsked(cfg, a);
    AdmittedPodIsAsAsked(cfg, BuildPod(cfg, a), a);
    BuiltPvcIsAsAsked(cfg, a);
    BuiltServiceIsAsAsked(cfg, a);
    BuiltPolicyIsAsAsked(cfg, a);
    forall k | k in st.pods && OwnedBy(st.pods[k].meta, a)
      ensures PodAsAsked(cfg, st.pods[k], a, cfg.canon)
    {
      SameBuiltPart(cfg, st.pods[k], Admit(cfg, BuildPod(cfg, a)), a, cfg.canon);
    }
    forall k | k in st.services && OwnedBy(st.services[k].meta, a)
      ensures ServiceAsAsked(cfg, st.services[k], a)
    {
      SameUnallocated(cfg, st.services[k], BuildService(cfg, a), a);
    }
  }
}
