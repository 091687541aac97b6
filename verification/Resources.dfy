/** The Kubernetes objects an agent owns and how the operator builds them. */
module Resources {
  import opened Wrappers
  import opened Crd
  import Quantities

  /** What the builders take from outside the agent: the operator's namespace
      and STORAGE_CLASS setting, the request it derives from a limit, and the way
      the API server rewrites quantity strings when it stores them. What is proved
      of the platform holds for every configuration; `OperatorConfig` is the one
      the operator computes requests with. */
  datatype Config = Config(
    namespace: string,
    storageClass: string,
    cpuRequest: string -> string,
    memoryRequest: string -> string,
    canon: string -> string)

  function OperatorConfig(namespace: string, storageClass: string, floatMillis: string -> Option<u64>,
                          canon: string -> string): Config
  {
    Config(
      namespace,
      storageClass,
      limit => Quantities.CpuRequest(floatMillis, limit),
      limit => Quantities.MemoryRequest(limit),
      canon)
  }

  datatype OwnerRef = OwnerRef(apiVersion: string, kind: string, name: string, uid: nat,
                               controller: bool, blockOwnerDeletion: bool)

  datatype Meta = Meta(name: string, namespace: string, labels: map<string, string>, owners: seq<OwnerRef>)

  // Persistent volume claims

  datatype Pvc = Pvc(meta: Meta, accessModes: seq<string>, storageClass: string, requests: map<string, string>)

  // Pods

  datatype ContainerPort = ContainerPort(containerPort: i32, name: string, protocol: string)

  datatype Requirements = Requirements(requests: Option<map<string, string>>, limits: Option<map<string, string>>)

  datatype VolumeMount = VolumeMount(name: string, mountPath: string)

  datatype Probe = Probe(tcpPort: i32, initialDelaySeconds: int, periodSeconds: int, failureThreshold: int)

  /** The two fixed security contexts. */
  datatype SecurityContext = Trusted | Hardened

  datatype Container = Container(
    name: string,
    image: Option<string>,
    command: Option<seq<string>>,
    ports: seq<ContainerPort>,
    resources: Option<Requirements>,
    securityContext: SecurityContext,
    volumeMounts: seq<VolumeMount>,
    livenessProbe: Option<Probe>,
    readinessProbe: Option<Probe>,
    env: Option<seq<EnvVar>>)

  datatype VolumeSource = Claim(claimName: string, readOnly: bool) | EmptyDir

  datatype Volume = Volume(name: string, source: VolumeSource)

  datatype PodSpec = PodSpec(
    containers: seq<Container>,
    runtimeClass: Option<string>,
    hostUsers: Option<bool>,
    restartPolicy: string,
    terminationGraceSeconds: int,
    volumes: seq<Volume>,
    nodeName: Option<string>)

  datatype ContainerStatus = ContainerStatus(restartCount: i32, waitingReason: Option<string>)

  datatype PodStatus = PodStatus(phase: Option<string>, podIp: Option<string>,
                                 containerStatuses: Option<seq<ContainerStatus>>)

  /** `terminating` is the deletion timestamp: graceful deletion was requested. */
  datatype Pod = Pod(meta: Meta, spec: Option<PodSpec>, status: Option<PodStatus>, terminating: bool)

  // Network policies

  type Selector = map<string, string>

  datatype PolicyPort = PolicyPort(port: i32, protocol: string)

  datatype IngressRule = IngressRule(from: Option<seq<Selector>>, ports: Option<seq<PolicyPort>>)

  datatype EgressRule = EgressRule(to: Option<seq<Selector>>, ports: Option<seq<PolicyPort>>)

  datatype NetworkPolicy = NetworkPolicy(meta: Meta, podSelector: Selector, ingress: seq<IngressRule>,
                                         egress: seq<EgressRule>, policyTypes: seq<string>)

  // Services

  datatype ServicePort = ServicePort(name: Option<string>, port: i32, targetPort: i32, protocol: string,
                                     nodePort: Option<i32>)

  datatype Service = Service(meta: Meta, serviceType: string, selector: Selector, ports: Option<seq<ServicePort>>)

  // ---------------------------------------------------------------------
  // Names
  // ---------------------------------------------------------------------

  function PodName(agent: string): string {
    "agent-" + agent
  }

  function PvcName(agent: string): string {
    "agent-" + agent + "-data"
  }

  function PolicyName(agent: string): string {
    "agent-" + agent + "-isolation"
  }

  function ServiceName(agent: string): string {
    "agent-" + agent
  }

  /** Within a kind, an object name determines the agent it belongs to. */
  lemma NamesInjective(a: string, b: string)
    ensures PodName(a) == PodName(b) ==> a == b
    ensures PvcName(a) == PvcName(b) ==> a == b
    ensures PolicyName(a) == PolicyName(b) ==> a == b
    ensures ServiceName(a) == ServiceName(b) ==> a == b
  {
    assert PodName(a)[6..] == a && PodName(b)[6..] == b;
    assert PvcName(a)[6..|PvcName(a)| - 5] == a && PvcName(b)[6..|PvcName(b)| - 5] == b;
    assert PolicyName(a)[6..|PolicyName(a)| - 10] == a && PolicyName(b)[6..|PolicyName(b)| - 10] == b;
    assert ServiceName(a)[6..] == a && ServiceName(b)[6..] == b;
  }

  const NAME_LABEL := "agents.near.ai/name"

  function AgentLabels(name: string): map<string, string> {
    map[NAME_LABEL := name, "app" := "agent"]
  }

  function OwnerReference(a: Agent): OwnerRef {
    OwnerRef("agents.near.ai/v1", "Agent", a.name, a.uid, true, true)
  }

  function MetaFor(cfg: Config, name: string, a: Agent): Meta {
    Meta(name, cfg.namespace, AgentLabels(a.name), [OwnerReference(a)])
  }

  // ---------------------------------------------------------------------
  // Builders
  // ---------------------------------------------------------------------

  function BuildPvc(cfg: Config, a: Agent): Pvc {
    Pvc(MetaFor(cfg, PvcName(a.name), a), ["ReadWriteOnce"], cfg.storageClass, map["storage" := a.spec.disk])
  }

  function AgentEnv(spec: AgentSpec): seq<EnvVar> {
    spec.env + if spec.sshPubkey.Some? then [EnvVar("SSH_PUBKEY", spec.sshPubkey.value)] else []
  }

  function AgentProbe(spec: AgentSpec, periodSeconds: int): Option<Probe> {
    if spec.command != [] || spec.ports == [] then None
    else Some(Probe(spec.ports[0].port, 30, periodSeconds, 10))
  }

  function ContainerPorts(ports: seq<PortSpec>): seq<ContainerPort> {
    seq(|ports|, i requires 0 <= i < |ports| => ContainerPort(ports[i].port, ports[i].name, "TCP"))
  }

  function BuildContainer(cfg: Config, spec: AgentSpec): Container {
    Container(
      "agent",
      Some(spec.image),
      if spec.command != [] then Some(spec.command) else None,
      ContainerPorts(spec.ports),
      Some(Requirements(
             Some(map["cpu" := cfg.cpuRequest(spec.cpu), "memory" := cfg.memoryRequest(spec.memory)]),
             Some(map["cpu" := spec.cpu, "memory" := spec.memory]))),
      if spec.securityProfile == "trusted" then Trusted else Hardened,
      [VolumeMount("agent-data", spec.volumeMount), VolumeMount("tmp", "/tmp")],
      AgentProbe(spec, 10),
      AgentProbe(spec, 5),
      if AgentEnv(spec) != [] then Some(AgentEnv(spec)) else None)
  }

  function BuildPod(cfg: Config, a: Agent): Pod {
    Pod(
      MetaFor(cfg, PodName(a.name), a),
      Some(PodSpec(
             [BuildContainer(cfg, a.spec)],
             if a.spec.enableDocker then Some("sysbox-runc") else None,
             if a.spec.enableDocker then Some(false) else None,
             "Always",
             30,
             [Volume("agent-data", Claim(PvcName(a.name), false)), Volume("tmp", EmptyDir)],
             None)),
      None,
      false)
  }

  function PolicyPorts(ports: seq<PortSpec>): seq<PolicyPort> {
    seq(|ports|, i requires 0 <= i < |ports| => PolicyPort(ports[i].port, "TCP"))
  }

  const EGRESS_PORTS: seq<PolicyPort> :=
    [PolicyPort(53, "UDP"), PolicyPort(53, "TCP"), PolicyPort(80, "TCP"), PolicyPort(443, "TCP")]

  function BuildNetworkPolicy(cfg: Config, a: Agent): NetworkPolicy {
    NetworkPolicy(
      MetaFor(cfg, PolicyName(a.name), a),
      map[NAME_LABEL := a.name],
      [IngressRule(Some([map["app" := "ingress-controller"], map["app" := "ssh-proxy"]]), None),
       IngressRule(None, Some(PolicyPorts(a.spec.ports)))],
      [EgressRule(None, Some(EGRESS_PORTS))],
      ["Ingress", "Egress"])
  }

  function ServicePorts(ports: seq<PortSpec>): seq<ServicePort> {
    seq(|ports|, i requires 0 <= i < |ports| =>
      ServicePort(Some(ports[i].name), ports[i].port, ports[i].port, "TCP", None))
  }

  function BuildService(cfg: Config, a: Agent): Service {
    Service(MetaFor(cfg, ServiceName(a.name), a), "NodePort", map[NAME_LABEL := a.name],
            Some(ServicePorts(a.spec.ports)))
  }

  // ---------------------------------------------------------------------
  // The builders as the operator runs them, filling local maps and lists
  // ---------------------------------------------------------------------

  method MakeLabels(name: string) returns (labels: map<string, string>)
    ensures labels == AgentLabels(name)
  {
    labels := map[];
    labels := labels[NAME_LABEL := name];
    labels := labels["app" := "agent"];
  }

  method MakePvc(cfg: Config, a: Agent) returns (pvc: Pvc)
    ensures pvc == BuildPvc(cfg, a)
  {
    var storageRequests := map[];
    storageRequests := storageRequests["storage" := a.spec.disk];
    var labels := MakeLabels(a.name);
    pvc := Pvc(Meta(PvcName(a.name), cfg.namespace, labels, [OwnerReference(a)]),
               ["ReadWriteOnce"], cfg.storageClass, storageRequests);
  }

  method MakePod(cfg: Config, a: Agent) returns (pod: Pod)
    ensures pod == BuildPod(cfg, a)
  {
    var cpuRequest := cfg.cpuRequest(a.spec.cpu);
    var memRequest := cfg.memoryRequest(a.spec.memory);
    var requests, limits: map<string, string> := map[], map[];
    requests := requests["cpu" := cpuRequest];
    requests := requests["memory" := memRequest];
    limits := limits["cpu" := a.spec.cpu];
    limits := limits["memory" := a.spec.memory];

    var env := a.spec.env;
    if a.spec.sshPubkey.Some? {
      env := env + [EnvVar("SSH_PUBKEY", a.spec.sshPubkey.value)];
    }
    assert env == AgentEnv(a.spec);
    var hasCommand := a.spec.command != [];
    var liveness, readiness := None, None;
    if !hasCommand && a.spec.ports != [] {
      liveness := Some(Probe(a.spec.ports[0].port, 30, 10, 10));
      readiness := Some(Probe(a.spec.ports[0].port, 30, 5, 10));
    }
    var container := Container(
      "agent",
      Some(a.spec.image),
      if hasCommand then Some(a.spec.command) else None,
      ContainerPorts(a.spec.ports),
      Some(Requirements(Some(requests), Some(limits))),
      if a.spec.securityProfile == "trusted" then Trusted else Hardened,
      [VolumeMount("agent-data", a.spec.volumeMount), VolumeMount("tmp", "/tmp")],
      liveness,
      readiness,
      if env != [] then Some(env) else None);
    var labels := MakeLabels(a.name);
    pod := Pod(
      Meta(PodName(a.name), cfg.namespace, labels, [OwnerReference(a)]),
      Some(PodSpec(
             [container],
             if a.spec.enableDocker then Some("sysbox-runc") else None,
             if a.spec.enableDocker then Some(false) else None,
             "Always",
             30,
             [Volume("agent-data", Claim(PvcName(a.name), false)), Volume("tmp", EmptyDir)],
             None)),
      None,
      false);
  }

  method MakeNetworkPolicy(cfg: Config, a: Agent) returns (np: NetworkPolicy)
    ensures np == BuildNetworkPolicy(cfg, a)
  {
    var podSelector, ingressLabel, sshProxyLabel: Selector := map[], map[], map[];
    podSelector := podSelector[NAME_LABEL := a.name];
    ingressLabel := ingressLabel["app" := "ingress-controller"];
    sshProxyLabel := sshProxyLabel["app" := "ssh-proxy"];
    var fromInfra := IngressRule(Some([ingressLabel, sshProxyLabel]), None);
    var nodePort := IngressRule(None, Some(PolicyPorts(a.spec.ports)));
    var labels := MakeLabels(a.name);
    np := NetworkPolicy(
      Meta(PolicyName(a.name), cfg.namespace, labels, [OwnerReference(a)]),
      podSelector, [fromInfra, nodePort], [EgressRule(None, Some(EGRESS_PORTS))], ["Ingress", "Egress"]);
  }

  method MakeService(cfg: Config, a: Agent) returns (svc: Service)
    ensures svc == BuildService(cfg, a)
  {
    var selector: Selector := map[];
    selector := selector[NAME_LABEL := a.name];
    var labels := MakeLabels(a.name);
    svc := Service(Meta(ServiceName(a.name), cfg.namespace, labels, [OwnerReference(a)]),
                   "NodePort", selector, Some(ServicePorts(a.spec.ports)));
  }

  /** In the pods the operator builds, the limits are the spec's own strings and
      the requests, read back, are a quarter of them rounded down. */
  lemma BuiltRequestsAreAQuarter(namespace: string, storageClass: string, floatMillis: string -> Option<u64>,
                                 canon: string -> string, a: Agent)
    ensures
      var pod := BuildPod(OperatorConfig(namespace, storageClass, floatMillis, canon), a);
      var resources := pod.spec.value.containers[0].resources.value;
      var requests, limits := resources.requests.value, resources.limits.value;
      && limits == map["cpu" := a.spec.cpu, "memory" := a.spec.memory]
      && requests.Keys == limits.Keys
      && (var cpu := Quantities.ParseCpuMillis(floatMillis, requests["cpu"]);
          4 * cpu <= Quantities.ParseCpuMillis(floatMillis, a.spec.cpu) < 4 * (cpu + 1))
      && (var memory := Quantities.ParseMemoryMi(requests["memory"]);
          4 * memory <= Quantities.ParseMemoryMi(a.spec.memory) < 4 * (memory + 1))
  {
    Quantities.CpuRequestIsAQuarter(floatMillis, a.spec.cpu);
    Quantities.MemoryRequestIsAQuarter(a.spec.memory);
  }

  /** No builder looks at the desired state, so a start or stop never changes
      what an agent's objects should be. */
  lemma BuildersIgnoreState(cfg: Config, a: Agent, b: Agent)
    requires SameButState(a, b)
    ensures BuildPvc(cfg, a) == BuildPvc(cfg, b)
    ensures BuildPod(cfg, a) == BuildPod(cfg, b)
    ensures BuildNetworkPolicy(cfg, a) == BuildNetworkPolicy(cfg, b)
    ensures BuildService(cfg, a) == BuildService(cfg, b)
  {
  }

  predicate SameButState(a: Agent, b: Agent) {
    a.(spec := a.spec.(state := b.spec.state)) == b
  }
}
