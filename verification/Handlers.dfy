/** The API's request handlers as they run against a cluster, and the spec a
    create request is turned into. */
module Handlers {
  import opened Wrappers
  import opened Json
  import opened Crd
  import opened Resources
  import opened ApiServer
  import opened Client
  import opened Sse
  import Quantities

  // ---------------------------------------------------------------------
  // Create requests
  // ---------------------------------------------------------------------

  datatype CreateRequest = CreateRequest(
    nearaiApiKey: Option<string>,
    nearaiApiUrl: Option<string>,
    image: string,
    serviceType: Option<string>,
    memLimit: Option<string>,
    cpus: Option<string>,
    storageSize: Option<string>,
    sshPubkey: Option<string>,
    nodeId: Option<string>,
    name: Option<string>,
    cpu: Option<string>,
    memory: Option<string>,
    disk: Option<string>,
    volumeMount: Option<string>,
    securityProfile: Option<string>,
    env: seq<EnvVar>,
    ports: seq<PortSpec>,
    enableDocker: bool,
    command: seq<string>)

  function OrElse<T>(first: Option<T>, second: Option<T>): Option<T> {
    if first.Some? then first else second
  }

  function Normalized(o: Option<string>): Option<string> {
    if o.Some? then Some(Quantities.NormalizeResource(o.value)) else None
  }

  function RequestEnv(req: CreateRequest): seq<EnvVar> {
    req.env
    + (if req.nearaiApiKey.Some? then [EnvVar("NEARAI_API_KEY", req.nearaiApiKey.value)] else [])
    + (if req.nearaiApiUrl.Some? then [EnvVar("NEARAI_API_URL", req.nearaiApiUrl.value)] else [])
  }

  function RequestPorts(req: CreateRequest): seq<PortSpec> {
    if req.ports != [] then req.ports
    else if req.serviceType.Some? then [PortSpec("ssh", 2222), PortSpec("http", 8080)]
    else [PortSpec("ssh", 22), PortSpec("http", 80)]
  }

  function RequestSpec(req: CreateRequest): AgentSpec {
    AgentSpec(
      req.image,
      Running,
      OrElse(req.cpus, req.cpu).GetOr("1"),
      OrElse(Normalized(req.memLimit), req.memory).GetOr("4Gi"),
      OrElse(Normalized(req.storageSize), req.disk).GetOr("10Gi"),
      req.volumeMount.GetOr(if req.serviceType.Some? then "/workspace" else "/home/agent"),
      req.securityProfile.GetOr("trusted"),
      RequestEnv(req),
      req.enableDocker,
      RequestPorts(req),
      req.command,
      req.sshPubkey,
      req.serviceType,
      req.nodeId)
  }

  // What that amounts to, field by field

  /** The first of two optional fields that is given, or the default. */
  predicate FirstGiven(value: string, first: Option<string>, second: Option<string>, default: string) {
    && (first.Some? ==> value == first.value)
    && (first.None? && second.Some? ==> value == second.value)
    && (first.None? && second.None? ==> value == default)
  }

  /** `given` with a decimal suffix made binary. */
  predicate Binary(value: string, given: string) {
    if |given| > 0 && (given[|given| - 1] == 'G' || given[|given| - 1] == 'M') then value == given + "i"
    else value == given
  }

  /** The same when the first field is in decimal units. */
  predicate FirstGivenBinary(value: string, first: Option<string>, second: Option<string>, default: string) {
    && (first.Some? ==> Binary(value, first.value))
    && (first.None? ==> FirstGiven(value, None, second, default))
  }

  /** The request's variables, and then the key and the address if given. */
  predicate EnvironmentOf(env: seq<EnvVar>, req: CreateRequest) {
    var k, keys := |req.env|, if req.nearaiApiKey.Some? then 1 else 0;
    && |env| == k + keys + (if req.nearaiApiUrl.Some? then 1 else 0)
    && (forall i | 0 <= i < k :: env[i] == req.env[i])
    && (req.nearaiApiKey.Some? ==> env[k] == EnvVar("NEARAI_API_KEY", req.nearaiApiKey.value))
    && (req.nearaiApiUrl.Some? ==> env[k + keys] == EnvVar("NEARAI_API_URL", req.nearaiApiUrl.value))
  }

  predicate PortsOf(ports: seq<PortSpec>, req: CreateRequest) {
    if req.ports != [] then ports == req.ports
    else
      && |ports| == 2 && ports[0].name == "ssh" && ports[1].name == "http"
      && (req.serviceType.Some? ==> ports[0].port == 2222 && ports[1].port == 8080)
      && (req.serviceType.None? ==> ports[0].port == 22 && ports[1].port == 80)
  }

  predicate Meets(spec: AgentSpec, req: CreateRequest) {
    && spec.state.Running?
    && spec.image == req.image && spec.command == req.command && spec.sshPubkey == req.sshPubkey
    && spec.nodeId == req.nodeId && spec.serviceType == req.serviceType && spec.enableDocker == req.enableDocker
    && FirstGiven(spec.cpu, req.cpus, req.cpu, "1")
    && FirstGivenBinary(spec.memory, req.memLimit, req.memory, "4Gi")
    && FirstGivenBinary(spec.disk, req.storageSize, req.disk, "10Gi")
    && FirstGiven(spec.volumeMount, req.volumeMount, None,
                  if req.serviceType.Some? then "/workspace" else "/home/agent")
    && FirstGiven(spec.securityProfile, req.securityProfile, None, "trusted")
    && EnvironmentOf(spec.env, req)
    && PortsOf(spec.ports, req)
  }

  lemma NormalizedIsBinary(given: string)
    ensures Binary(Quantities.NormalizeResource(given), given)
  {
    Quantities.SuffixByLastChars(given);
  }

  lemma RequestIsMet(req: CreateRequest)
    ensures Meets(RequestSpec(req), req)
  {
    hide Quantities.NormalizeResource, Binary;
    if req.memLimit.Some? {
      NormalizedIsBinary(req.memLimit.value);
    }
    if req.storageSize.Some? {
      NormalizedIsBinary(req.storageSize.value);
    }
  }

  /** Every agent the API creates declares a port, and the memory the operator
      will read from its spec is what the client's own spelling of the limit
      means. */
  lemma RequestsAreWellFormed(req: CreateRequest)
    ensures RequestSpec(req).ports != [] && RequestSpec(req).state.Running?
    ensures
      var asked := OrElse(req.memLimit, req.memory).GetOr("4Gi");
      Quantities.ParseMemoryMi(RequestSpec(req).memory) == Quantities.ParseMemoryMi(asked)
  {
    if req.memLimit.Some? {
      Quantities.NormalizeKeepsMeaning(req.memLimit.value);
    }
  }

  // ---------------------------------------------------------------------
  // Instances as the API reports them
  // ---------------------------------------------------------------------

  datatype InstanceResponse = InstanceResponse(
    name: string,
    status: string,
    image: string,
    serviceType: Option<string>,
    nodeId: Option<string>,
    podIp: Option<string>,
    hostNode: Option<string>,
    restartCount: Option<i32>,
    nodePorts: seq<NodePort>)

  function Respond(stored: Stored): InstanceResponse {
    var spec, status := stored.agent.spec, SeenStatus(stored);
    InstanceResponse(
      stored.agent.name,
      DeriveStatus(spec, status),
      spec.image,
      spec.serviceType,
      OrElse(spec.nodeId, status.hostNode),
      status.podIp,
      status.hostNode,
      status.restartCount,
      status.nodePorts)
  }

  /** After any history of status writes that ends with the stopped status, a
      stopped agent is reported as stopped with no restarts, but still with the
      last address and node it ever had. */
  lemma StoppedResponse(agent: Agent, writes: seq<AgentStatus>, nodePorts: seq<NodePort>)
    requires agent.spec.state.Stopped?
    ensures
      var r := Respond(Stored(agent, PatchAll(Null, writes + [StoppedStatus(nodePorts)])));
      && r.status == "stopped"
      && r.restartCount == Some(0)
      && r.podIp == LastPresent(writes, (w: AgentStatus) => w.podIp)
      && r.hostNode == LastPresent(writes, (w: AgentStatus) => w.hostNode)
  {
    var all := writes + [StoppedStatus(nodePorts)];
    StatusHistory(all);
    assert all[..|all| - 1] == writes;
  }

  /** What the API reports of an agent whose status it can decode. */
  lemma Reported(stored: Stored)
    requires DecodeStatus(stored.status).Some?
    ensures
      var r, status, spec := Respond(stored), DecodeStatus(stored.status).value, stored.agent.spec;
      && r.name == stored.agent.name && r.image == spec.image && r.serviceType == spec.serviceType
      && r.status == StatusOf(stored)
      && (spec.nodeId.Some? ==> r.nodeId == spec.nodeId)
      && (spec.nodeId.None? ==> r.nodeId == status.hostNode)
      && r.podIp == status.podIp && r.hostNode == status.hostNode
      && r.restartCount == status.restartCount && r.nodePorts == status.nodePorts
  {
    hide DecodeStatus, DeriveStatus;
  }

  /** After any history of status writes, a running agent is reported with the phase and
      the restarts of the last write, and with the last address, node and node ports of
      any. */
  lemma RunningResponse(agent: Agent, writes: seq<AgentStatus>)
    requires agent.spec.state.Running? && writes != []
    ensures
      var stored := Stored(agent, PatchAll(Null, writes));
      var r, last := Respond(stored), writes[|writes| - 1];
      && r.name == agent.name && r.image == agent.spec.image
      && DecodeStatus(stored.status).Some? && DecodeStatus(stored.status).value.phase == last.phase
      && r.restartCount == last.restartCount
      && r.podIp == LastPresent(writes, (w: AgentStatus) => w.podIp)
      && r.hostNode == LastPresent(writes, (w: AgentStatus) => w.hostNode)
      && r.nodeId == (if agent.spec.nodeId.Some? then agent.spec.nodeId
                      else LastPresent(writes, (w: AgentStatus) => w.hostNode))
      && r.nodePorts == LastNodePorts(writes)
  {
    hide DecodeStatus, DeriveStatus;
    StatusHistory(writes);
    Reported(Stored(agent, PatchAll(Null, writes)));
  }

  // ---------------------------------------------------------------------
  // Polling
  // ---------------------------------------------------------------------

  /** One poll of a stream: the rest of the polling is unchanged by it. */
  method Poll(kube: Cluster, name: string, ghost h: Handler, ghost deadline: nat) returns (resp: Resp)
    requires h.pc.Polling? && h.name == name && kube.now <= deadline
    modifies kube
    ensures resp.Failed? || resp.GotAgent?
    ensures kube.now >= old(kube.now)
    ensures
      var h' := Polled(h, resp);
      PollRun(kube.cfg, h, old(kube.W()), deadline)
      == if h'.pc.Polling? then PollRun(kube.cfg, h', Wait(kube.W(), IntervalMs(h.call)), deadline)
         else (h', kube.W())
  {
    ghost var before := kube.W();
    resp := kube.Call(GetAgent(name));
    assert PollRun(kube.cfg, h, before, deadline) == PollOn(kube.cfg, h, before, deadline);
  }

  /** `poll_status_stream`. The ghost handler is the one the stream belongs to. */
  method PollStatusStream(kube: Cluster, name: string, target: string, timeout: nat, ghost h: Handler)
      returns (events: seq<Event>)
    requires !h.call.DeleteCall? && h.pc.Polling? && h.name == name
    requires Target(h.call) == target && TimeoutMs(h.call) == timeout
    modifies kube
    ensures
      var (h', w') := PollRun(kube.cfg, h, old(kube.W()), old(kube.W()).now + timeout);
      kube.W() == w' && h'.events == h.events + events
  {
    var deadline := kube.now + timeout;
    ghost var goal := PollRun(kube.cfg, h, kube.W(), deadline);
    ghost var g := h;
    events := [];
    while true
      invariant g == h.(events := g.events) && g.events == h.events + events
      invariant PollRun(kube.cfg, g, kube.W(), deadline) == goal
      decreases if kube.now > deadline then 0 else deadline - kube.now + 1
    {
      if kube.now > deadline {
        events := events + [ErrorEvent(StatusTimeout)];
        break;
      }
      var resp := Poll(kube, name, g, deadline);
      if resp.Failed? {
        events := events + [ErrorEvent(PollFailed)];
        break;
      }
      if resp.agent.Some? {
        var current := StatusOf(resp.agent.value);
        if current == target {
          break;
        }
        events := events + [StatusEvent(current)];
      } else if target == "deleted" {
        break;
      }
      g := Polled(g, resp);
      kube.Sleep(3_000);
    }
  }

  // ---------------------------------------------------------------------
  // Handlers
  // ---------------------------------------------------------------------

  function Rejection(h: Handler): Option<AppError> {
    if h.pc.Rejected? then Some(h.pc.error) else None
  }

  /** A handler's answer, its events and the world it leaves are those of the
      request's state machine. */
  ghost predicate Serves(cfg: Config, call: Call, name: string, w: World,
                         err: Option<AppError>, events: seq<Event>, w': World) {
    ServedBy(ServeFrom(cfg, Open(call, name), w), err, events, w')
  }

  ghost predicate ServedBy(run: (Handler, World), err: Option<AppError>, events: seq<Event>, w': World) {
    run.1 == w' && events == run.0.events && err == Rejection(run.0)
  }

  /** One call of a request before its stream opens. */
  method Ask(kube: Cluster, ghost h: Handler, op: Op) returns (resp: Resp)
    requires (h.pc.Check? || h.pc.Act?) && op == HandlerOp(h)
    modifies kube
    ensures resp.Failed? || (op.GetAgent? ==> resp.GotAgent?)
    ensures
      var h' := HandlerNext(h, resp);
      ServeFrom(kube.cfg, h, old(kube.W()))
      == if h.pc.Check? && h'.pc.Act? then ServeFrom(kube.cfg, h', kube.W())
         else if h'.pc.Polling? then StreamRun(kube.cfg, h', kube.W())
         else (h', kube.W())
  {
    ghost var before := kube.W();
    resp := kube.Call(op);
    assert ServeFrom(kube.cfg, h, before) == ServeOn(kube.cfg, h, before);
  }

  /** The stream of a handler whose request took effect. */
  method OpenStream(kube: Cluster, name: string, target: string, timeout: nat, closing: Event, ghost h: Handler)
      returns (events: seq<Event>)
    requires !h.call.DeleteCall? && !h.call.RestartCall? && h.pc.Polling? && h.name == name
    requires Target(h.call) == target && TimeoutMs(h.call) == timeout && Epilogue(h.call, name) == [closing]
    modifies kube
    ensures ServedBy(StreamRun(kube.cfg, h, old(kube.W())), None, h.events + events, kube.W())
  {
    PollProtocol(kube.cfg, h, kube.W(), kube.now + timeout);
    events := PollStatusStream(kube, name, target, timeout, h);
    events := events + [closing];
  }

  /** The mapping of request fields to a spec, old and new field names merged. */
  method SpecFromRequest(req: CreateRequest) returns (spec: AgentSpec)
    ensures spec == RequestSpec(req) && Meets(spec, req)
  {
    hide Meets;
    RequestIsMet(req);
    var cpu := OrElse(req.cpus, req.cpu).GetOr("1");
    var memory := OrElse(Normalized(req.memLimit), req.memory).GetOr("4Gi");
    var disk := OrElse(Normalized(req.storageSize), req.disk).GetOr("10Gi");
    var env := req.env;
    if req.nearaiApiKey.Some? {
      env := env + [EnvVar("NEARAI_API_KEY", req.nearaiApiKey.value)];
    }
    if req.nearaiApiUrl.Some? {
      env := env + [EnvVar("NEARAI_API_URL", req.nearaiApiUrl.value)];
    }
    assert env == RequestEnv(req);
    var volumeMount := req.volumeMount.GetOr(if req.serviceType.Some? then "/workspace" else "/home/agent");
    var ports := req.ports;
    if req.ports == [] {
      ports := if req.serviceType.Some? then [PortSpec("ssh", 2222), PortSpec("http", 8080)]
               else [PortSpec("ssh", 22), PortSpec("http", 80)];
    }
    spec := AgentSpec(req.image, Running, cpu, memory, disk, volumeMount, req.securityProfile.GetOr("trusted"),
                      env, req.enableDocker, ports, req.command, req.sshPubkey, req.serviceType, req.nodeId);
  }

  /** `generated` is the name made up when the request carries none. */
  method CreateInstance(kube: Cluster, req: CreateRequest, generated: string)
      returns (err: Option<AppError>, events: seq<Event>)
    modifies kube
    ensures
      req.name.None? && req.serviceType.None? ==>
        err == Some(BadRequest) && events == [] && kube.W() == old(kube.W())
    ensures
      req.name.Some? || req.serviceType.Some? ==>
        Serves(kube.cfg, Create(RequestSpec(req)), req.name.GetOr(generated), old(kube.W()), err, events, kube.W())
    ensures
      req.name.Some? || req.serviceType.Some? ==>
        exists spec: AgentSpec ::
          && Meets(spec, req)
          && Serves(kube.cfg, Create(spec), req.name.GetOr(generated), old(kube.W()), err, events, kube.W())
  {
    hide Meets;
    RequestIsMet(req);
    if req.name.None? && req.serviceType.None? {
      return Some(BadRequest), [];
    }
    var name := req.name.GetOr(generated);
    ghost var h := Open(Create(RequestSpec(req)), name);
    var existing := Ask(kube, h, GetAgent(name));
    if existing.Failed? {
      return Some(KubeError), [];
    }
    if existing.agent.Some? {
      return Some(Conflict), [];
    }
    var spec := SpecFromRequest(req);
    h := h.(pc := Act);
    var created := Ask(kube, h, CreateAgent(name, spec));
    if !created.Created? {
      return Some(KubeError), [];
    }
    events := [CreatedEvent(name)];
    h := Acted(h, created);
    assert h.events == events;
    var rest := OpenStream(kube, name, "running", 600_000, ReadyEvent(name), h);
    return None, events + rest;
  }

  method StartInstance(kube: Cluster, name: string) returns (err: Option<AppError>, events: seq<Event>)
    modifies kube
    ensures Serves(kube.cfg, StartCall, name, old(kube.W()), err, events, kube.W())
  {
    ghost var h := Open(StartCall, name);
    var existing := Ask(kube, h, GetAgent(name));
    if existing.Failed? {
      return Some(KubeError), [];
    }
    if existing.agent.None? {
      return Some(NotFound), [];
    }
    h := h.(pc := Act);
    var patched := Ask(kube, h, PatchState(name, Running));
    if patched.Failed? {
      return Some(KubeError), [];
    }
    events := OpenStream(kube, name, "running", 600_000, ReadyEvent(name), h.(pc := Polling));
    err := None;
  }

  method StopInstance(kube: Cluster, name: string) returns (err: Option<AppError>, events: seq<Event>)
    modifies kube
    ensures Serves(kube.cfg, StopCall, name, old(kube.W()), err, events, kube.W())
  {
    ghost var h := Open(StopCall, name);
    var existing := Ask(kube, h, GetAgent(name));
    if existing.Failed? {
      return Some(KubeError), [];
    }
    if existing.agent.None? {
      return Some(NotFound), [];
    }
    h := h.(pc := Act);
    var patched := Ask(kube, h, PatchState(name, Stopped));
    if patched.Failed? {
      return Some(KubeError), [];
    }
    events := OpenStream(kube, name, "stopped", 120_000, StoppedEvent(name), h.(pc := Polling));
    err := None;
  }

  /** The stream of a restart, which gives the old pod three seconds to go. */
  method RestartStream(kube: Cluster, name: string, ghost h: Handler) returns (events: seq<Event>)
    requires h.call.RestartCall? && h.pc.Polling? && h.name == name && h.events == []
    modifies kube
    ensures ServedBy(StreamRun(kube.cfg, h, old(kube.W())), None, events, kube.W())
  {
    kube.Sleep(3_000);
    PollProtocol(kube.cfg, h, kube.W(), kube.now + 600_000);
    events := PollStatusStream(kube, name, "running", 600_000, h);
    events := events + [ReadyEvent(name)];
  }

  method RestartInstance(kube: Cluster, name: string) returns (err: Option<AppError>, events: seq<Event>)
    modifies kube
    ensures Serves(kube.cfg, RestartCall, name, old(kube.W()), err, events, kube.W())
  {
    ghost var h := Open(RestartCall, name);
    var existing := Ask(kube, h, GetAgent(name));
    if existing.Failed? {
      return Some(KubeError), [];
    }
    if existing.agent.None? {
      return Some(NotFound), [];
    }
    h := h.(pc := Act);
    var _ := Ask(kube, h, DeletePod(PodName(name)));
    events := RestartStream(kube, name, h.(pc := Polling));
    err := None;
  }

  /** The stream of a deletion that took effect, waiting for the agent to be gone. */
  method DeletionStream(kube: Cluster, name: string, ghost h: Handler) returns (events: seq<Event>)
    requires h.call.DeleteCall? && h.pc.Polling? && h.name == name && h.events == []
    modifies kube
    ensures ServedBy(StreamRun(kube.cfg, h, old(kube.W())), None, events, kube.W())
  {
    var deadline := kube.now + 60_000;
    PollProtocol(kube.cfg, h, kube.W(), deadline);
    ghost var goal := PollRun(kube.cfg, h, kube.W(), deadline);
    ghost var g := h;
    events := [];
    while true
      invariant g == h.(events := events)
      invariant PollRun(kube.cfg, g, kube.W(), deadline) == goal
      decreases if kube.now > deadline then 0 else deadline - kube.now + 1
    {
      if kube.now > deadline {
        events := events + [ErrorEvent(DeletionTimeout)];
        break;
      }
      var resp := Poll(kube, name, g, deadline);
      g := Polled(g, resp);
      if resp.Failed? {
        kube.Sleep(2_000);
      } else if resp.agent.None? {
        events := events + [DeletedEvent(name)];
        break;
      } else {
        events := events + [StatusEvent("deleting")];
        kube.Sleep(2_000);
      }
    }
  }

  method DeleteInstance(kube: Cluster, name: string) returns (events: seq<Event>)
    modifies kube
    ensures Serves(kube.cfg, DeleteCall, name, old(kube.W()), None, events, kube.W())
  {
    ghost var h := Open(DeleteCall, name);
    var existing := Ask(kube, h, GetAgent(name));
    if existing.Failed? {
      return [ErrorEvent(LookupFailed)];
    }
    if existing.agent.None? {
      return [ErrorEvent(NoSuchInstance)];
    }
    h := h.(pc := Act);
    var deleted := Ask(kube, h, DeleteAgent(name));
    if deleted.Failed? {
      return [ErrorEvent(DeleteFailed)];
    }
    events := DeletionStream(kube, name, h.(pc := Polling));
  }
}
