/** The Agent custom resource: its types, how the operator encodes a status
    into JSON, how the API decodes it, and what a sequence of status patches
    leaves behind. */
module Crd {
  import opened Wrappers
  import opened Json

  datatype AgentState = Running | Stopped

  datatype EnvVar = EnvVar(name: string, value: string)

  datatype PortSpec = PortSpec(name: string, port: i32)

  datatype AgentSpec = AgentSpec(
    image: string,
    state: AgentState,
    cpu: string,
    memory: string,
    disk: string,
    volumeMount: string,
    securityProfile: string,
    env: seq<EnvVar>,
    enableDocker: bool,
    ports: seq<PortSpec>,
    command: seq<string>,
    sshPubkey: Option<string>,
    serviceType: Option<string>,
    nodeId: Option<string>)

  datatype NodePort = NodePort(name: string, port: i32, nodePort: i32)

  datatype AgentStatus = AgentStatus(
    phase: Option<string>,
    hostNode: Option<string>,
    podIp: Option<string>,
    sshPort: Option<i32>,
    restartCount: Option<i32>,
    lastBackup: Option<string>,
    message: Option<string>,
    nodePorts: seq<NodePort>)

  const DEFAULT_STATUS := AgentStatus(None, None, None, None, None, None, None, [])

  /** An Agent object as the operator holds it: its identity and its spec. */
  datatype Agent = Agent(name: string, uid: nat, spec: AgentSpec)

  // ---------------------------------------------------------------------
  // Writing a status (operator)
  // ---------------------------------------------------------------------

  function StrOrNull(o: Option<string>): Json {
    match o
    case Some(s) => Str(s)
    case None => Null
  }

  function NumOrNull(o: Option<i32>): Json {
    match o
    case Some(n) => Num(n)
    case None => Null
  }

  function EncodeNodePort(np: NodePort): Json {
    Obj(map["name" := Str(np.name), "port" := Num(np.port), "node_port" := Num(np.nodePort)])
  }

  function WhenSet(o: Option<string>): Option<Json> {
    if o.Some? then Some(Str(o.value)) else None
  }

  /** `phase` and `restart_count` are always written, as null when unset; every
      other member is skipped when it is unset or empty. */
  function StatusEntries(st: AgentStatus): seq<(string, Option<Json>)> {
    [("phase", Some(StrOrNull(st.phase))),
     ("host_node", WhenSet(st.hostNode)),
     ("pod_ip", WhenSet(st.podIp)),
     ("ssh_port", if st.sshPort.Some? then Some(Num(st.sshPort.value)) else None),
     ("restart_count", Some(NumOrNull(st.restartCount))),
     ("last_backup", WhenSet(st.lastBackup)),
     ("message", WhenSet(st.message)),
     ("node_ports", if st.nodePorts != [] then Some(Arr(EncodeNodePorts(st.nodePorts))) else None)]
  }

  function EncodeStatus(st: AgentStatus): Json {
    Obj(Members(StatusEntries(st)))
  }

  function EncodeNodePorts(nps: seq<NodePort>): seq<Json> {
    seq(|nps|, i requires 0 <= i < |nps| => EncodeNodePort(nps[i]))
  }

  // ---------------------------------------------------------------------
  // Reading it back (API)
  // ---------------------------------------------------------------------

  predicate InI32(n: int) {
    -0x8000_0000 <= n < 0x8000_0000
  }

  /** Deserialisation of an optional string: absent and null are both none, any
      other type is an error. */
  function ReadStr(j: Json): Option<Option<string>> {
    match j
    case Null => Some(None)
    case Str(s) => Some(Some(s))
    case _ => None
  }

  function ReadNum(j: Json): Option<Option<i32>> {
    match j
    case Null => Some(None)
    case Num(n) => if InI32(n) then Some(Some(n)) else None
    case _ => None
  }

  function ReadNodePort(j: Json): Option<NodePort> {
    var name, port, nodePort := Member(j, "name"), Member(j, "port"), Member(j, "node_port");
    if name.Str? && port.Num? && InI32(port.n) && nodePort.Num? && InI32(nodePort.n)
    then Some(NodePort(name.s, port.n, nodePort.n))
    else None
  }

  function ReadNodePortItems(items: seq<Json>): Option<seq<NodePort>> {
    if items == [] then Some([])
    else
      match (ReadNodePort(items[0]), ReadNodePortItems(items[1..]))
      case (Some(np), Some(rest)) => Some([np] + rest)
      case _ => None
  }

  /** A missing list is the empty list; a list that is null is an error. */
  function ReadNodePorts(j: Json): Option<seq<NodePort>> {
    if !j.Obj? || "node_ports" !in j.fields then Some([])
    else if j.fields["node_ports"].Arr? then ReadNodePortItems(j.fields["node_ports"].items)
    else None
  }

  predicate Readable(j: Json) {
    && j.Obj?
    && ReadStr(Member(j, "phase")).Some?
    && ReadStr(Member(j, "host_node")).Some?
    && ReadStr(Member(j, "pod_ip")).Some?
    && ReadNum(Member(j, "ssh_port")).Some?
    && ReadNum(Member(j, "restart_count")).Some?
    && ReadStr(Member(j, "last_backup")).Some?
    && ReadStr(Member(j, "message")).Some?
    && ReadNodePorts(j).Some?
  }

  function StatusIn(j: Json): AgentStatus
    requires Readable(j)
  {
    AgentStatus(
      ReadStr(Member(j, "phase")).value,
      ReadStr(Member(j, "host_node")).value,
      ReadStr(Member(j, "pod_ip")).value,
      ReadNum(Member(j, "ssh_port")).value,
      ReadNum(Member(j, "restart_count")).value,
      ReadStr(Member(j, "last_backup")).value,
      ReadStr(Member(j, "message")).value,
      ReadNodePorts(j).value)
  }

  /** `Agent.status` as the API sees it. A status that was never written (or is
      null) is the default status. */
  function DecodeStatus(j: Json): Option<AgentStatus> {
    if j.Null? then Some(DEFAULT_STATUS)
    else if Readable(j) then Some(StatusIn(j))
    else None
  }

  lemma NodePortRoundTrip(np: NodePort)
    ensures ReadNodePort(EncodeNodePort(np)) == Some(np)
  {
  }

  lemma {:induction false} NodePortsRoundTrip(nps: seq<NodePort>)
    ensures ReadNodePortItems(EncodeNodePorts(nps)) == Some(nps)
  {
    if nps == [] {
      assert EncodeNodePorts(nps) == [];
    } else {
      var items := EncodeNodePorts(nps);
      NodePortRoundTrip(nps[0]);
      assert items[1..] == EncodeNodePorts(nps[1..]);
      NodePortsRoundTrip(nps[1..]);
      assert [nps[0]] + nps[1..] == nps;
    }
  }

  // ---------------------------------------------------------------------
  // One status patch
  // ---------------------------------------------------------------------

  function Newer<T>(was: Option<T>, given: Option<T>): Option<T> {
    if given.Some? then given else was
  }

  /** What one status write does to the status a reader sees. */
  function Overlay(was: AgentStatus, given: AgentStatus): AgentStatus {
    AgentStatus(
      given.phase,
      Newer(was.hostNode, given.hostNode),
      Newer(was.podIp, given.podIp),
      Newer(was.sshPort, given.sshPort),
      given.restartCount,
      Newer(was.lastBackup, given.lastBackup),
      Newer(was.message, given.message),
      if given.nodePorts != [] then given.nodePorts else was.nodePorts)
  }

  /** `fields` holds the members of an encoded `st`. */
  predicate Encodes(fields: map<string, Json>, st: AgentStatus) {
    && Lookup(fields, "phase") == Some(StrOrNull(st.phase))
    && Lookup(fields, "host_node") == WhenSet(st.hostNode)
    && Lookup(fields, "pod_ip") == WhenSet(st.podIp)
    && Lookup(fields, "ssh_port") == (if st.sshPort.Some? then Some(Num(st.sshPort.value)) else None)
    && Lookup(fields, "restart_count") == Some(NumOrNull(st.restartCount))
    && Lookup(fields, "last_backup") == WhenSet(st.lastBackup)
    && Lookup(fields, "message") == WhenSet(st.message)
    && Lookup(fields, "node_ports") == (if st.nodePorts != [] then Some(Arr(EncodeNodePorts(st.nodePorts))) else None)
  }

  lemma EncodedMembers(st: AgentStatus)
    ensures Encodes(EncodeStatus(st).fields, st)
  {
    var entries := StatusEntries(st);
    assert DistinctKeys(entries) by {
      assert |entries[0].0| == 5 && |entries[1].0| == 9 && |entries[2].0| == 6 && |entries[3].0| == 8;
      assert |entries[4].0| == 13 && |entries[5].0| == 11 && |entries[6].0| == 7 && |entries[7].0| == 10;
    }
    MemberOf(entries, 0);
    MemberOf(entries, 1);
    MemberOf(entries, 2);
    MemberOf(entries, 3);
    MemberOf(entries, 4);
    MemberOf(entries, 5);
    MemberOf(entries, 6);
    MemberOf(entries, 7);
  }

  /** `after` reads like `j` with the members of `fields` on top. */
  ghost predicate ReadsOver(j: Json, fields: map<string, Json>, after: Json) {
    after.Obj? && forall k :: Member(after, k) == Lookup(fields, k).GetOr(Member(j, k))
  }

  lemma EncodedStr(j: Json, fields: map<string, Json>, after: Json, k: string, o: Option<string>)
    requires ReadsOver(j, fields, after) && ReadStr(Member(j, k)).Some?
    ensures Lookup(fields, k) == Some(StrOrNull(o)) ==> ReadStr(Member(after, k)) == Some(o)
    ensures Lookup(fields, k) == WhenSet(o) ==> ReadStr(Member(after, k)) == Some(Newer(ReadStr(Member(j, k)).value, o))
  {
  }

  lemma EncodedNum(j: Json, fields: map<string, Json>, after: Json, k: string, o: Option<i32>)
    requires ReadsOver(j, fields, after) && ReadNum(Member(j, k)).Some?
    ensures Lookup(fields, k) == Some(NumOrNull(o)) ==> ReadNum(Member(after, k)) == Some(o)
    ensures
      Lookup(fields, k) == (if o.Some? then Some(Num(o.value)) else None) ==>
        ReadNum(Member(after, k)) == Some(Newer(ReadNum(Member(j, k)).value, o))
  {
  }

  lemma OverlaidReads(j: Json, fields: map<string, Json>, after: Json, st: AgentStatus)
    requires DecodeStatus(j).Some?
    requires Encodes(fields, st) && ReadsOver(j, fields, after)
    requires ReadNodePorts(after) == if st.nodePorts != [] then Some(st.nodePorts) else ReadNodePorts(j)
    ensures DecodeStatus(after) == Some(Overlay(DecodeStatus(j).value, st))
  {
    EncodedStr(j, fields, after, "phase", st.phase);
    EncodedStr(j, fields, after, "host_node", st.hostNode);
    EncodedStr(j, fields, after, "pod_ip", st.podIp);
    EncodedNum(j, fields, after, "ssh_port", st.sshPort);
    EncodedNum(j, fields, after, "restart_count", st.restartCount);
    EncodedStr(j, fields, after, "last_backup", st.lastBackup);
    EncodedStr(j, fields, after, "message", st.message);
  }

  /** Patching a readable status with encoded members. */
  lemma FieldsPatch(j: Json, fields: map<string, Json>, st: AgentStatus)
    requires DecodeStatus(j).Some?
    requires Encodes(fields, st) && forall k | k in fields :: !fields[k].Obj?
    ensures DecodeStatus(MergePatch(j, Obj(fields))) == Some(Overlay(DecodeStatus(j).value, st))
  {
    var after := MergePatch(j, Obj(fields));
    forall k
      ensures Member(after, k) == Lookup(fields, k).GetOr(Member(j, k))
    {
      PatchedMember(j, Obj(fields), k);
    }
    NodePortsRoundTrip(st.nodePorts);
    OverlaidReads(j, fields, after, st);
  }

  lemma {:induction false} ScalarEntries(entries: seq<(string, Option<Json>)>)
    requires forall e | e in entries :: e.1.Some? ==> !e.1.value.Obj?
    ensures forall k | k in Members(entries) :: !Members(entries)[k].Obj?
  {
    if entries != [] {
      ScalarEntries(entries[1..]);
    }
  }

  /** One write, read back through the merge patch. */
  lemma StatusPatch(j: Json, st: AgentStatus)
    requires DecodeStatus(j).Some?
    ensures DecodeStatus(MergePatch(j, EncodeStatus(st))) == Some(Overlay(DecodeStatus(j).value, st))
  {
    EncodedMembers(st);
    ScalarEntries(StatusEntries(st));
    FieldsPatch(j, EncodeStatus(st).fields, st);
  }

  // ---------------------------------------------------------------------
  // The whole history of status patches
  // ---------------------------------------------------------------------

  function PatchAll(j: Json, writes: seq<AgentStatus>): Json {
    if writes == [] then j
    else MergePatch(PatchAll(j, writes[..|writes| - 1]), EncodeStatus(writes[|writes| - 1]))
  }

  /** The last value of a field that some write actually carried. */
  function LastPresent<T>(writes: seq<AgentStatus>, field: AgentStatus -> Option<T>): Option<T> {
    if writes == [] then None
    else if field(writes[|writes| - 1]).Some? then field(writes[|writes| - 1])
    else LastPresent(writes[..|writes| - 1], field)
  }

  function LastNodePorts(writes: seq<AgentStatus>): seq<NodePort> {
    if writes == [] then []
    else if writes[|writes| - 1].nodePorts != [] then writes[|writes| - 1].nodePorts
    else LastNodePorts(writes[..|writes| - 1])
  }

  /** A reader sees the phase and the restart count of the last write, and for
      every other field the last value any write carried. */
  lemma {:induction false} StatusHistory(writes: seq<AgentStatus>)
    requires writes != []
    ensures
      DecodeStatus(PatchAll(Null, writes)) == Some(AgentStatus(
        writes[|writes| - 1].phase,
        LastPresent(writes, (w: AgentStatus) => w.hostNode),
        LastPresent(writes, (w: AgentStatus) => w.podIp),
        LastPresent(writes, (w: AgentStatus) => w.sshPort),
        writes[|writes| - 1].restartCount,
        LastPresent(writes, (w: AgentStatus) => w.lastBackup),
        LastPresent(writes, (w: AgentStatus) => w.message),
        LastNodePorts(writes)))
  {
    var before, last := writes[..|writes| - 1], writes[|writes| - 1];
    if before == [] {
      assert PatchAll(Null, before) == Null;
    } else {
      StatusHistory(before);
    }
    StatusPatch(PatchAll(Null, before), last);
  }

  /** What the operator writes for a stopped agent. */
  function StoppedStatus(nodePorts: seq<NodePort>): AgentStatus {
    DEFAULT_STATUS.(phase := Some("Stopped"), restartCount := Some(0), nodePorts := nodePorts)
  }

  /** Writing the stopped status, which names neither node nor address, empties
      those fields iff no earlier write ever filled them. */
  lemma StoppedClearsIffNeverSet(writes: seq<AgentStatus>, nodePorts: seq<NodePort>)
    ensures
      var seen := DecodeStatus(PatchAll(Null, writes + [StoppedStatus(nodePorts)]));
      && seen.Some?
      && (seen.value.podIp == None <==> forall w | w in writes :: w.podIp == None)
      && (seen.value.hostNode == None <==> forall w | w in writes :: w.hostNode == None)
  {
    StatusHistory(writes + [StoppedStatus(nodePorts)]);
    assert (writes + [StoppedStatus(nodePorts)])[..|writes|] == writes;
    NoneIffNeverPresent(writes, (w: AgentStatus) => w.podIp);
    NoneIffNeverPresent(writes, (w: AgentStatus) => w.hostNode);
  }

  lemma {:induction false} NoneIffNeverPresent<T>(writes: seq<AgentStatus>, field: AgentStatus -> Option<T>)
    ensures LastPresent(writes, field) == None <==> forall w | w in writes :: field(w) == None
  {
    if writes != [] {
      var before := writes[..|writes| - 1];
      NoneIffNeverPresent(before, field);
      assert writes == before + [writes[|writes| - 1]];
    }
  }

  // ---------------------------------------------------------------------
  // The state patch of the start and stop endpoints
  // ---------------------------------------------------------------------

  function StateName(state: AgentState): string {
    match state
    case Running => "running"
    case Stopped => "stopped"
  }

  function StatePatch(state: AgentState): Json {
    Obj(map["spec" := Obj(map["state" := Str(StateName(state))])])
  }

  function EncodePorts(ports: seq<PortSpec>): seq<Json> {
    seq(|ports|, i requires 0 <= i < |ports| =>
      Obj(map["name" := Str(ports[i].name), "port" := Num(ports[i].port)]))
  }

  function EncodeEnv(env: seq<EnvVar>): seq<Json> {
    seq(|env|, i requires 0 <= i < |env| =>
      Obj(map["name" := Str(env[i].name), "value" := Str(env[i].value)]))
  }

  function EncodeCommand(command: seq<string>): seq<Json> {
    seq(|command|, i requires 0 <= i < |command| => Str(command[i]))
  }

  /** Every member of an encoded spec but `state`. */
  function EncodeRest(spec: AgentSpec): map<string, Json> {
    Members([
      ("image", Some(Str(spec.image))),
      ("cpu", Some(Str(spec.cpu))),
      ("memory", Some(Str(spec.memory))),
      ("disk", Some(Str(spec.disk))),
      ("volume_mount", Some(Str(spec.volumeMount))),
      ("security_profile", Some(Str(spec.securityProfile))),
      ("env", Some(Arr(EncodeEnv(spec.env)))),
      ("enable_docker", Some(Bool(spec.enableDocker))),
      ("ports", Some(Arr(EncodePorts(spec.ports)))),
      ("command", if spec.command != [] then Some(Arr(EncodeCommand(spec.command))) else None),
      ("ssh_pubkey", WhenSet(spec.sshPubkey)),
      ("service_type", WhenSet(spec.serviceType)),
      ("node_id", WhenSet(spec.nodeId))])
  }

  function EncodeSpec(spec: AgentSpec): Json {
    Obj(EncodeRest(spec)["state" := Str(StateName(spec.state))])
  }

  lemma PatchOneState(rest: map<string, Json>, k: string, was: Json, given: string)
    ensures MergePatch(Obj(rest[k := was]), Obj(map[k := Str(given)])) == Obj(rest[k := Str(given)])
  {
    SingleMemberPatch(rest[k := was], k, Str(given));
    assert rest[k := was][k := Str(given)] == rest[k := Str(given)];
  }

  lemma PatchedSpec(spec: AgentSpec, state: AgentState)
    ensures
      MergePatch(EncodeSpec(spec), StatePatch(state).fields["spec"]) == EncodeSpec(spec.(state := state))
  {
    PatchOneState(EncodeRest(spec), "state", Str(StateName(spec.state)), StateName(state));
    assert EncodeRest(spec.(state := state)) == EncodeRest(spec);
  }

  /** Patching the stored document of an agent with a state patch rewrites
      `spec.state` and leaves every other member of the document, the status
      included, exactly as it was. */
  lemma StatePatchIsFocused(doc: map<string, Json>, spec: AgentSpec, state: AgentState)
    requires "spec" in doc && doc["spec"] == EncodeSpec(spec)
    ensures MergePatch(Obj(doc), StatePatch(state)) == Obj(doc["spec" := EncodeSpec(spec.(state := state))])
  {
    PatchedSpec(spec, state);
    SingleMemberPatch(doc, "spec", StatePatch(state).fields["spec"]);
  }

  /** Whatever the document looks like, the last of two state patches wins and
      repeating one changes nothing. */
  lemma LastStatePatchWins(doc: Json, first: AgentState, last: AgentState)
    ensures MergePatch(MergePatch(doc, StatePatch(first)), StatePatch(last)) == MergePatch(doc, StatePatch(last))
  {
    var p, q := StatePatch(first).fields["spec"], StatePatch(last).fields["spec"];
    assert Overrides(q.fields["state"], p.fields["state"]);
    assert Overrides(q, p);
    LaterPatchWins(doc, StatePatch(first), StatePatch(last));
  }

  /** What the two state patches leave in any document. */
  lemma StatePatchWrites(doc: Json)
    ensures Member(Member(MergePatch(doc, StatePatch(Running)), "spec"), "state") == Str("running")
    ensures Member(Member(MergePatch(doc, StatePatch(Stopped)), "spec"), "state") == Str("stopped")
  {
    StateIsWritten(doc, Running);
    StateIsWritten(doc, Stopped);
  }

  lemma StateIsWritten(doc: Json, state: AgentState)
    ensures Member(Member(MergePatch(doc, StatePatch(state)), "spec"), "state") == Str(StateName(state))
  {
    var inner := StatePatch(state).fields["spec"];
    MergedMembers(doc, StatePatch(state), "spec");
    MergedMembers(Member(doc, "spec"), inner, "state");
  }
}
