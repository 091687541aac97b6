/** What the API reads after the operator has published a status, in terms of the pod
    and service it was derived from. */
module Publishing {
  import opened Wrappers
  import opened Json
  import opened Crd
  import opened Resources
  import opened ApiServer
  import opened Reconciler

  /** The phase users get for a pod, in the cluster's own words. */
  function PhaseFor(pod: Option<Pod>): string {
    match pod
    case None => "Creating"
    case Some(p) =>
      if Crashes(p) then "CrashLoopBackOff"
      else if p.status.None? || p.status.value.phase.None? then "Unknown"
      else Renamed(p.status.value.phase.value)
  }

  /** Some container waits in a crash loop. */
  predicate Crashes(p: Pod) {
    && p.status.Some? && p.status.value.containerStatuses.Some?
    && var containers := p.status.value.containerStatuses.value;
       exists i | 0 <= i < |containers| :: containers[i].waitingReason == Some("CrashLoopBackOff")
  }

  /** Two of the cluster's phases get another name, all others keep theirs. */
  function Renamed(phase: string): string {
    if phase == "Pending" then "Creating" else if phase == "Succeeded" then "Stopped" else phase
  }

  /** All restarts, counted from the last container. */
  function Restarts(containers: seq<ContainerStatus>): int {
    if containers == [] then 0
    else Restarts(containers[..|containers| - 1]) + containers[|containers| - 1].restartCount
  }

  function RestartsOf(pod: Pod): int {
    if pod.status.Some? && pod.status.value.containerStatuses.Some?
    then Restarts(pod.status.value.containerStatuses.value)
    else 0
  }

  lemma {:induction false} RestartsAreTheSum(containers: seq<ContainerStatus>)
    ensures SumRestarts(containers) == Restarts(containers)
  {
    if containers != [] {
      SumSplits(containers[..|containers| - 1], containers[|containers| - 1]);
      RestartsAreTheSum(containers[..|containers| - 1]);
      assert containers[..|containers| - 1] + [containers[|containers| - 1]] == containers;
    }
  }

  lemma {:induction false} SumSplits(containers: seq<ContainerStatus>, last: ContainerStatus)
    ensures SumRestarts(containers + [last]) == SumRestarts(containers) + last.restartCount
  {
    if containers != [] {
      SumSplits(containers[1..], last);
      assert (containers + [last])[1..] == containers[1..] + [last];
    }
  }

  /** The count `n` as 32 bits hold it. */
  ghost predicate Holds(count: Option<i32>, n: int) {
    count.Some? && exists k: int :: count.value == n + k * 0x1_0000_0000
  }

  lemma WrappedHolds(n: int)
    ensures Holds(Some(WrapI32(n)), n)
  {
    var m := (n + 0x8000_0000) % 0x1_0000_0000;
    var q := (n + 0x8000_0000) / 0x1_0000_0000;
    assert n + 0x8000_0000 == q * 0x1_0000_0000 + m;
    assert WrapI32(n) == n + (-q) * 0x1_0000_0000;
  }

  /** The part of a reconcile that publishes, from the read of the pod: each request
      sees the store as it is then. The read of the service may fail; the status is
      published all the same. */
  function Published(cfg: Config, a: Agent, st1: Store, st2: Store, read2: Reply, st3: Store): (Rec, Store) {
    var rec2 := Step(cfg, Rec(a, if a.spec.state.Stopped? then AfterService(a) else StatusPod), st1, Delivered).0;
    var rec3 := if a.spec.state.Stopped? then Step(cfg, Rec(a, AfterService(a)), st2, read2).0
                else Step(cfg, rec2, st2, read2).0;
    Step(cfg, rec3, st3, Delivered)
  }

  /** The node ports a read of the service gives, if it gives any. */
  function PortsRead(st: Store, n: string, reply: Reply): seq<NodePort> {
    if reply.Delivered? && ServiceName(n) in st.services && st.services[ServiceName(n)].ports.Some?
    then AssignedNodePorts(st.services[ServiceName(n)].ports.value)
    else []
  }

  /** The status the API decodes for `n`. */
  function Decoded(st: Store, n: string): Option<AgentStatus> {
    if n in st.agents then DecodeStatus(st.agents[n].status) else None
  }

  lemma StatusOfThePod(cfg: Config, a: Agent, st: Store)
    ensures
      var (rec', st') := Step(cfg, Rec(a, StatusPod), st, Delivered);
      var pod := Lookup(st.pods, PodName(a.name));
      && rec'.agent == a && rec'.pc.StatusService? && st' == st
      && var status := rec'.pc.status;
         && status.phase == Some(PhaseFor(pod))
         && status.podIp == (if pod.Some? && pod.value.status.Some? then pod.value.status.value.podIp else None)
         && status.hostNode == (if pod.Some? && pod.value.spec.Some? then pod.value.spec.value.nodeName else None)
         && (if pod.Some? then Holds(status.restartCount, RestartsOf(pod.value)) else status.restartCount == None)
         && status.nodePorts == [] && status.sshPort == None && status.lastBackup == None && status.message == None
  {
    hide WrapI32, ReportedPhase, Crashes, Holds, PodName, BuildPod, BuildPvc, BuildService, BuildNetworkPolicy;
    if PodName(a.name) in st.pods {
      var pod := st.pods[PodName(a.name)];
      RestartsAreTheSum(ContainerStatuses(pod));
      WrappedHolds(SumRestarts(ContainerStatuses(pod)));
      ReportedAsIs(pod);
    }
  }

  lemma ReportedAsIs(pod: Pod)
    ensures ReportedPhase(pod) == PhaseFor(Some(pod))
  {
    var containers := ContainerStatuses(pod);
    if CrashLooping(pod) {
      var c :| c in containers && c.waitingReason == Some("CrashLoopBackOff");
      var i :| 0 <= i < |containers| && containers[i] == c;
    }
  }

  lemma PortsAreAdded(cfg: Config, a: Agent, status: AgentStatus, st: Store, reply: Reply)
    requires status.nodePorts == []
    ensures
      Step(cfg, Rec(a, StatusService(status)), st, reply)
      == (Rec(a, StatusPatch(status.(nodePorts := PortsRead(st, a.name, reply)))), st)
  {
  }

  lemma StatusIsStored(cfg: Config, a: Agent, status: AgentStatus, st: Store)
    requires a.name in st.agents && Decoded(st, a.name).Some?
    ensures
      var (rec', st') := Step(cfg, Rec(a, StatusPatch(status)), st, Delivered);
      && rec' == Rec(a, Completed)
      && Decoded(st', a.name) == Some(Overlay(Decoded(st, a.name).value, status))
  {
    hide MergePatch, EncodeStatus, DecodeStatus, BuildPod, BuildPvc, BuildService, BuildNetworkPolicy;
    Crd.StatusPatch(st.agents[a.name].status, status);
  }

  /** What a running agent's published status reads like: the pod's own address and
      node, or the last ones if it has none; its restarts as 32 bits hold them; and
      its phase, or "Creating" and no count without a pod. */
  lemma RunningStatus(cfg: Config, a: Agent, st1: Store, st2: Store, read2: Reply, st3: Store)
    requires a.spec.state.Running? && a.name in st3.agents && Decoded(st3, a.name).Some?
    ensures
      var (rec', st') := Published(cfg, a, st1, st2, read2, st3);
      var pod := Lookup(st1.pods, PodName(a.name));
      var was, ports := Decoded(st3, a.name).value, PortsRead(st2, a.name, read2);
      && rec'.pc.Completed? && Decoded(st', a.name).Some?
      && var now := Decoded(st', a.name).value;
         && now.phase == Some(PhaseFor(pod))
         && now.podIp == (if pod.Some? && pod.value.status.Some? && pod.value.status.value.podIp.Some?
                          then pod.value.status.value.podIp else was.podIp)
         && now.hostNode == (if pod.Some? && pod.value.spec.Some? && pod.value.spec.value.nodeName.Some?
                             then pod.value.spec.value.nodeName else was.hostNode)
         && (if pod.Some? then Holds(now.restartCount, RestartsOf(pod.value)) else now.restartCount == None)
         && now.nodePorts == (if ports != [] then ports else was.nodePorts)
         && now.sshPort == was.sshPort && now.lastBackup == was.lastBackup && now.message == was.message
  {
    hide Step, DecodeStatus, PhaseFor, RestartsOf, Holds, PortsRead, PodName;
    StatusOfThePod(cfg, a, st1);
    var rec2 := Step(cfg, Rec(a, StatusPod), st1, Delivered).0;
    PortsAreAdded(cfg, a, rec2.pc.status, st2, read2);
    StatusIsStored(cfg, a, rec2.pc.status.(nodePorts := PortsRead(st2, a.name, read2)), st3);
  }

  /** What a stopped agent's reads like: stopped, no restarts, and the last address and
      node it had. */
  lemma StoppedPublishes(cfg: Config, a: Agent, st1: Store, st2: Store, read2: Reply, st3: Store)
    requires a.spec.state.Stopped? && a.name in st3.agents && Decoded(st3, a.name).Some?
    ensures
      var (rec', st') := Published(cfg, a, st1, st2, read2, st3);
      var was, ports := Decoded(st3, a.name).value, PortsRead(st2, a.name, read2);
      && rec'.pc.Completed?
      && Decoded(st', a.name)
         == Some(was.(phase := Some("Stopped"), restartCount := Some(0),
                      nodePorts := if ports != [] then ports else was.nodePorts))
  {
    hide Step, DecodeStatus, PortsRead;
    var status := AfterService(a).status;
    PortsAreAdded(cfg, a, status, st2, read2);
    StatusIsStored(cfg, a, status.(nodePorts := PortsRead(st2, a.name, read2)), st3);
  }

  /** The phases one by one. */
  lemma EveryPhase(pod: Pod)
    requires pod.status.Some?
    ensures
      var s, crashing := pod.status.value, Crashes(pod);
      && (crashing ==> PhaseFor(Some(pod)) == "CrashLoopBackOff")
      && (!crashing ==>
            && (s.phase == None ==> PhaseFor(Some(pod)) == "Unknown")
            && (s.phase == Some("Pending") ==> PhaseFor(Some(pod)) == "Creating")
            && (s.phase == Some("Running") ==> PhaseFor(Some(pod)) == "Running")
            && (s.phase == Some("Succeeded") ==> PhaseFor(Some(pod)) == "Stopped")
            && (s.phase == Some("Failed") ==> PhaseFor(Some(pod)) == "Failed")
            && (s.phase.Some? && s.phase.value !in {"Pending", "Running", "Succeeded", "Failed"} ==>
                  PhaseFor(Some(pod)) == s.phase.value))
  {
  }
}
