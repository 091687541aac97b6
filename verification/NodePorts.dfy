/** Node ports on their way from the cluster's allocation to the published status. */
module NodePorts {
  import opened Wrappers
  import opened Crd
  import opened Resources
  import opened ApiServer
  import opened Reconciler
  import opened System
  import opened Safety
  import opened Ownership

  /** The agent's declared ports that have a node port, with it. */
  function Exposed(ports: seq<PortSpec>, nodePorts: seq<Option<i32>>): seq<NodePort>
    requires |ports| == |nodePorts|
  {
    if ports == [] then []
    else
      (if nodePorts[0].Some? then [NodePort(ports[0].name, ports[0].port, nodePorts[0].value)] else [])
      + Exposed(ports[1..], nodePorts[1..])
  }

  /** A service's ports after an allocation. */
  predicate Allocated(built: seq<ServicePort>, nodePorts: seq<Option<i32>>, ports: seq<ServicePort>) {
    && |built| == |nodePorts| == |ports|
    && forall i | 0 <= i < |ports| :: ports[i] == built[i].(nodePort := nodePorts[i])
  }

  lemma {:induction false} AssignedAreExposed(ports: seq<PortSpec>, nodePorts: seq<Option<i32>>, svc: seq<ServicePort>)
    requires |ports| == |nodePorts| && Allocated(ServicePorts(ports), nodePorts, svc)
    ensures AssignedNodePorts(svc) == Exposed(ports, nodePorts)
  {
    if ports != [] {
      assert svc[0] == ServicePorts(ports)[0].(nodePort := nodePorts[0]);
      assert Allocated(ServicePorts(ports[1..]), nodePorts[1..], svc[1..]);
      AssignedAreExposed(ports[1..], nodePorts[1..], svc[1..]);
    }
  }

  lemma AllocationOnTheBuild(cfg: Config, a: Agent, svc: Service, nodePorts: seq<Option<i32>>,
                             exposed: seq<ServicePort>)
    requires Unallocated(svc) == BuildService(cfg, a)
    requires svc.ports.Some? && |nodePorts| == |svc.ports.value| == |exposed|
    requires forall i | 0 <= i < |exposed| :: exposed[i] == svc.ports.value[i].(nodePort := nodePorts[i])
    ensures Allocated(ServicePorts(a.spec.ports), nodePorts, exposed)
  {
    var built := ServicePorts(a.spec.ports);
    assert Unallocated(svc).ports.value == built;
    forall i | 0 <= i < |exposed|
      ensures exposed[i] == built[i].(nodePort := nodePorts[i])
    {
      assert built[i] == svc.ports.value[i].(nodePort := None);
    }
  }

  /** Whatever the cluster allocates to an agent's own service, at any time and over
      any earlier allocation, the status the operator next derives lists exactly the
      agent's declared ports that have a node port, each with its own. */
  lemma PublishedPortsAreAllocated(cfg: Config, s: State, n: string, nodePorts: seq<Option<i32>>, status: AgentStatus)
    requires Safe(cfg, s)
    requires
      var st := s.store;
      && n in st.agents && ServiceName(n) in st.services
      && OwnedBy(st.services[ServiceName(n)].meta, st.agents[n].agent)
      && |nodePorts| == |st.agents[n].agent.spec.ports|
    ensures
      var st := s.store;
      var st' := AllocateNodePorts(st, ServiceName(n), nodePorts);
      WithNodePorts(status, Lookup(st'.services, ServiceName(n)))
      == status.(nodePorts := Exposed(st.agents[n].agent.spec.ports, nodePorts))
  {
    hide Safe, ServiceName, PvcName, PolicyName, PodName, BuildPvc, BuildPod, BuildNetworkPolicy, Bare, Admit;
    var st := s.store;
    var a, svc := st.agents[n].agent, st.services[ServiceName(n)];
    OwnChildrenAreCurrent(cfg, s, n);
    assert |Unallocated(svc).ports.value| == |svc.ports.value|;
    var exposed := AllocateNodePorts(st, ServiceName(n), nodePorts).services[ServiceName(n)].ports.value;
    AllocationOnTheBuild(cfg, a, svc, nodePorts, exposed);
    AssignedAreExposed(a.spec.ports, nodePorts, exposed);
  }

  /** A port without a name is published with an empty one. */
  lemma UnnamedPort(port: ServicePort, rest: seq<ServicePort>)
    requires port.nodePort.Some?
    ensures
      var first := AssignedNodePorts([port] + rest)[0];
      && first.port == port.port && first.nodePort == port.nodePort.value
      && first.name == if port.name.Some? then port.name.value else ""
  {
  }
}
