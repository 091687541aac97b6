/** Convergence: while an agent is left alone, its objects only ever get closer to
    what they should be, and every fair round of garbage collection and one
    undisturbed reconcile brings them closer until nothing is left to do. */
module Convergence {
  import opened Wrappers
  import opened Crd
  import opened Resources
  import opened ApiServer
  import opened Reconciler
  import opened Sse
  import opened System
  import opened Effects
  import opened Safety
  import opened Ownership

  // ---------------------------------------------------------------------
  // How far an agent's objects are from what they should be
  // ---------------------------------------------------------------------

  /** Owned by former holders of the agent's name only. */
  predicate Orphan(meta: Meta, a: Agent) {
    meta.owners != [] && forall o | o in meta.owners :: o.name == a.name && o.uid != a.uid
  }

  /** Own, missing, or left behind by a former holder of the name. */
  function ChildRank(meta: Option<Meta>, a: Agent): nat {
    match meta
    case None => 1
    case Some(m) => if OwnedBy(m, a) then 0 else 2
  }

  /** Of a running agent: matching, absent, terminating, drifted, left behind. Of a
      stopped one: absent, terminating, present. */
  function PodRank(pod: Option<Pod>, a: Agent): nat {
    if a.spec.state.Stopped? then
      match pod
      case None => 0
      case Some(p) => if p.terminating then 1 else 2
    else
      match pod
      case None => 1
      case Some(p) =>
        if p.terminating then 2
        else if !OwnedBy(p.meta, a) then 4
        else if PodNeedsUpdate(p, a) then 3
        else 0
  }

  function PvcMeta(pvcs: map<string, Pvc>, n: string): Option<Meta> {
    if PvcName(n) in pvcs then Some(pvcs[PvcName(n)].meta) else None
  }

  function PolicyMeta(policies: map<string, NetworkPolicy>, n: string): Option<Meta> {
    if PolicyName(n) in policies then Some(policies[PolicyName(n)].meta) else None
  }

  function ServiceMeta(services: map<string, Service>, n: string): Option<Meta> {
    if ServiceName(n) in services then Some(services[ServiceName(n)].meta) else None
  }

  datatype Ranks = Ranks(pvc: nat, pod: nat, policy: nat, service: nat) {
    function Sum(): nat {
      pvc + pod + policy + service
    }

    predicate Below(other: Ranks) {
      pvc <= other.pvc && pod <= other.pod && policy <= other.policy && service <= other.service
    }
  }

  lemma BelowOrders(r: Ranks, t: Ranks)
    requires r.Below(t)
    ensures t.Below(r) ==> r == t
    ensures r.Sum() < t.Sum() || r == t
  {
  }

  function RanksOf(st: Store, a: Agent): Ranks {
    Ranks(
      ChildRank(PvcMeta(st.pvcs, a.name), a),
      PodRank(Lookup(st.pods, PodName(a.name)), a),
      ChildRank(PolicyMeta(st.policies, a.name), a),
      ChildRank(ServiceMeta(st.services, a.name), a))
  }

  predicate Own(meta: Option<Meta>, a: Agent) {
    meta.Some? && OwnedBy(meta.value, a)
  }

  /** The agent's own pod, up to date and not on its way out; no pod if the agent is
      to be stopped. */
  predicate PodAsWanted(pod: Option<Pod>, a: Agent) {
    if a.spec.state.Stopped? then pod.None?
    else pod.Some? && OwnedBy(pod.value.meta, a) && !pod.value.terminating && !PodNeedsUpdate(pod.value, a)
  }

  predicate Converged(st: Store, a: Agent) {
    && Own(PvcMeta(st.pvcs, a.name), a)
    && PodAsWanted(Lookup(st.pods, PodName(a.name)), a)
    && Own(PolicyMeta(st.policies, a.name), a)
    && Own(ServiceMeta(st.services, a.name), a)
  }

  lemma ZeroRanks(meta: Option<Meta>, pod: Option<Pod>, a: Agent)
    ensures ChildRank(meta, a) == 0 <==> Own(meta, a)
    ensures PodRank(pod, a) == 0 <==> PodAsWanted(pod, a)
    ensures ChildRank(meta, a) <= 2 && PodRank(pod, a) <= 4
  {
  }

  lemma ConvergedIffZero(st: Store, a: Agent)
    ensures RanksOf(st, a).Sum() == 0 <==> Converged(st, a)
    ensures RanksOf(st, a).Sum() <= 10
  {
    var pod := Lookup(st.pods, PodName(a.name));
    ZeroRanks(PvcMeta(st.pvcs, a.name), pod, a);
    ZeroRanks(PolicyMeta(st.policies, a.name), pod, a);
    ZeroRanks(ServiceMeta(st.services, a.name), pod, a);
  }

  // ---------------------------------------------------------------------
  // Leaving the agent alone
  // ---------------------------------------------------------------------

  predicate Dated(meta: Option<Meta>, a: Agent) {
    meta.Some? ==> OwnedBy(meta.value, a) || Orphan(meta.value, a)
  }

  /** Whatever lies under the agent's names is its own or a former holder's. */
  predicate ChildrenDated(st: Store, a: Agent) {
    && Dated(PvcMeta(st.pvcs, a.name), a)
    && Dated(PolicyMeta(st.policies, a.name), a)
    && Dated(ServiceMeta(st.services, a.name), a)
    && (PodName(a.name) in st.pods ==> Dated(Some(st.pods[PodName(a.name)].meta), a))
  }

  /** A program of this agent is on the branch of its desired state, and about to
      delete the pod of a running agent only if that is not as it should be. */
  predicate Sensible(pc: Pc, a: Agent, podRank: nat) {
    if a.spec.state.Stopped? then !pc.PodGet? && !pc.PodDelete? && !pc.PodRecreate? && !pc.PodCreate?
    else !pc.StopGet? && !pc.StopDelete? && (pc.PodDelete? ==> podRank >= 1)
  }

  /** The reconciles of the agent are those of worker `id`, all on its current
      value: the controller runtime never runs two of one object. */
  ghost predicate OneWorker(recs: map<nat, Rec>, a: Agent, id: nat, podRank: nat) {
    && (forall i | i in recs && !Halted(recs[i]) && recs[i].agent.name == a.name ::
          i == id && recs[i].agent == a && Sensible(recs[i].pc, a, podRank))
    && (id in recs && !Halted(recs[id]) ==> recs[id].agent == a)
  }

  /** A request that leaves a stored agent as it is: creating it again, starting it
      when it is to run, stopping it when it is to be stopped. */
  predicate Redundant(call: Call, a: Agent) {
    || call.Create?
    || (call.StartCall? && a.spec.state.Running?)
    || (call.StopCall? && a.spec.state.Stopped?)
  }

  /** No request that changes the agent is under way; streams may be open. */
  ghost predicate NoCallers(handlers: map<nat, Handler>, a: Agent) {
    forall i | i in handlers && handlers[i].name == a.name && (handlers[i].pc.Check? || handlers[i].pc.Act?) ::
      Redundant(handlers[i].call, a)
  }

  predicate StoredAs(agents: map<string, Stored>, a: Agent) {
    a.name in agents && agents[a.name].agent == a
  }

  ghost predicate Stable(s: State, a: Agent, id: nat) {
    && StoredAs(s.store.agents, a)
    && ChildrenDated(s.store, a)
    && OneWorker(s.recs, a, id, RanksOf(s.store, a).pod)
    && NoCallers(s.handlers, a)
  }

  /** No new request changes the agent, and only its worker reconciles it. All other
      agents, the environment and failures are unrestricted. */
  predicate Quiet(m: Move, a: Agent, id: nat) {
    && (m.Request? && m.name == a.name ==> Redundant(m.call, a))
    && (m.RecStart? && (m.id == id || m.agent.name == a.name) ==> m.id == id && m.agent == a)
  }

  // ---------------------------------------------------------------------
  // Nothing gets worse
  // ---------------------------------------------------------------------

  /** The ranks after a move, from what it does to each part of the store. */
  function RanksAfter(cfg: Config, s: State, m: Move, a: Agent): Ranks {
    Ranks(
      ChildRank(PvcMeta(PvcsAfter(cfg, s, m), a.name), a),
      PodRank(Lookup(PodsAfter(cfg, s, m), PodName(a.name)), a),
      ChildRank(PolicyMeta(PoliciesAfter(cfg, s, m), a.name), a),
      ChildRank(ServiceMeta(ServicesAfter(cfg, s, m), a.name), a))
  }

  lemma RanksMove(cfg: Config, s: State, m: Move, a: Agent)
    ensures RanksOf(StoreAfter(cfg, s, m), a) == RanksAfter(cfg, s, m, a)
  {
    PvcMoves(cfg, s, m);
    PodMoves(cfg, s, m);
    PolicyMoves(cfg, s, m);
    ServiceMoves(cfg, s, m);
  }

  lemma OwnIsKept(st: Store, meta: Meta, a: Agent)
    requires StoredAs(st.agents, a)
    ensures OwnedBy(meta, a) ==> !Collectable(st, meta)
    ensures Orphan(meta, a) ==> Collectable(st, meta) && !OwnedBy(meta, a)
  {
    if OwnedBy(meta, a) {
      assert meta.owners[0] in meta.owners;
    }
    if Orphan(meta, a) {
      assert meta.owners[0] in meta.owners;
    }
  }

  lemma PvcNeverWorse(cfg: Config, s: State, m: Move, a: Agent, id: nat)
    requires Stable(s, a, id)
    ensures
      var meta := PvcMeta(PvcsAfter(cfg, s, m), a.name);
      && Dated(meta, a)
      && ChildRank(meta, a) <= ChildRank(PvcMeta(s.store.pvcs, a.name), a)
  {
    hide PodName, PvcName, PolicyName, ServiceName, Orphan, Collectable;
    if PvcMeta(s.store.pvcs, a.name).Some? {
      OwnIsKept(s.store, PvcMeta(s.store.pvcs, a.name).value, a);
    }
    if RecActs(s, m, PvcCreate) {
      NamesInjective(s.recs[m.id].agent.name, a.name);
    }
  }

  lemma PolicyNeverWorse(cfg: Config, s: State, m: Move, a: Agent, id: nat)
    requires Stable(s, a, id)
    ensures
      var meta := PolicyMeta(PoliciesAfter(cfg, s, m), a.name);
      && Dated(meta, a)
      && ChildRank(meta, a) <= ChildRank(PolicyMeta(s.store.policies, a.name), a)
  {
    hide PodName, PvcName, PolicyName, ServiceName, Orphan, Collectable;
    if PolicyMeta(s.store.policies, a.name).Some? {
      OwnIsKept(s.store, PolicyMeta(s.store.policies, a.name).value, a);
    }
    if RecActs(s, m, PolicyCreate) {
      NamesInjective(s.recs[m.id].agent.name, a.name);
    }
  }

  lemma ServiceNeverWorse(cfg: Config, s: State, m: Move, a: Agent, id: nat)
    requires Stable(s, a, id)
    ensures
      var meta := ServiceMeta(ServicesAfter(cfg, s, m), a.name);
      && Dated(meta, a)
      && ChildRank(meta, a) <= ChildRank(ServiceMeta(s.store.services, a.name), a)
  {
    hide PodName, PvcName, PolicyName, ServiceName, Orphan, Collectable;
    if ServiceMeta(s.store.services, a.name).Some? {
      OwnIsKept(s.store, ServiceMeta(s.store.services, a.name).value, a);
    }
    if RecActs(s, m, ServiceCreate) {
      NamesInjective(s.recs[m.id].agent.name, a.name);
    }
  }

  /** What a move can do to the pod of an agent that is left alone: restate what
      is not compared, start its termination if it is not as it should be, end its
      termination, or create it as the agent wants it. */
  predicate Changes(cfg: Config, was: Option<Pod>, pod: Option<Pod>, a: Agent) {
    match was
    case None => pod == None || (a.spec.state.Running? && pod == Some(Admit(cfg, BuildPod(cfg, a))))
    case Some(p) =>
      match pod
      case None => p.terminating
      case Some(q) => Bare(q) == Bare(p) && (q.terminating == p.terminating || (q.terminating && PodRank(was, a) != 0))
  }

  lemma EnvironmentChanges(cfg: Config, st: Store, m: Move, a: Agent)
    requires StoredAs(st.agents, a) && ChildrenDated(st, a)
    ensures Changes(cfg, Lookup(st.pods, PodName(a.name)), Lookup(EnvStore(st, m).pods, PodName(a.name)), a)
  {
    if PodName(a.name) in st.pods {
      OwnIsKept(st, st.pods[PodName(a.name)].meta, a);
    }
  }

  lemma EnvironmentMoves(cfg: Config, s: State, m: Move)
    requires !RecTicks(s, m) && !HandlerTicks(s, m)
    ensures PodsAfter(cfg, s, m) == EnvStore(s.store, m).pods
  {
  }

  lemma WorkerChanges(cfg: Config, s: State, m: Move, a: Agent, id: nat)
    requires Stable(s, a, id) && RecTicks(s, m)
    ensures Changes(cfg, Lookup(s.store.pods, PodName(a.name)), Lookup(PodsAfter(cfg, s, m), PodName(a.name)), a)
  {
    hide PodName, PvcName, PolicyName, ServiceName;
    NamesInjective(s.recs[m.id].agent.name, a.name);
  }

  lemma CallerChanges(cfg: Config, s: State, m: Move, a: Agent)
    requires NoCallers(s.handlers, a) && HandlerTicks(s, m)
    ensures Lookup(PodsAfter(cfg, s, m), PodName(a.name)) == Lookup(s.store.pods, PodName(a.name))
  {
    NamesInjective(s.handlers[m.id].name, a.name);
  }

  lemma PodChanges(cfg: Config, s: State, m: Move, a: Agent, id: nat)
    requires Stable(s, a, id)
    ensures Changes(cfg, Lookup(s.store.pods, PodName(a.name)), Lookup(PodsAfter(cfg, s, m), PodName(a.name)), a)
  {
    if RecTicks(s, m) {
      WorkerChanges(cfg, s, m, a, id);
    } else if HandlerTicks(s, m) {
      CallerChanges(cfg, s, m, a);
    } else {
      EnvironmentChanges(cfg, s.store, m, a);
      EnvironmentMoves(cfg, s, m);
    }
  }

  lemma PodNeverWorse(cfg: Config, was: Option<Pod>, pod: Option<Pod>, a: Agent)
    requires Changes(cfg, was, pod, a)
    ensures Attainable(cfg, a) ==> PodRank(pod, a) <= PodRank(was, a)
    ensures was.Some? && pod.Some? ==> pod.value.meta == was.value.meta
    ensures was.None? && pod.Some? ==> OwnedBy(pod.value.meta, a) && (Attainable(cfg, a) ==> PodRank(pod, a) == 0)
  {
    match (was, pod) {
      case (None, Some(q)) =>
        DriftIff(cfg, a, q);
      case (Some(p), Some(q)) =>
        assert q.meta == Bare(q).meta && p.meta == Bare(p).meta;
        SameDrift(p, q, a);
      case (_, None) =>
    }
  }

  lemma SameDrift(p: Pod, q: Pod, a: Agent)
    requires Bare(p) == Bare(q)
    ensures PodNeedsUpdate(p, a) == PodNeedsUpdate(q, a)
  {
    if p.spec.Some? {
      assert Bare(p).spec.value.containers == p.spec.value.containers;
      assert Bare(q).spec.value.containers == q.spec.value.containers;
    }
  }

  lemma AgentUntouched(cfg: Config, s: State, m: Move, a: Agent, id: nat)
    requires Stable(s, a, id)
    ensures StoredAs(AgentsAfter(s, m), a)
  {
  }

  lemma StillNoCallers(cfg: Config, s: State, m: Move, a: Agent, id: nat)
    requires NoCallers(s.handlers, a) && Quiet(m, a, id)
    ensures NoCallers(HandlersAfter(cfg, s, m), a)
  {
  }

  lemma WrongStaysWrong(cfg: Config, was: Option<Pod>, pod: Option<Pod>, a: Agent)
    requires Changes(cfg, was, pod, a) && a.spec.state.Running?
    requires PodRank(was, a) >= 1 && (was.None? ==> pod.None?)
    ensures PodRank(pod, a) >= 1
  {
    if was.Some? && pod.Some? {
      assert pod.value.meta == Bare(pod.value).meta && was.value.meta == Bare(was.value).meta;
      SameDrift(was.value, pod.value, a);
    }
  }

  /** Only the worker creates the agent's pod. */
  lemma NobodyElseCreates(cfg: Config, s: State, m: Move, a: Agent, id: nat)
    requires Stable(s, a, id) && PodName(a.name) !in s.store.pods && !(RecTicks(s, m) && m.id == id)
    ensures PodName(a.name) !in PodsAfter(cfg, s, m)
  {
    hide PodName, PvcName, PolicyName, ServiceName, BuildPod, Admit;
    if RecTicks(s, m) {
      NamesInjective(s.recs[m.id].agent.name, a.name);
    }
  }

  /** While the worker is about to delete the pod, nobody makes the pod right. */
  lemma StillToDelete(cfg: Config, s: State, m: Move, a: Agent, id: nat)
    requires Stable(s, a, id) && a.spec.state.Running? && RanksOf(s.store, a).pod >= 1
    requires !(RecTicks(s, m) && m.id == id)
    ensures RanksAfter(cfg, s, m, a).pod >= 1
  {
    PodChanges(cfg, s, m, a, id);
    if PodName(a.name) !in s.store.pods {
      NobodyElseCreates(cfg, s, m, a, id);
    }
    WrongStaysWrong(cfg, Lookup(s.store.pods, PodName(a.name)), Lookup(PodsAfter(cfg, s, m), PodName(a.name)), a);
  }

  lemma StaysSensible(cfg: Config, pc: Pc, a: Agent, st: Store, reply: Reply)
    requires !Halted(Rec(a, pc)) && Sensible(pc, a, RanksOf(st, a).pod)
    ensures
      var (rec', st') := Step(cfg, Rec(a, pc), st, reply);
      rec'.agent == a && Sensible(rec'.pc, a, RanksOf(st', a).pod)
  {
    if pc.PodGet? && reply.Delivered? && PodName(a.name) in st.pods {
      assert Step(cfg, Rec(a, pc), st, reply).1 == st;
    }
  }

  lemma WorkersKept(cfg: Config, s: State, m: Move, a: Agent, id: nat, rank: nat, rank': nat)
    requires OneWorker(s.recs, a, id, rank) && Quiet(m, a, id)
    requires
      if RecTicks(s, m) && m.id == id then
        RecsAfter(cfg, s, m)[id].agent == a && Sensible(RecsAfter(cfg, s, m)[id].pc, a, rank')
      else a.spec.state.Running? && rank >= 1 ==> rank' >= 1
    ensures OneWorker(RecsAfter(cfg, s, m), a, id, rank')
  {
    var recs' := RecsAfter(cfg, s, m);
    forall i | i in recs' && !Halted(recs'[i]) && recs'[i].agent.name == a.name
      ensures i == id && recs'[i].agent == a && Sensible(recs'[i].pc, a, rank')
    {
    }
  }

  /** The worker is never told to delete a pod that is as it should be. */
  lemma StillOneWorker(cfg: Config, s: State, m: Move, a: Agent, id: nat)
    requires Stable(s, a, id) && Quiet(m, a, id)
    ensures OneWorker(RecsAfter(cfg, s, m), a, id, RanksAfter(cfg, s, m, a).pod)
  {
    var rank, rank' := RanksOf(s.store, a).pod, RanksAfter(cfg, s, m, a).pod;
    if RecTicks(s, m) && m.id == id {
      StaysSensible(cfg, s.recs[id].pc, a, s.store, m.reply);
      RanksMove(cfg, s, m, a);
    } else if a.spec.state.Running? && rank >= 1 {
      StillToDelete(cfg, s, m, a, id);
    }
    WorkersKept(cfg, s, m, a, id, rank, rank');
  }

  lemma StillDated(cfg: Config, s: State, m: Move, a: Agent, id: nat)
    requires Stable(s, a, id)
    ensures ChildrenDated(StoreAfter(cfg, s, m), a)
    ensures Attainable(cfg, a) ==> RanksAfter(cfg, s, m, a).Below(RanksOf(s.store, a))
  {
    PvcMoves(cfg, s, m);
    PodMoves(cfg, s, m);
    PolicyMoves(cfg, s, m);
    ServiceMoves(cfg, s, m);
    PvcNeverWorse(cfg, s, m, a, id);
    PolicyNeverWorse(cfg, s, m, a, id);
    ServiceNeverWorse(cfg, s, m, a, id);
    PodChanges(cfg, s, m, a, id);
    PodNeverWorse(cfg, Lookup(s.store.pods, PodName(a.name)), Lookup(PodsAfter(cfg, s, m), PodName(a.name)), a);
  }

  /** One move of anyone leaves the agent left alone and, if the goal can be attained,
      no object of it farther from what it should be. */
  lemma NeverWorse(cfg: Config, s: State, m: Move, a: Agent, id: nat)
    requires Stable(s, a, id) && Quiet(m, a, id)
    ensures Stable(Apply(cfg, s, m), a, id)
    ensures RanksOf(Apply(cfg, s, m).store, a) == RanksAfter(cfg, s, m, a)
    ensures Attainable(cfg, a) ==> RanksAfter(cfg, s, m, a).Below(RanksOf(s.store, a))
  {
    RanksMove(cfg, s, m, a);
    StillDated(cfg, s, m, a, id);
    AgentMoves(cfg, s, m);
    AgentUntouched(cfg, s, m, a, id);
    StillNoCallers(cfg, s, m, a, id);
    StillOneWorker(cfg, s, m, a, id);
  }

  ghost predicate AllQuiet(ms: seq<Move>, a: Agent, id: nat) {
    forall i | 0 <= i < |ms| :: Quiet(ms[i], a, id)
  }

  lemma {:induction false} NeverWorseRun(cfg: Config, s: State, ms: seq<Move>, a: Agent, id: nat)
    requires Stable(s, a, id) && AllQuiet(ms, a, id)
    ensures Stable(Run(cfg, s, ms), a, id)
    ensures Attainable(cfg, a) ==> RanksOf(Run(cfg, s, ms).store, a).Below(RanksOf(s.store, a))
  {
    if ms != [] {
      NeverWorseRun(cfg, s, ms[..|ms| - 1], a, id);
      NeverWorse(cfg, Run(cfg, s, ms[..|ms| - 1]), ms[|ms| - 1], a, id);
    }
  }

  // ---------------------------------------------------------------------
  // A fair round
  // ---------------------------------------------------------------------

  /** What garbage collection and the kubelet get to do about the agent's objects. */
  function Chores(n: string): set<Move> {
    {GcPvc(PvcName(n)), GcPolicy(PolicyName(n)), GcService(ServiceName(n)), GcPod(PodName(n)), PodGone(PodName(n))}
  }

  /** Nothing is left for these chores to do. */
  predicate Settled(r: Ranks, a: Agent) {
    && r.pvc <= 1 && r.policy <= 1 && r.service <= 1
    && (if a.spec.state.Stopped? then r.pod != 1 else r.pod != 2 && r.pod != 4)
  }

  predicate ServedFrom(ms: seq<Move>, id: nat, k: nat) {
    forall i | k <= i < |ms| && ms[i].RecTick? && ms[i].id == id :: ms[i].reply.Delivered?
  }

  /** Garbage collection took up every object and the kubelet finished what it
      could; and a reconcile that stood at its start after `k` moves had all its
      requests served and has halted. Anything else may happen in between. */
  ghost predicate FairRound(cfg: Config, s: State, ms: seq<Move>, a: Agent, id: nat, k: nat) {
    && AllQuiet(ms, a, id)
    && (forall m | m in Chores(a.name) :: m in ms)
    && k <= |ms|
    && id in Run(cfg, s, ms[..k]).recs && Run(cfg, s, ms[..k]).recs[id] == Start(a)
    && ServedFrom(ms, id, k)
    && id in Run(cfg, s, ms).recs && Halted(Run(cfg, s, ms).recs[id])
  }

  /** Where a reconcile stands while the objects it has passed are right and stay. */
  predicate OnTrack(pc: Pc, r: Ranks) {
    match pc
    case PvcGet => true
    case PvcCreate => r.pvc == 1
    case StopGet => r.pvc == 0
    case StopDelete => r.pvc == 0 && r.pod == 2
    case PodGet => r.pvc == 0
    case PodDelete => r.pvc == 0 && r.pod == 3
    case PodRecreate => false
    case PodCreate => r.pvc == 0 && r.pod == 1
    case PolicyGet => r.pvc == 0 && r.pod == 0
    case PolicyCreate => r.pvc == 0 && r.pod == 0 && r.policy == 1
    case ServiceGet => r.pvc == 0 && r.pod == 0 && r.policy == 0
    case ServiceCreate => r.pvc == 0 && r.pod == 0 && r.policy == 0 && r.service == 1
    case Aborted => false
    case _ => r == Ranks(0, 0, 0, 0)
  }

  lemma ClaimHelps(cfg: Config, s: State, m: Move, a: Agent)
    requires RecActs(s, m, PvcCreate) && s.recs[m.id].agent == a && ChildRank(PvcMeta(s.store.pvcs, a.name), a) == 1
    ensures ChildRank(PvcMeta(PvcsAfter(cfg, s, m), a.name), a) == 0
  {
  }

  lemma PolicyHelps(cfg: Config, s: State, m: Move, a: Agent)
    requires RecActs(s, m, PolicyCreate) && s.recs[m.id].agent == a
    requires ChildRank(PolicyMeta(s.store.policies, a.name), a) == 1
    ensures ChildRank(PolicyMeta(PoliciesAfter(cfg, s, m), a.name), a) == 0
  {
  }

  lemma ServiceHelps(cfg: Config, s: State, m: Move, a: Agent)
    requires RecActs(s, m, ServiceCreate) && s.recs[m.id].agent == a
    requires ChildRank(ServiceMeta(s.store.services, a.name), a) == 1
    ensures ChildRank(ServiceMeta(ServicesAfter(cfg, s, m), a.name), a) == 0
  {
  }

  lemma PodHelps(cfg: Config, s: State, m: Move, a: Agent)
    requires RecActs(s, m, PodCreate) && s.recs[m.id].agent == a && PodName(a.name) !in s.store.pods
    requires a.spec.state.Running? && Attainable(cfg, a)
    ensures PodRank(Lookup(PodsAfter(cfg, s, m), PodName(a.name)), a) == 0
  {
    PodNeverWorse(cfg, None, Some(Admit(cfg, BuildPod(cfg, a))), a);
  }

  lemma DeletionHelps(cfg: Config, s: State, m: Move, a: Agent)
    requires RecActs(s, m, PodDelete) || RecActs(s, m, StopDelete)
    requires s.recs[m.id].agent == a && PodName(a.name) in s.store.pods
    ensures
      var pod := s.store.pods[PodName(a.name)];
      Lookup(PodsAfter(cfg, s, m), PodName(a.name)) == Some(pod.(terminating := true))
  {
  }

  /** A write on track is needed, and brings its object closer. */
  lemma WriteHelps(cfg: Config, s: State, m: Move, a: Agent, r: Ranks)
    requires RecTicks(s, m) && m.reply.Delivered? && s.recs[m.id].agent == a && Writes(s.recs[m.id].pc)
    requires Attainable(cfg, a) && r == RanksOf(s.store, a)
    requires OnTrack(s.recs[m.id].pc, r) && Sensible(s.recs[m.id].pc, a, r.pod)
    ensures RanksAfter(cfg, s, m, a) != r
  {
    match s.recs[m.id].pc
    case PvcCreate => ClaimHelps(cfg, s, m, a);
    case PodCreate => PodHelps(cfg, s, m, a);
    case PolicyCreate => PolicyHelps(cfg, s, m, a);
    case ServiceCreate => ServiceHelps(cfg, s, m, a);
    case _ => DeletionHelps(cfg, s, m, a);
  }

  /** What the ranks say about the objects a reconcile reads. */
  predicate Tells(r: Ranks, st: Store, a: Agent) {
    && (r.pvc != 1 <==> PvcName(a.name) in st.pvcs)
    && (r.policy != 1 <==> PolicyName(a.name) in st.policies)
    && (r.service != 1 <==> ServiceName(a.name) in st.services)
    && (if a.spec.state.Stopped? then r.pod <= 2 && (r.pod != 0 <==> PodName(a.name) in st.pods)
        else
          && (r.pod != 1 <==> PodName(a.name) in st.pods)
          && (r.pod == 0 || r.pod == 3 ==> (r.pod == 3 <==> PodNeedsUpdate(st.pods[PodName(a.name)], a))))
    && r.pvc <= 2 && r.policy <= 2 && r.service <= 2 && r.pod <= 4
  }

  lemma RanksTell(st: Store, a: Agent)
    ensures Tells(RanksOf(st, a), st, a)
  {
  }

  lemma ClaimReadOnTrack(a: Agent, st: Store, r: Ranks, resp: Resp)
    requires Reads(PvcGet, a, st, resp) && Tells(r, st, a) && Settled(r, a)
    ensures OnTrack(NextPc(Rec(a, PvcGet), resp), r)
  {
  }

  lemma PodReadOnTrack(a: Agent, pc: Pc, st: Store, r: Ranks, resp: Resp)
    requires pc == AfterPvc(a)
    requires Reads(pc, a, st, resp) && Tells(r, st, a) && Settled(r, a) && OnTrack(pc, r)
    ensures OnTrack(NextPc(Rec(a, pc), resp), r)
  {
  }

  lemma PolicyReadOnTrack(a: Agent, st: Store, r: Ranks, resp: Resp)
    requires Reads(PolicyGet, a, st, resp) && Tells(r, st, a) && Settled(r, a) && OnTrack(PolicyGet, r)
    ensures OnTrack(NextPc(Rec(a, PolicyGet), resp), r)
  {
  }

  lemma ServiceReadOnTrack(a: Agent, st: Store, r: Ranks, resp: Resp)
    requires Reads(ServiceGet, a, st, resp) && Tells(r, st, a) && Settled(r, a) && OnTrack(ServiceGet, r)
    ensures OnTrack(NextPc(Rec(a, ServiceGet), resp), r)
  {
  }

  lemma StatusOnTrack(a: Agent, pc: Pc, r: Ranks, resp: Resp)
    requires (pc.StatusPod? || pc.StatusService? || pc.StatusPatch?) && OnTrack(pc, r) && !resp.Failed?
    ensures OnTrack(NextPc(Rec(a, pc), resp), r)
  {
  }

  lemma ReadOnTrack(a: Agent, pc: Pc, st: Store, r: Ranks, resp: Resp)
    requires !Halted(Rec(a, pc)) && !Writes(pc) && Reads(pc, a, st, resp)
    requires Tells(r, st, a) && Settled(r, a) && OnTrack(pc, r) && Sensible(pc, a, r.pod)
    ensures OnTrack(NextPc(Rec(a, pc), resp), r)
  {
    match pc
    case PvcGet => ClaimReadOnTrack(a, st, r, resp);
    case PodGet => PodReadOnTrack(a, pc, st, r, resp);
    case StopGet => PodReadOnTrack(a, pc, st, r, resp);
    case PolicyGet => PolicyReadOnTrack(a, st, r, resp);
    case ServiceGet => ServiceReadOnTrack(a, st, r, resp);
    case _ => StatusOnTrack(a, pc, r, resp);
  }

  lemma TickOnTrack(cfg: Config, s: State, m: Move, a: Agent, id: nat)
    requires Stable(s, a, id) && Attainable(cfg, a)
    requires RecTicks(s, m) && m.id == id && m.reply.Delivered?
    requires Settled(RanksOf(s.store, a), a) && OnTrack(s.recs[id].pc, RanksOf(s.store, a))
    requires RanksAfter(cfg, s, m, a) == RanksOf(s.store, a)
    ensures RecsAfter(cfg, s, m)[id].agent == a && OnTrack(RecsAfter(cfg, s, m)[id].pc, RanksOf(s.store, a))
  {
    var pc, r := s.recs[id].pc, RanksOf(s.store, a);
    RanksTell(s.store, a);
    if Writes(pc) {
      WriteHelps(cfg, s, m, a, r);
      assert false;
    } else {
      ServedRead(cfg, a, pc, s.store);
      ReadOnTrack(a, pc, s.store, r, Answer(s.store, NextOp(cfg, Rec(a, pc))));
    }
  }

  /** The worker is on track: its reconcile is one of the agent, nothing is wrong
      that it has passed. */
  predicate WorkerOnTrack(recs: map<nat, Rec>, a: Agent, id: nat, r: Ranks) {
    id in recs && recs[id].agent == a && OnTrack(recs[id].pc, r)
  }

  lemma MoveOnTrack(cfg: Config, s: State, m: Move, a: Agent, id: nat)
    requires Stable(s, a, id) && Quiet(m, a, id) && Attainable(cfg, a)
    requires m.RecTick? && m.id == id ==> m.reply.Delivered?
    requires Settled(RanksOf(s.store, a), a) && WorkerOnTrack(s.recs, a, id, RanksOf(s.store, a))
    requires RanksAfter(cfg, s, m, a) == RanksOf(s.store, a)
    ensures WorkerOnTrack(RecsAfter(cfg, s, m), a, id, RanksOf(s.store, a))
  {
    if RecTicks(s, m) && m.id == id {
      TickOnTrack(cfg, s, m, a, id);
    }
  }

  // Chores

  lemma CollectionHelps(cfg: Config, s: State, m: Move, a: Agent, id: nat)
    requires Stable(s, a, id) && m in Chores(a.name) && !m.PodGone? && !m.GcPod?
    ensures
      match m
      case GcPvc(_) => RanksAfter(cfg, s, m, a).pvc <= 1
      case GcPolicy(_) => RanksAfter(cfg, s, m, a).policy <= 1
      case _ => RanksAfter(cfg, s, m, a).service <= 1
  {
    hide PodName, PvcName, PolicyName, ServiceName, Orphan, Collectable;
    if PvcMeta(s.store.pvcs, a.name).Some? {
      OwnIsKept(s.store, PvcMeta(s.store.pvcs, a.name).value, a);
    }
    if PolicyMeta(s.store.policies, a.name).Some? {
      OwnIsKept(s.store, PolicyMeta(s.store.policies, a.name).value, a);
    }
    if ServiceMeta(s.store.services, a.name).Some? {
      OwnIsKept(s.store, ServiceMeta(s.store.services, a.name).value, a);
    }
  }

  lemma PodGoes(cfg: Config, s: State, m: Move, a: Agent, id: nat)
    requires Stable(s, a, id) && m in Chores(a.name) && (m.PodGone? || m.GcPod?)
    ensures
      var rank := RanksAfter(cfg, s, m, a).pod;
      if m.GcPod? then a.spec.state.Running? ==> rank <= 3
      else rank != if a.spec.state.Stopped? then 1 else 2
  {
    hide PodName, PvcName, PolicyName, ServiceName, Orphan, Collectable;
    if PodName(a.name) in s.store.pods {
      OwnIsKept(s.store, s.store.pods[PodName(a.name)].meta, a);
    }
  }

  // Whole rounds

  /** If a run ends as far away as it began, it was as far away all the time. */
  lemma StaysPut(cfg: Config, s: State, ms: seq<Move>, a: Agent, id: nat, k: nat)
    requires Stable(s, a, id) && AllQuiet(ms, a, id) && Attainable(cfg, a) && k <= |ms|
    requires RanksOf(Run(cfg, s, ms).store, a) == RanksOf(s.store, a)
    ensures Stable(Run(cfg, s, ms[..k]), a, id)
    ensures RanksOf(Run(cfg, s, ms[..k]).store, a) == RanksOf(s.store, a)
  {
    hide Apply, RanksOf, RanksAfter, Stable;
    NeverWorseRun(cfg, s, ms[..k], a, id);
    RunConcat(cfg, s, ms[..k], ms[k..]);
    assert ms[..k] + ms[k..] == ms;
    NeverWorseRun(cfg, Run(cfg, s, ms[..k]), ms[k..], a, id);
    BelowOrders(RanksOf(Run(cfg, s, ms[..k]).store, a), RanksOf(s.store, a));
  }

  /** The same, around one of its moves. */
  lemma MovePutsNothing(cfg: Config, s: State, ms: seq<Move>, a: Agent, id: nat, k: nat)
    requires Stable(s, a, id) && AllQuiet(ms, a, id) && Attainable(cfg, a) && k < |ms|
    requires RanksOf(Run(cfg, s, ms).store, a) == RanksOf(s.store, a)
    ensures
      var t := Run(cfg, s, ms[..k]);
      && Stable(t, a, id) && Quiet(ms[k], a, id)
      && Run(cfg, s, ms[..k + 1]) == Apply(cfg, t, ms[k])
      && RanksOf(t.store, a) == RanksOf(s.store, a) == RanksAfter(cfg, t, ms[k], a)
  {
    hide RanksOf, RanksAfter, Stable, Apply, Attainable;
    StaysPut(cfg, s, ms, a, id, k);
    StaysPut(cfg, s, ms, a, id, k + 1);
    assert ms[..k + 1][..k] == ms[..k];
    NeverWorse(cfg, Run(cfg, s, ms[..k]), ms[k], a, id);
  }

  lemma ChoreSettles(cfg: Config, s: State, ms: seq<Move>, a: Agent, id: nat, m: Move)
    requires Stable(s, a, id) && AllQuiet(ms, a, id) && Attainable(cfg, a)
    requires RanksOf(Run(cfg, s, ms).store, a) == RanksOf(s.store, a)
    requires m in Chores(a.name) && m in ms
    ensures
      var r := RanksOf(s.store, a);
      match m
      case GcPvc(_) => r.pvc <= 1
      case GcPolicy(_) => r.policy <= 1
      case GcService(_) => r.service <= 1
      case GcPod(_) => a.spec.state.Running? ==> r.pod <= 3
      case _ => r.pod != if a.spec.state.Stopped? then 1 else 2
  {
    hide Apply, RanksOf, RanksAfter, Stable;
    var k :| 0 <= k < |ms| && ms[k] == m;
    MovePutsNothing(cfg, s, ms, a, id, k);
    if m.PodGone? || m.GcPod? {
      PodGoes(cfg, Run(cfg, s, ms[..k]), m, a, id);
    } else {
      CollectionHelps(cfg, Run(cfg, s, ms[..k]), m, a, id);
    }
  }

  lemma ChoresSettle(cfg: Config, s: State, ms: seq<Move>, a: Agent, id: nat)
    requires Stable(s, a, id) && AllQuiet(ms, a, id) && Attainable(cfg, a)
    requires RanksOf(Run(cfg, s, ms).store, a) == RanksOf(s.store, a)
    requires forall m | m in Chores(a.name) :: m in ms
    ensures Settled(RanksOf(s.store, a), a)
  {
    var n := a.name;
    ChoreSettles(cfg, s, ms, a, id, GcPvc(PvcName(n)));
    ChoreSettles(cfg, s, ms, a, id, GcPolicy(PolicyName(n)));
    ChoreSettles(cfg, s, ms, a, id, GcService(ServiceName(n)));
    ChoreSettles(cfg, s, ms, a, id, GcPod(PodName(n)));
    ChoreSettles(cfg, s, ms, a, id, PodGone(PodName(n)));
    ConvergedIffZero(s.store, a);
  }

  lemma AppliedRecs(cfg: Config, s: State, m: Move)
    ensures Apply(cfg, s, m).recs == RecsAfter(cfg, s, m)
  {
    hide StoreAfter, RecsAfter;
  }

  lemma {:induction false} StaysOnTrack(cfg: Config, s: State, ms: seq<Move>, a: Agent, id: nat, k: nat, j: nat)
    requires Stable(s, a, id) && Attainable(cfg, a) && AllQuiet(ms, a, id) && ServedFrom(ms, id, k) && k <= j <= |ms|
    requires RanksOf(Run(cfg, s, ms).store, a) == RanksOf(s.store, a)
    requires Settled(RanksOf(s.store, a), a)
    requires WorkerOnTrack(Run(cfg, s, ms[..k]).recs, a, id, RanksOf(s.store, a))
    ensures WorkerOnTrack(Run(cfg, s, ms[..j]).recs, a, id, RanksOf(s.store, a))
    decreases j
  {
    hide RanksOf, RanksAfter, Stable, Apply, Settled, AllQuiet, WorkerOnTrack, Quiet, Attainable;
    if j > k {
      StaysOnTrack(cfg, s, ms, a, id, k, j - 1);
      MovePutsNothing(cfg, s, ms, a, id, j - 1);
      MoveOnTrack(cfg, Run(cfg, s, ms[..j - 1]), ms[j - 1], a, id);
      AppliedRecs(cfg, Run(cfg, s, ms[..j - 1]), ms[j - 1]);
    }
  }

  /** A fair round strictly helps until nothing is left to do. */
  lemma RoundHelps(cfg: Config, s: State, ms: seq<Move>, a: Agent, id: nat, k: nat)
    requires Stable(s, a, id) && FairRound(cfg, s, ms, a, id, k)
    ensures Stable(Run(cfg, s, ms), a, id)
    ensures
      var before, after := RanksOf(s.store, a).Sum(), RanksOf(Run(cfg, s, ms).store, a).Sum();
      Attainable(cfg, a) ==> after < before || after == before == 0
  {
    hide Apply, RanksOf, RanksAfter, Stable;
    NeverWorseRun(cfg, s, ms, a, id);
    if Attainable(cfg, a) {
      BelowOrders(RanksOf(Run(cfg, s, ms).store, a), RanksOf(s.store, a));
      if RanksOf(Run(cfg, s, ms).store, a) == RanksOf(s.store, a) {
        ChoresSettle(cfg, s, ms, a, id);
        StaysOnTrack(cfg, s, ms, a, id, k, |ms|);
        assert ms[..|ms|] == ms;
      }
    }
  }

  datatype Round = Round(moves: seq<Move>, start: nat)

  function After(cfg: Config, s: State, rounds: seq<Round>): State
    decreases |rounds|
  {
    if rounds == [] then s else After(cfg, Run(cfg, s, rounds[0].moves), rounds[1..])
  }

  ghost predicate FairRounds(cfg: Config, s: State, rounds: seq<Round>, a: Agent, id: nat)
    decreases |rounds|
  {
    rounds != [] ==>
      && FairRound(cfg, s, rounds[0].moves, a, id, rounds[0].start)
      && FairRounds(cfg, Run(cfg, s, rounds[0].moves), rounds[1..], a, id)
  }

  lemma {:induction false} RoundsHelp(cfg: Config, s: State, rounds: seq<Round>, a: Agent, id: nat)
    requires Stable(s, a, id) && FairRounds(cfg, s, rounds, a, id)
    ensures Stable(After(cfg, s, rounds), a, id)
    ensures
      var before, after := RanksOf(s.store, a).Sum(), RanksOf(After(cfg, s, rounds).store, a).Sum();
      Attainable(cfg, a) ==> after + |rounds| <= before || after == 0
    decreases |rounds|
  {
    if rounds != [] {
      var s' := Run(cfg, s, rounds[0].moves);
      RoundHelps(cfg, s, rounds[0].moves, a, id, rounds[0].start);
      RoundsHelp(cfg, s', rounds[1..], a, id);
    }
  }

  /** Whatever state an agent's objects are in, missing, drifted, terminating or
      left behind by a former holder of the name, and whatever everyone else does:
      once the agent is left alone, ten fair rounds bring it to where it should be,
      and it stays there, unless the API server rewrites its limits. */
  lemma Converges(cfg: Config, s: State, rounds: seq<Round>, ms: seq<Move>, a: Agent, id: nat)
    requires Stable(s, a, id)
    requires FairRounds(cfg, s, rounds, a, id) && |rounds| >= 10
    requires AllQuiet(ms, a, id)
    ensures StoredAs(Run(cfg, After(cfg, s, rounds), ms).store.agents, a)
    ensures Attainable(cfg, a) ==> Converged(Run(cfg, After(cfg, s, rounds), ms).store, a)
  {
    var t := After(cfg, s, rounds);
    RoundsHelp(cfg, s, rounds, a, id);
    ConvergedIffZero(s.store, a);
    NeverWorseRun(cfg, t, ms, a, id);
    ConvergedIffZero(Run(cfg, t, ms).store, a);
  }

  // ---------------------------------------------------------------------
  // From any safe state
  // ---------------------------------------------------------------------

  /** In a safe state an object under one of the agent's names is the agent's
      own or a former holder's, never anything else. */
  lemma OwnOrOrphan(cfg: Config, s: State, meta: Meta, a: Agent)
    requires Recorded(s) && StoredAs(s.store.agents, a)
    requires Owned(s.origin, meta) && Owner(s.origin, meta).name == a.name
    ensures OwnedBy(meta, a) || Orphan(meta, a)
  {
    LiveBuilds(cfg, s, a.name);
  }

  lemma SafeIsDated(cfg: Config, s: State, a: Agent)
    requires Safe(cfg, s) && StoredAs(s.store.agents, a)
    ensures ChildrenDated(s.store, a)
  {
    hide PvcName, PolicyName, ServiceName, PodName, BuildPvc, BuildPod, BuildNetworkPolicy, BuildService;
    hide Bare, Unallocated, Orphan, Admit, AgentsKnown, RecsKnown, VersionsKnown, SameButState;
    var st := s.store;
    if PvcName(a.name) in st.pvcs {
      var meta := st.pvcs[PvcName(a.name)].meta;
      NamesInjective(Owner(s.origin, meta).name, a.name);
      OwnOrOrphan(cfg, s, meta, a);
    }
    if PolicyName(a.name) in st.policies {
      var meta := st.policies[PolicyName(a.name)].meta;
      NamesInjective(Owner(s.origin, meta).name, a.name);
      OwnOrOrphan(cfg, s, meta, a);
    }
    if ServiceName(a.name) in st.services {
      var meta := st.services[ServiceName(a.name)].meta;
      NamesInjective(Owner(s.origin, meta).name, a.name);
      OwnOrOrphan(cfg, s, meta, a);
    }
    if PodName(a.name) in st.pods {
      var meta := st.pods[PodName(a.name)].meta;
      NamesInjective(Owner(s.origin, meta).name, a.name);
      OwnOrOrphan(cfg, s, meta, a);
    }
  }

  /** No reconcile of the agent is under way, its worker is free, and nobody is
      about to change the agent. */
  ghost predicate LeftAlone(s: State, a: Agent, id: nat) {
    && StoredAs(s.store.agents, a)
    && Idle(s.recs, id)
    && (forall i | i in s.recs && s.recs[i].agent.name == a.name :: Halted(s.recs[i]))
    && NoCallers(s.handlers, a)
  }

  function Moves(rounds: seq<Round>): seq<Move> {
    if rounds == [] then [] else rounds[0].moves + Moves(rounds[1..])
  }

  lemma {:induction false} AfterIsRun(cfg: Config, s: State, rounds: seq<Round>)
    ensures After(cfg, s, rounds) == Run(cfg, s, Moves(rounds))
    decreases |rounds|
  {
    hide Apply;
    if rounds != [] {
      AfterIsRun(cfg, Run(cfg, s, rounds[0].moves), rounds[1..]);
      RunConcat(cfg, s, rounds[0].moves, Moves(rounds[1..]));
    }
  }

  /** Every object of the agent exists and is the full build of the agent, as the
      API server admits it; a stopped agent has no pod. */
  predicate FullyBuilt(cfg: Config, st: Store, a: Agent) {
    var n := a.name;
    && PvcName(n) in st.pvcs && st.pvcs[PvcName(n)] == AdmitPvc(cfg, BuildPvc(cfg, a))
    && PolicyName(n) in st.policies && st.policies[PolicyName(n)] == BuildNetworkPolicy(cfg, a)
    && ServiceName(n) in st.services && Unallocated(st.services[ServiceName(n)]) == BuildService(cfg, a)
    && if a.spec.state.Stopped? then PodName(n) !in st.pods
       else
         && PodName(n) in st.pods
         && Bare(st.pods[PodName(n)]) == Bare(Admit(cfg, BuildPod(cfg, a)))
         && !st.pods[PodName(n)].terminating
  }

  /** In a safe state, convergence in the few things the operator looks at is
      convergence in everything; and it is only ever attained when the API server
      keeps the agent's limits or the agent is to be stopped. */
  lemma ConvergedIsFullyBuilt(cfg: Config, s: State, a: Agent)
    requires Safe(cfg, s) && StoredAs(s.store.agents, a) && Converged(s.store, a)
    ensures FullyBuilt(cfg, s.store, a)
    ensures Attainable(cfg, a)
  {
    hide BuildPvc, BuildPod, BuildNetworkPolicy, BuildService, Bare, Unallocated, Admit, PodNeedsUpdate;
    OwnChildrenAreCurrent(cfg, s, a.name);
    if a.spec.state.Running? {
      DriftCheckIsSound(cfg, s, a.name, PodName(a.name));
    }
  }

  lemma LeftAloneIsStable(cfg: Config, s: State, a: Agent, id: nat)
    requires Safe(cfg, s) && LeftAlone(s, a, id)
    ensures Stable(s, a, id)
  {
    SafeIsDated(cfg, s, a);
  }

  /** From any safe state, as every reachable one is, an agent that is left alone
      reaches its goal within ten fair rounds and for good, if the API server keeps
      its limits or it is to be stopped, and otherwise never; and at its goal its
      objects are exactly what the operator builds for it. */
  lemma LeftAloneConverges(cfg: Config, s: State, rounds: seq<Round>, more: seq<Move>, a: Agent, id: nat)
    requires Safe(cfg, s) && LeftAlone(s, a, id)
    requires FairRounds(cfg, s, rounds, a, id) && |rounds| >= 10 && AllQuiet(more, a, id)
    ensures
      var st := Run(cfg, s, Moves(rounds) + more).store;
      && (Converged(st, a) <==> Attainable(cfg, a))
      && (Converged(st, a) ==> FullyBuilt(cfg, st, a))
  {
    hide Apply, Stable, LeftAlone, Converged, FullyBuilt, Attainable, FairRounds, Safe;
    LeftAloneIsStable(cfg, s, a, id);
    Converges(cfg, s, rounds, more, a, id);
    AfterIsRun(cfg, s, rounds);
    RunConcat(cfg, s, Moves(rounds), more);
    SafeRun(cfg, s, Moves(rounds) + more);
    if Converged(Run(cfg, s, Moves(rounds) + more).store, a) {
      ConvergedIsFullyBuilt(cfg, Run(cfg, s, Moves(rounds) + more), a);
    }
  }

  // Fair rounds exist

  /** Every chore once, then one reconcile from start to end with every request
      served. */
  function PlainRound(a: Agent, id: nat): seq<Move> {
    ChoresInOrder(a.name) + [RecStart(id, a)] + Ticks(id, 12)
  }

  function ChoresInOrder(n: string): (chores: seq<Move>)
    ensures |chores| == 5
  {
    [GcPvc(PvcName(n)), GcPolicy(PolicyName(n)), GcService(ServiceName(n)), GcPod(PodName(n)), PodGone(PodName(n))]
  }

  function Ticks(id: nat, count: nat): (ticks: seq<Move>)
    ensures |ticks| == count && forall i | 0 <= i < count :: ticks[i] == RecTick(id, Delivered)
  {
    seq(count, _ => RecTick(id, Delivered))
  }

  lemma {:induction false} TicksHalt(cfg: Config, s: State, id: nat, count: nat)
    requires id in s.recs
    ensures
      var recs' := Run(cfg, s, Ticks(id, count)).recs;
      id in recs' && (Halted(recs'[id]) || Remaining(recs'[id].pc) + count <= Remaining(s.recs[id].pc))
  {
    if count > 0 {
      TicksHalt(cfg, s, id, count - 1);
      assert Ticks(id, count)[..count - 1] == Ticks(id, count - 1);
    }
  }

  predicate Chore(m: Move) {
    m.GcPvc? || m.GcPolicy? || m.GcService? || m.GcPod? || m.PodGone?
  }

  lemma ChoreKeepsPrograms(cfg: Config, s: State, m: Move)
    requires Chore(m)
    ensures Apply(cfg, s, m).recs == s.recs && Apply(cfg, s, m).versions == s.versions
  {
  }

  /** The environment does not touch programs or the record of agents. */
  lemma {:induction false} ChoresKeepPrograms(cfg: Config, s: State, ms: seq<Move>)
    requires forall i | 0 <= i < |ms| :: Chore(ms[i])
    ensures Run(cfg, s, ms).recs == s.recs && Run(cfg, s, ms).versions == s.versions
  {
    hide Apply;
    if ms != [] {
      ChoresKeepPrograms(cfg, s, ms[..|ms| - 1]);
      ChoreKeepsPrograms(cfg, Run(cfg, s, ms[..|ms| - 1]), ms[|ms| - 1]);
    }
  }

  lemma StartsAfterChores(cfg: Config, s: State, a: Agent, id: nat)
    requires Idle(s.recs, id) && a in s.versions
    ensures Run(cfg, s, ChoresInOrder(a.name) + [RecStart(id, a)]).recs == s.recs[id := Start(a)]
  {
    hide StoreAfter, HandlersAfter;
    var ms := ChoresInOrder(a.name) + [RecStart(id, a)];
    ChoresKeepPrograms(cfg, s, ChoresInOrder(a.name));
    assert ms[..|ms| - 1] == ChoresInOrder(a.name);
  }

  lemma PlainRoundIsQuiet(a: Agent, id: nat)
    ensures AllQuiet(PlainRound(a, id), a, id)
  {
  }

  lemma PlainRoundChoresAll(a: Agent, id: nat)
    ensures forall m | m in Chores(a.name) :: m in PlainRound(a, id)
  {
    hide PvcName, PolicyName, ServiceName, PodName;
    var ms := PlainRound(a, id);
    forall m | m in Chores(a.name)
      ensures m in ms
    {
      assert m == ms[0] || m == ms[1] || m == ms[2] || m == ms[3] || m == ms[4];
    }
  }

  /** Whenever the worker is free and knows the agent, a fair round can follow. */
  lemma FairRoundExists(cfg: Config, s: State, a: Agent, id: nat)
    requires Idle(s.recs, id) && a in s.versions
    ensures FairRound(cfg, s, PlainRound(a, id), a, id, 6)
  {
    hide Run, AllQuiet, Chores, ChoresInOrder;
    var ms := PlainRound(a, id);
    PlainRoundIsQuiet(a, id);
    assert ms[..6] == ChoresInOrder(a.name) + [RecStart(id, a)];
    StartsAfterChores(cfg, s, a, id);
    RunConcat(cfg, s, ms[..6], Ticks(id, 12));
    assert ms[..6] + Ticks(id, 12) == ms;
    TicksHalt(cfg, Run(cfg, s, ms[..6]), id, 12);
    PlainRoundChoresAll(a, id);
  }

  // ---------------------------------------------------------------------
  // A converged agent is left as it is
  // ---------------------------------------------------------------------

  /** Not about to change anything, and on the branch of the desired state. */
  predicate Harmless(pc: Pc, a: Agent) {
    !Writes(pc) && Sensible(pc, a, 0)
  }

  lemma HarmlessTick(cfg: Config, s: State, m: Move, a: Agent)
    requires RecTicks(s, m) && s.recs[m.id].agent == a && Harmless(s.recs[m.id].pc, a)
    requires StoredAs(s.store.agents, a) && Converged(s.store, a)
    ensures Harmless(RecsAfter(cfg, s, m)[m.id].pc, a)
  {
    if m.reply.Delivered? {
      ServedOrFailed(cfg, a, s.recs[m.id].pc, s.store);
    }
  }

  lemma ServedOrFailed(cfg: Config, a: Agent, pc: Pc, st: Store)
    requires !Halted(Rec(a, pc)) && Harmless(pc, a) && StoredAs(st.agents, a) && Converged(st, a)
    ensures Harmless(NextPc(Rec(a, pc), Answer(st, NextOp(cfg, Rec(a, pc)))), a)
  {
    hide NextOp, Answer;
    ServedRead(cfg, a, pc, st);
  }

  lemma StaysConverged(cfg: Config, s: State, ms: seq<Move>, a: Agent, id: nat)
    requires Stable(s, a, id) && AllQuiet(ms, a, id) && Attainable(cfg, a) && Converged(s.store, a)
    ensures Stable(Run(cfg, s, ms), a, id) && Converged(Run(cfg, s, ms).store, a)
  {
    hide Apply, Stable, AllQuiet, Converged, RanksOf, Attainable;
    NeverWorseRun(cfg, s, ms, a, id);
    ConvergedIffZero(s.store, a);
    ConvergedIffZero(Run(cfg, s, ms).store, a);
  }

  lemma QuietBefore(ms: seq<Move>, a: Agent, id: nat)
    requires ms != [] && AllQuiet(ms, a, id)
    ensures AllQuiet(ms[..|ms| - 1], a, id) && Quiet(ms[|ms| - 1], a, id)
  {
  }

  lemma HarmlessMove(cfg: Config, s: State, m: Move, a: Agent, id: nat)
    requires Stable(s, a, id) && Quiet(m, a, id) && Converged(s.store, a)
    requires id in s.recs && !Halted(s.recs[id]) ==> Harmless(s.recs[id].pc, a)
    ensures
      var recs' := Apply(cfg, s, m).recs;
      id in recs' && !Halted(recs'[id]) ==> recs'[id].agent == a && Harmless(recs'[id].pc, a)
  {
    hide StoreAfter, Converged, HandlersAfter;
    if RecTicks(s, m) && m.id == id {
      HarmlessTick(cfg, s, m, a);
    }
  }

  /** However often an agent that is where it should be is reconciled, started while
      running or stopped while stopped, whatever fails on the way: its worker never
      creates or deletes anything. */
  lemma {:induction false} ConvergedIsAFixpoint(cfg: Config, s: State, ms: seq<Move>, a: Agent, id: nat)
    requires Stable(s, a, id) && AllQuiet(ms, a, id) && Attainable(cfg, a) && Converged(s.store, a)
    requires id in s.recs && !Halted(s.recs[id]) ==> s.recs[id].agent == a && Harmless(s.recs[id].pc, a)
    ensures
      var t := Run(cfg, s, ms);
      && Converged(t.store, a)
      && (id in t.recs && !Halted(t.recs[id]) ==> t.recs[id].agent == a && Harmless(t.recs[id].pc, a))
  {
    hide Apply, Stable, Quiet, AllQuiet, Converged, Harmless, RanksOf, RanksAfter, Attainable;
    StaysConverged(cfg, s, ms, a, id);
    if ms != [] {
      var before := ms[..|ms| - 1];
      QuietBefore(ms, a, id);
      ConvergedIsAFixpoint(cfg, s, before, a, id);
      StaysConverged(cfg, s, before, a, id);
      HarmlessMove(cfg, Run(cfg, s, before), ms[|ms| - 1], a, id);
    }
  }

  // ---------------------------------------------------------------------
  // A rewritten limit
  // ---------------------------------------------------------------------

  /** If the API server rewrites a limit of a running agent, every served read of the
      agent's own pod, however recent the pod, sends the reconcile on to delete it,
      and the deletion, when served, starts its termination. */
  lemma RewrittenLimitsAreAttacked(cfg: Config, s: State, id: nat, a: Agent)
    requires Safe(cfg, s) && StoredAs(s.store.agents, a)
    requires a.spec.state.Running? && !KeepsLimits(cfg, a.spec)
    requires PodName(a.name) in s.store.pods && OwnedBy(s.store.pods[PodName(a.name)].meta, a)
    requires id in s.recs && s.recs[id] == Rec(a, PodGet)
    ensures
      var read := Apply(cfg, s, RecTick(id, Delivered));
      var deleted := Apply(cfg, read, RecTick(id, Delivered));
      && id in read.recs && read.recs[id] == Rec(a, PodDelete) && read.store.pods == s.store.pods
      && PodName(a.name) in deleted.store.pods && deleted.store.pods[PodName(a.name)].terminating
  {
    hide PodNeedsUpdate, BuildPod, Admit, Bare, OriginAfter, VersionsAfter, HandlersAfter, StoreAfter, PodName, Safe;
    DriftCheckIsSound(cfg, s, a.name, PodName(a.name));
    PodMoves(cfg, s, RecTick(id, Delivered));
    PodGetAnswered(cfg, a, s.store);
    PodMoves(cfg, Apply(cfg, s, RecTick(id, Delivered)), RecTick(id, Delivered));
  }

  lemma PodGetAnswered(cfg: Config, a: Agent, st: Store)
    requires PodName(a.name) in st.pods && PodNeedsUpdate(st.pods[PodName(a.name)], a)
    ensures Step(cfg, Rec(a, PodGet), st, Delivered) == (Rec(a, PodDelete), st)
  {
  }

  /** The API server prints half a CPU in millis. */
  const CANON_OF_HALF: string -> string := q => if q == "0.5" then "500m" else q

  /** So it happens to a running agent with half a CPU: the pod made for it counts
      as drifted from the start. */
  lemma HalfACpuIsAttacked(cfg: Config, a: Agent)
    requires cfg.canon == CANON_OF_HALF && a.spec.cpu == "0.5"
    ensures !KeepsLimits(cfg, a.spec)
    ensures PodNeedsUpdate(Admit(cfg, BuildPod(cfg, a)), a)
  {
    assert "500m"[0] != "0.5"[0];
    DriftIff(cfg, a, Admit(cfg, BuildPod(cfg, a)));
  }
}
