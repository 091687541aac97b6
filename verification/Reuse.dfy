/** Why what a `ready` means is tied to the name being new: when a name is reused, a
    reconcile of the former holder can publish its status onto the new agent. */
module Reuse {
  import opened Wrappers
  import opened Crd
  import opened Resources
  import opened ApiServer
  import opened Reconciler
  import opened Sse
  import opened System
  import opened Effects
  import opened Recovery
  import opened Readiness
  import opened Safety
  import opened Ownership
  import Creation
  import Convergence

  // ---------------------------------------------------------------------
  // A leftover status
  // ---------------------------------------------------------------------

  /** A reconcile of a deleted agent is about to publish that its pod runs. */
  predicate Leftover(s: State, id: nat, n: string) {
    && id in s.recs && s.recs[id].agent.name == n && s.recs[id].pc.StatusPatch?
    && s.recs[id].pc.status.phase == Some("Running")
    && n !in s.store.agents
  }

  /** A new agent of that name is created, the leftover is published, the creation
      polls once. */
  function MisleadingMoves(id: nat, caller: nat, n: string, spec: AgentSpec): seq<Move> {
    [Request(caller, Create(spec), n), HandlerTick(caller, Delivered), HandlerTick(caller, Delivered),
     RecTick(id, Delivered), HandlerTick(caller, Delivered)]
  }

  lemma RequestOpens(cfg: Config, s: State, caller: nat, n: string, spec: AgentSpec)
    requires caller !in s.handlers
    ensures Apply(cfg, s, Request(caller, Create(spec), n)).handlers == s.handlers[caller := Open(Create(spec), n)]
  {
    hide StoreAfter, OriginAfter, VersionsAfter, ClaimMade;
  }

  lemma CreationStarts(cfg: Config, s: State, caller: nat, n: string, spec: AgentSpec)
    requires caller !in s.handlers && n !in s.store.agents
    ensures
      var t := Apply(cfg, Apply(cfg, s, Request(caller, Create(spec), n)), HandlerTick(caller, Delivered));
      && t.store == s.store && t.recs == s.recs
      && t.handlers == s.handlers[caller := Open(Create(spec), n).(pc := Act)]
      && t.sawRunning == s.sawRunning
  {
    hide OriginAfter, VersionsAfter, ClaimMade;
  }

  lemma CreationWins(cfg: Config, s: State, caller: nat, n: string, spec: AgentSpec)
    requires n !in s.store.agents
    requires caller in s.handlers && s.handlers[caller] == Open(Create(spec), n).(pc := Act)
    ensures
      var t := Apply(cfg, s, HandlerTick(caller, Delivered));
      && t.recs == s.recs
      && t.store == s.store.(
           agents := s.store.agents[n := Stored(Agent(n, s.store.nextUid, spec), Json.Null)],
           nextUid := s.store.nextUid + 1)
      && t.handlers == s.handlers[
           caller := Handler(Create(spec), n, Polling, Some(s.store.nextUid), [CreatedEvent(n)])]
      && t.versions == s.versions + {Agent(n, s.store.nextUid, spec)}
      && t.sawRunning == s.sawRunning
  {
    hide OriginAfter, ClaimMade;
    assert [] + [CreatedEvent(n)] == [CreatedEvent(n)];
  }

  lemma LeftoverIsPublished(cfg: Config, s: State, id: nat, n: string)
    requires id in s.recs && s.recs[id].agent.name == n && s.recs[id].pc.StatusPatch?
    requires s.recs[id].pc.status.phase == Some("Running")
    requires n in s.store.agents && s.store.agents[n].status == Json.Null
    ensures
      var t := Apply(cfg, s, RecTick(id, Delivered));
      && t.handlers == s.handlers && t.sawRunning == s.sawRunning
      && n in t.store.agents && t.store.agents[n].agent == s.store.agents[n].agent
      && SeenStatus(t.store.agents[n]).phase == Some("Running")
      && DecodeStatus(t.store.agents[n].status).Some?
  {
    hide OriginAfter, VersionsAfter, ClaimMade, EncodeStatus, DecodeStatus, Json.MergePatch;
    NullIsReadable();
    Crd.StatusPatch(Json.Null, s.recs[id].pc.status);
  }

  lemma NullIsReadable()
    ensures DecodeStatus(Json.Null).Some?
  {
  }

  lemma PollSaysReady(cfg: Config, s: State, caller: nat, n: string, spec: AgentSpec, uid: nat)
    requires caller in s.handlers
    requires s.handlers[caller] == Handler(Create(spec), n, Polling, Some(uid), [CreatedEvent(n)])
    requires n in s.store.agents && s.store.agents[n].agent.spec == spec && spec.state.Running?
    requires SeenStatus(s.store.agents[n]).phase == Some("Running") && DecodeStatus(s.store.agents[n].status).Some?
    ensures
      var handlers := Apply(cfg, s, HandlerTick(caller, Delivered)).handlers;
      caller in handlers
      && handlers[caller] == Handler(Create(spec), n, Closed(Reached), Some(uid), [CreatedEvent(n), ReadyEvent(n)])
  {
    hide OriginAfter, VersionsAfter, ClaimMade, DecodeStatus;
    assert [CreatedEvent(n)] + [ReadyEvent(n)] == [CreatedEvent(n), ReadyEvent(n)];
  }

  lemma FiveMoves(cfg: Config, s: State, m1: Move, m2: Move, m3: Move, m4: Move, m5: Move)
    ensures
      var s2 := Apply(cfg, Apply(cfg, s, m1), m2);
      var ms := [m1, m2, m3, m4, m5];
      && Run(cfg, s, ms[..1]) == Apply(cfg, s, m1)
      && Run(cfg, s, ms[..2]) == s2
      && Run(cfg, s, ms[..3]) == Apply(cfg, s2, m3)
      && Run(cfg, s, ms[..4]) == Apply(cfg, Apply(cfg, s2, m3), m4)
      && Run(cfg, s, ms) == Apply(cfg, Apply(cfg, Apply(cfg, s2, m3), m4), m5)
  {
    hide Apply;
    var ms := [m1, m2, m3, m4, m5];
    RunNext(cfg, s, ms, 0);
    RunNext(cfg, s, ms, 1);
    RunNext(cfg, s, ms, 2);
    RunNext(cfg, s, ms, 3);
    RunNext(cfg, s, ms, 4);
    assert ms[..0] == [] && ms[..5] == ms;
  }

  /** From such a state five moves lead to a `ready` without an error for the new
      agent, and in none of them does the operator read a running pod of the name. */
  lemma LeftoverMisleads(cfg: Config, s: State, id: nat, caller: nat, n: string, spec: AgentSpec)
    requires Leftover(s, id, n) && caller !in s.handlers && spec.state.Running?
    ensures
      var ms := MisleadingMoves(id, caller, n, spec);
      var handlers := Run(cfg, s, ms).handlers;
      && caller in handlers && handlers[caller].call == Create(spec) && handlers[caller].name == n
      && handlers[caller].won == Some(s.store.nextUid) && CleanReady(handlers[caller])
      && (forall i | 0 <= i < |ms| :: !ReadsRunning(Run(cfg, s, ms[..i]), ms[i], n))
      && (forall i | 0 <= i < |ms| :: !Creation.Deletes(Run(cfg, s, ms[..i]), ms[i], n))
  {
    hide Apply, SeenStatus, DecodeStatus;
    var ms := MisleadingMoves(id, caller, n, spec);
    var s2 := Apply(cfg, Apply(cfg, s, ms[0]), ms[1]);
    CreationStarts(cfg, s, caller, n, spec);
    CreationWins(cfg, s2, caller, n, spec);
    var s3 := Apply(cfg, s2, ms[2]);
    LeftoverIsPublished(cfg, s3, id, n);
    var s4 := Apply(cfg, s3, ms[3]);
    PollSaysReady(cfg, s4, caller, n, spec, s.store.nextUid);
    FiveMoves(cfg, s, ms[0], ms[1], ms[2], ms[3], ms[4]);
    RequestOpens(cfg, s, caller, n, spec);
    assert [CreatedEvent(n), ReadyEvent(n)][1].ReadyEvent?;
  }

  // ---------------------------------------------------------------------
  // A leftover is reachable
  // ---------------------------------------------------------------------

  /** Reconcile `id` is at `pc`; the stored agents and the requests are as given. */
  predicate At(s: State, id: nat, a: Agent, pc: Pc, agents: map<string, Stored>, handlers: map<nat, Handler>) {
    id in s.recs && s.recs[id] == Rec(a, pc) && s.store.agents == agents && s.handlers == handlers
  }

  /** A served request of that reconcile. */
  lemma TickAt(cfg: Config, s: State, id: nat, a: Agent, pc: Pc)
    requires id in s.recs && s.recs[id] == Rec(a, pc) && !Halted(Rec(a, pc)) && !pc.StatusPatch?
    ensures
      var t := Apply(cfg, s, RecTick(id, Delivered));
      && At(t, id, a, NextPc(Rec(a, pc), Answer(s.store, NextOp(cfg, Rec(a, pc)))), s.store.agents, s.handlers)
      && t.store == StoreAfterOp(cfg, s.store, NextOp(cfg, Rec(a, pc)))
  {
    hide NextOp, StoreAfterOp, Answer, NextPc, OriginAfter, VersionsAfter, ClaimMade, PodsServed;
    AgentMoves(cfg, s, RecTick(id, Delivered));
  }

  /** Only the reconcile and the environment move. */
  predicate NoRequests(ms: seq<Move>) {
    forall i | 0 <= i < |ms| :: !ms[i].Request? && !ms[i].HandlerTick?
  }

  lemma OneMoreTick(cfg: Config, s0: State, ms: seq<Move>, id: nat, a: Agent, pc: Pc) returns (more: seq<Move>)
    requires NoRequests(ms) && !Halted(Rec(a, pc)) && !pc.StatusPatch?
    requires id in Run(cfg, s0, ms).recs && Run(cfg, s0, ms).recs[id] == Rec(a, pc)
    ensures NoRequests(more)
    ensures
      var s, t := Run(cfg, s0, ms), Run(cfg, s0, more);
      && At(t, id, a, NextPc(Rec(a, pc), Answer(s.store, NextOp(cfg, Rec(a, pc)))), s.store.agents, s.handlers)
      && t.store == StoreAfterOp(cfg, s.store, NextOp(cfg, Rec(a, pc)))
  {
    hide Apply, At, StoreAfterOp, NextPc, Answer, NextOp;
    TickAt(cfg, Run(cfg, s0, ms), id, a, pc);
    RunAppend(cfg, s0, ms, RecTick(id, Delivered));
    more := ms + [RecTick(id, Delivered)];
  }

  /** The reconcile of a running agent that had nothing finds nothing it has not
      made; the pod comes before the policy. */
  predicate OnItsWay(pc: Pc, a: Agent, st: Store) {
    var pod, policy := PodName(a.name) in st.pods, PolicyName(a.name) in st.policies;
    var service := ServiceName(a.name) in st.services;
    match pc
    case PvcGet => !pod && !policy && !service
    case PvcCreate => !pod && !policy && !service && PvcName(a.name) !in st.pvcs
    case PodGet => !pod && !policy && !service
    case PodCreate => !pod && !policy && !service
    case PolicyGet => pod && !policy && !service
    case PolicyCreate => pod && !policy && !service
    case ServiceGet => pod && !service
    case ServiceCreate => pod && !service
    case StatusPod => pod
    case _ => false
  }

  lemma GoesOn(cfg: Config, a: Agent, pc: Pc, st: Store)
    requires OnItsWay(pc, a, st) && a.spec.state.Running? && !pc.StatusPod?
    ensures
      var next := NextPc(Rec(a, pc), Answer(st, NextOp(cfg, Rec(a, pc))));
      && OnItsWay(next, a, StoreAfterOp(cfg, st, NextOp(cfg, Rec(a, pc))))
      && (Remaining(pc) > Remaining(PolicyGet) ==> Remaining(next) >= Remaining(PolicyGet))
  {
    hide NextOp, StoreAfterOp, Answer, PodNeedsUpdate, Admit, BuildPod, BuildPvc, BuildNetworkPolicy, BuildService;
    hide PodName, PvcName, PolicyName, ServiceName;
    Served(cfg, a, pc, st);
    if Writes(pc) {
      ServedWrite(cfg, a, pc, st);
    } else {
      ServedRead(cfg, a, pc, st);
    }
  }

  lemma {:induction false} UpTo(cfg: Config, s0: State, ms: seq<Move>, id: nat, a: Agent, pc: Pc, goal: Pc)
      returns (more: seq<Move>)
    requires goal.PolicyGet? || goal.StatusPod?
    requires NoRequests(ms) && a.spec.state.Running? && Remaining(pc) >= Remaining(goal)
    requires id in Run(cfg, s0, ms).recs && Run(cfg, s0, ms).recs[id] == Rec(a, pc)
    requires OnItsWay(pc, a, Run(cfg, s0, ms).store)
    ensures NoRequests(more)
    ensures
      var s, t := Run(cfg, s0, ms), Run(cfg, s0, more);
      At(t, id, a, goal, s.store.agents, s.handlers) && OnItsWay(goal, a, t.store)
    decreases Remaining(pc)
  {
    hide Run, NextOp, StoreAfterOp, Answer, NextPc, PodName, PvcName, PolicyName, ServiceName, NoRequests;
    if pc == goal {
      more := ms;
    } else {
      var st := Run(cfg, s0, ms).store;
      var next := NextPc(Rec(a, pc), Answer(st, NextOp(cfg, Rec(a, pc))));
      var mid := OneMoreTick(cfg, s0, ms, id, a, pc);
      GoesOn(cfg, a, pc, st);
      more := UpTo(cfg, s0, mid, id, a, next, goal);
    }
  }

  lemma PodRuns(cfg: Config, s: State, id: nat, n: string)
    requires PodName(n) in s.store.pods && id in s.recs
    ensures
      var t := Apply(cfg, s, PodReport(PodName(n), PodStatus(Some("Running"), None, None)));
      && At(t, id, s.recs[id].agent, s.recs[id].pc, s.store.agents, s.handlers)
      && PodName(n) in t.store.pods
      && t.store.pods[PodName(n)].status == Some(PodStatus(Some("Running"), None, None))
  {
    hide OriginAfter, VersionsAfter, ClaimMade, PodName;
  }

  lemma RunningIsPublishedNext(cfg: Config, a: Agent, st: Store)
    requires PodName(a.name) in st.pods
    requires st.pods[PodName(a.name)].status == Some(PodStatus(Some("Running"), None, None))
    ensures
      var next := NextPc(Rec(a, StatusPod), Answer(st, NextOp(cfg, Rec(a, StatusPod))));
      next.StatusService? && next.status.phase == Some("Running")
  {
  }

  lemma PortsKeepThePhase(cfg: Config, a: Agent, st: Store, status: AgentStatus)
    ensures
      var pc := StatusService(status);
      var next := NextPc(Rec(a, pc), Answer(st, NextOp(cfg, Rec(a, pc))));
      next.StatusPatch? && next.status.phase == status.phase
  {
  }

  /** A reconcile that had nothing to begin with is led to the point of publishing
      that its pod runs. */
  lemma LedToPublish(cfg: Config, s0: State, ms: seq<Move>, id: nat, a: Agent) returns (more: seq<Move>)
    requires NoRequests(ms) && a.spec.state.Running?
    requires id in Run(cfg, s0, ms).recs && Run(cfg, s0, ms).recs[id] == Start(a)
    requires OnItsWay(PvcGet, a, Run(cfg, s0, ms).store)
    ensures NoRequests(more)
    ensures
      var s, t := Run(cfg, s0, ms), Run(cfg, s0, more);
      && id in t.recs && t.recs[id].agent == a && t.recs[id].pc.StatusPatch?
      && t.recs[id].pc.status.phase == Some("Running")
      && t.store.agents == s.store.agents && t.handlers == s.handlers
  {
    hide Run, Apply, NextOp, StoreAfterOp, Answer, NextPc, PodName;
    var ms1 := UpTo(cfg, s0, ms, id, a, PvcGet, StatusPod);
    var running := PodReport(PodName(a.name), PodStatus(Some("Running"), None, None));
    PodRuns(cfg, Run(cfg, s0, ms1), id, a.name);
    RunAppend(cfg, s0, ms1, running);
    var ms2 := ms1 + [running];
    RunningIsPublishedNext(cfg, a, Run(cfg, s0, ms2).store);
    var pc := NextPc(Rec(a, StatusPod), Answer(Run(cfg, s0, ms2).store, NextOp(cfg, Rec(a, StatusPod))));
    var ms3 := OneMoreTick(cfg, s0, ms2, id, a, StatusPod);
    PortsKeepThePhase(cfg, a, Run(cfg, s0, ms3).store, pc.status);
    more := OneMoreTick(cfg, s0, ms3, id, a, pc);
  }

  // ---------------------------------------------------------------------
  // From nothing
  // ---------------------------------------------------------------------

  /** The first agent is created, and its reconcile starts. */
  lemma FirstAgent(cfg: Config, n: string, spec: AgentSpec) returns (s: State, ms: seq<Move>)
    ensures ms == [Request(0, Create(spec), n), HandlerTick(0, Delivered), HandlerTick(0, Delivered),
                   RecStart(0, Agent(n, 0, spec))]
    ensures s == Run(cfg, INIT, ms)
    ensures s.recs == map[0 := Start(Agent(n, 0, spec))] && s.handlers.Keys == {0}
    ensures s.store.agents == map[n := Stored(Agent(n, 0, spec), Json.Null)]
    ensures s.store.pvcs == map[] && s.store.pods == map[] && s.store.policies == map[] && s.store.services == map[]
  {
    hide Apply;
    ms := [Request(0, Create(spec), n), HandlerTick(0, Delivered), HandlerTick(0, Delivered)];
    RunNext(cfg, INIT, ms, 0);
    RunNext(cfg, INIT, ms, 1);
    RunNext(cfg, INIT, ms, 2);
    assert ms[..0] == [] && ms[..3] == ms;
    CreationStarts(cfg, INIT, 0, n, spec);
    CreationWins(cfg, Run(cfg, INIT, ms[..2]), 0, n, spec);
    RunAppend(cfg, INIT, ms, RecStart(0, Agent(n, 0, spec)));
    Starts(cfg, Run(cfg, INIT, ms), 0, Agent(n, 0, spec));
    ms := ms + [RecStart(0, Agent(n, 0, spec))];
    s := Run(cfg, INIT, ms);
  }

  lemma Starts(cfg: Config, s: State, id: nat, a: Agent)
    requires id !in s.recs && a in s.versions
    ensures
      var t := Apply(cfg, s, RecStart(id, a));
      t.store == s.store && t.handlers == s.handlers && t.recs == s.recs[id := Start(a)]
  {
    hide OriginAfter, VersionsAfter, ClaimMade;
  }

  /** The pod comes first: a state the platform reaches in which an agent has a pod
      and no policy, for any name and any agent that is to run. */
  lemma PodBeforePolicy(cfg: Config, n: string, spec: AgentSpec) returns (ms: seq<Move>)
    requires spec.state.Running?
    ensures
      var st := Run(cfg, INIT, ms).store;
      && n in st.agents && st.agents[n].agent.spec == spec
      && PodName(n) in st.pods && PolicyName(n) !in st.policies
  {
    hide Run, NoRequests, PodName, PolicyName;
    var s, ms0 := FirstAgent(cfg, n, spec);
    NothingYet(cfg, s);
    var more := UpTo(cfg, s, [], 0, Agent(n, 0, spec), PvcGet, PolicyGet);
    RunConcat(cfg, INIT, ms0, more);
    ms := ms0 + more;
  }

  lemma NothingYet(cfg: Config, s: State)
    ensures Run(cfg, s, []) == s && NoRequests([])
  {
  }

  lemma Deleted(cfg: Config, s: State, caller: nat, n: string)
    requires caller !in s.handlers && n in s.store.agents && s.store.agents[n].status == Json.Null
    ensures
      var t := Apply(cfg, Apply(cfg, Apply(cfg, s, Request(caller, DeleteCall, n)), HandlerTick(caller, Delivered)),
                     HandlerTick(caller, Delivered));
      t.recs == s.recs && n !in t.store.agents && t.handlers.Keys == s.handlers.Keys + {caller}
  {
    hide OriginAfter, VersionsAfter, ClaimMade, DecodeStatus;
    NullIsReadable();
  }

  /** A leftover does come about, from a reconcile that was under way when its agent
      was deleted, for any name and any agent that is to run. */
  lemma LeftoverIsReachable(cfg: Config, n: string, spec: AgentSpec) returns (ms: seq<Move>)
    requires spec.state.Running?
    ensures Leftover(Run(cfg, INIT, ms), 0, n) && 2 !in Run(cfg, INIT, ms).handlers
  {
    hide Run, Apply, NoRequests, PodName, PolicyName, ServiceName;
    var s, ms0 := FirstAgent(cfg, n, spec);
    NothingYet(cfg, s);
    var more := LedToPublish(cfg, s, [], 0, Agent(n, 0, spec));
    RunConcat(cfg, INIT, ms0, more);
    var ms4 := ms0 + more;
    Deleted(cfg, Run(cfg, INIT, ms4), 1, n);
    RunAppend(cfg, INIT, ms4, Request(1, DeleteCall, n));
    RunAppend(cfg, INIT, ms4 + [Request(1, DeleteCall, n)], HandlerTick(1, Delivered));
    RunAppend(cfg, INIT, ms4 + [Request(1, DeleteCall, n)] + [HandlerTick(1, Delivered)], HandlerTick(1, Delivered));
    ms := ms4 + [Request(1, DeleteCall, n)] + [HandlerTick(1, Delivered)] + [HandlerTick(1, Delivered)];
  }

  /** A whole run of the platform, from nothing, that ends with a `ready` without an
      error although the operator has not read a running pod of that name since the
      creation request. */
  lemma ReuseMisleads(cfg: Config, n: string, spec: AgentSpec) returns (before: seq<Move>, since: seq<Move>)
    requires spec.state.Running?
    ensures since != [] && since[0] == Request(2, Create(spec), n) && 2 !in Run(cfg, INIT, before).handlers
    ensures
      var handlers := Run(cfg, INIT, before + since).handlers;
      2 in handlers && handlers[2].call == Create(spec) && handlers[2].won.Some? && CleanReady(handlers[2])
    ensures
      forall i | 0 <= i < |since| :: !ReadsRunning(Run(cfg, INIT, before + since[..i]), since[i], n)
  {
    hide Apply, Leftover, CleanReady, ReadsRunning;
    before := LeftoverIsReachable(cfg, n, spec);
    since := MisleadingMoves(0, 2, n, spec);
    LeftoverMisleads(cfg, Run(cfg, INIT, before), 0, 2, n, spec);
    RunConcat(cfg, INIT, before, since);
    forall i | 0 <= i < |since|
      ensures !ReadsRunning(Run(cfg, INIT, before + since[..i]), since[i], n)
    {
      RunConcat(cfg, INIT, before, since[..i]);
    }
  }

  // ---------------------------------------------------------------------
  // From a state that knows a former holder
  // ---------------------------------------------------------------------

  lemma {:induction false} FreshId(ids: set<nat>) returns (id: nat)
    ensures forall i | i in ids :: i < id
    ensures id !in ids
    decreases |ids|
  {
    id := 0;
    if ids != {} {
      var i :| i in ids;
      id := FreshId(ids - {i});
      id := if id > i then id else i + 1;
      assert forall j | j in ids :: j == i || j in ids - {i};
    }
  }

  /** What lies under the names of an agent that is not stored is garbage. */
  lemma LeftBehind(cfg: Config, s: State, n: string)
    requires Safe(cfg, s) && n !in s.store.agents
    ensures PolicyName(n) in s.store.policies ==> Collectable(s.store, s.store.policies[PolicyName(n)].meta)
    ensures ServiceName(n) in s.store.services ==> Collectable(s.store, s.store.services[ServiceName(n)].meta)
    ensures PodName(n) in s.store.pods ==> Collectable(s.store, s.store.pods[PodName(n)].meta)
  {
    hide PolicyName, ServiceName, PodName, PvcName, Collectable;
    hide BuildPod, BuildPvc, BuildNetworkPolicy, BuildService, Bare, Unallocated;
    if PolicyName(n) in s.store.policies {
      var meta := s.store.policies[PolicyName(n)].meta;
      NamesInjective(Owner(s.origin, meta).name, n);
      CollectableIffOwnerGone(s, meta);
    }
    if ServiceName(n) in s.store.services {
      var meta := s.store.services[ServiceName(n)].meta;
      NamesInjective(Owner(s.origin, meta).name, n);
      CollectableIffOwnerGone(s, meta);
    }
    if PodName(n) in s.store.pods {
      var meta := s.store.pods[PodName(n)].meta;
      NamesInjective(Owner(s.origin, meta).name, n);
      CollectableIffOwnerGone(s, meta);
    }
  }

  predicate PodGoing(st: Store, n: string) {
    PodName(n) in st.pods ==> st.pods[PodName(n)].terminating
  }

  /** What a chore does to the store when everything of the name is garbage. */
  lemma ChoreOnGarbage(st: Store, m: Move, n: string)
    requires Convergence.Chore(m)
    requires PolicyName(n) in st.policies ==> Collectable(st, st.policies[PolicyName(n)].meta)
    requires ServiceName(n) in st.services ==> Collectable(st, st.services[ServiceName(n)].meta)
    requires PodName(n) in st.pods ==> Collectable(st, st.pods[PodName(n)].meta)
    ensures
      var st' := EnvStore(st, m);
      && st'.agents == st.agents
      && st'.policies.Keys <= st.policies.Keys && st'.services.Keys <= st.services.Keys
      && st'.pods.Keys <= st.pods.Keys
      && (PodGoing(st, n) ==> PodGoing(st', n))
      && (m == GcPolicy(PolicyName(n)) ==> PolicyName(n) !in st'.policies)
      && (m == GcService(ServiceName(n)) ==> ServiceName(n) !in st'.services)
      && (m == GcPod(PodName(n)) ==> PodGoing(st', n))
      && (m == PodGone(PodName(n)) && PodGoing(st, n) ==> PodName(n) !in st'.pods)
  {
    hide PolicyName, ServiceName, PodName, PvcName, Collectable;
  }

  lemma ChoreApplied(cfg: Config, s: State, m: Move)
    requires Convergence.Chore(m)
    ensures Apply(cfg, s, m).store == EnvStore(s.store, m) && Apply(cfg, s, m).handlers == s.handlers
  {
    hide EnvStore, OriginAfter, VersionsAfter, ClaimMade, Perform;
  }

  lemma ChoreClears(cfg: Config, s: State, m: Move, n: string)
    requires Safe(cfg, s) && n !in s.store.agents && Convergence.Chore(m)
    ensures
      var t := Apply(cfg, s, m);
      && t.store.agents == s.store.agents && t.handlers == s.handlers
      && t.store.policies.Keys <= s.store.policies.Keys && t.store.services.Keys <= s.store.services.Keys
      && t.store.pods.Keys <= s.store.pods.Keys
      && (PodGoing(s.store, n) ==> PodGoing(t.store, n))
      && (m == GcPolicy(PolicyName(n)) ==> PolicyName(n) !in t.store.policies)
      && (m == GcService(ServiceName(n)) ==> ServiceName(n) !in t.store.services)
      && (m == GcPod(PodName(n)) ==> PodGoing(t.store, n))
      && (m == PodGone(PodName(n)) && PodGoing(s.store, n) ==> PodName(n) !in t.store.pods)
  {
    hide Apply, EnvStore, PodGoing, PolicyName, ServiceName, PodName, PvcName, Collectable, Safe;
    LeftBehind(cfg, s, n);
    ChoreOnGarbage(s.store, m, n);
    ChoreApplied(cfg, s, m);
  }

  /** Garbage collection and the kubelet clear the way for another pod. */
  lemma Cleared(cfg: Config, s: State, a: Agent)
    requires Safe(cfg, s) && a.name !in s.store.agents
    ensures
      var t := Run(cfg, s, Convergence.ChoresInOrder(a.name));
      && t.store.agents == s.store.agents && t.handlers == s.handlers
      && t.recs == s.recs && t.versions == s.versions
      && OnItsWay(PvcGet, a, t.store)
    ensures NoRequests(Convergence.ChoresInOrder(a.name))
  {
    hide Apply, PolicyName, ServiceName, PodName, PvcName, Safe, PodGoing;
    var n, ms := a.name, Convergence.ChoresInOrder(a.name);
    Convergence.ChoresKeepPrograms(cfg, s, ms);
    RunNext(cfg, s, ms, 0);
    RunNext(cfg, s, ms, 1);
    RunNext(cfg, s, ms, 2);
    RunNext(cfg, s, ms, 3);
    RunNext(cfg, s, ms, 4);
    assert ms[..0] == [] && ms[..5] == ms;
    SafeRun(cfg, s, ms[..1]);
    SafeRun(cfg, s, ms[..2]);
    SafeRun(cfg, s, ms[..3]);
    SafeRun(cfg, s, ms[..4]);
    ChoreClears(cfg, s, ms[0], n);
    ChoreClears(cfg, Run(cfg, s, ms[..1]), ms[1], n);
    ChoreClears(cfg, Run(cfg, s, ms[..2]), ms[2], n);
    ChoreClears(cfg, Run(cfg, s, ms[..3]), ms[3], n);
    ChoreClears(cfg, Run(cfg, s, ms[..4]), ms[4], n);
  }

  /** Any version of a former holder that was to run can be led to a leftover: the
      operator reconciles what its cache still holds. */
  lemma StaleVersionLeaves(cfg: Config, s: State, a: Agent) returns (ms: seq<Move>, id: nat)
    requires Safe(cfg, s) && a in s.versions && a.spec.state.Running? && a.name !in s.store.agents
    ensures NoRequests(ms) && Leftover(Run(cfg, s, ms), id, a.name)
    ensures Run(cfg, s, ms).handlers == s.handlers
  {
    hide Run, Apply, NoRequests, OnItsWay, Safe, Convergence.ChoresInOrder;
    id := FreshId(s.recs.Keys);
    var chores := Convergence.ChoresInOrder(a.name);
    Cleared(cfg, s, a);
    var t := Run(cfg, s, chores);
    Starts(cfg, t, id, a);
    RunAppend(cfg, s, chores, RecStart(id, a));
    StartIsNoRequest(chores, id, a);
    ms := LedToPublish(cfg, s, chores + [RecStart(id, a)], id, a);
  }

  lemma StartIsNoRequest(ms: seq<Move>, id: nat, a: Agent)
    requires NoRequests(ms)
    ensures NoRequests(ms + [RecStart(id, a)])
  {
  }
}
