/** A creation that reports `ready` without an error tells the truth: the operator
    has read the agent's pod as running, with no container in a crash loop, since
    the agent was created. */
module Readiness {
  import opened Wrappers
  import opened Crd
  import opened Resources
  import opened ApiServer
  import opened Reconciler
  import opened Sse
  import opened System
  import opened Effects
  import opened Safety
  import opened Ownership
  import Creation

  /** The phases the operator can publish. */
  const PUBLISHED: set<string> := {"Stopped", "Creating", "Running", "CrashLoopBackOff", "Failed", "Unknown"}

  /** A phase an agent named `n` may carry: "Running" only once it was seen. */
  predicate Truthful(phase: Option<string>, n: string, saw: set<string>) {
    phase.Some? ==> phase.value in PUBLISHED && (phase.value == "Running" ==> n in saw)
  }

  ghost predicate AgentsTruthful(agents: map<string, Stored>, saw: set<string>) {
    forall n | n in agents ::
      DecodeStatus(agents[n].status).Some? && Truthful(DecodeStatus(agents[n].status).value.phase, n, saw)
  }

  function Carried(pc: Pc): Option<AgentStatus> {
    match pc
    case StatusService(status) => Some(status)
    case StatusPatch(status) => Some(status)
    case _ => None
  }

  ghost predicate RecsTruthful(recs: map<nat, Rec>, saw: set<string>) {
    forall id | id in recs && Carried(recs[id].pc).Some? ::
      Truthful(Carried(recs[id].pc).value.phase, recs[id].agent.name, saw)
  }

  predicate HasReady(events: seq<Event>) {
    exists e | e in events :: e.ReadyEvent?
  }

  predicate AwaitsRunning(call: Call) {
    call.Create? || call.StartCall? || call.RestartCall?
  }

  /** The events of a handler that waits for an agent to run fit its state. */
  predicate WellShaped(h: Handler, saw: set<string>) {
    AwaitsRunning(h.call) ==>
      match h.pc
      case Polling => !HasError(h.events) && !HasReady(h.events)
      case Ended(_) => false
      case Closed(why) => (why == Reached && h.name in saw) || HasError(h.events)
      case _ => h.events == []
  }

  ghost predicate HandlersTruthful(handlers: map<nat, Handler>, saw: set<string>) {
    forall id | id in handlers :: WellShaped(handlers[id], saw)
  }

  /** Only names that some agent has had were ever seen. */
  ghost predicate SeenWereNamed(saw: set<string>, origin: map<nat, Agent>) {
    forall n | n in saw :: exists u | u in origin :: origin[u].name == n
  }

  ghost predicate AllTruthful(s: State) {
    && AgentsTruthful(s.store.agents, s.sawRunning)
    && RecsTruthful(s.recs, s.sawRunning)
    && HandlersTruthful(s.handlers, s.sawRunning)
    && SeenWereNamed(s.sawRunning, s.origin)
  }

  // ---------------------------------------------------------------------
  // Steps
  // ---------------------------------------------------------------------

  lemma SawGrows(s: State, m: Move)
    ensures s.sawRunning <= SawAfter(s, m)
  {
  }

  lemma AgentsTruthfulStep(cfg: Config, s: State, m: Move)
    requires AgentsTruthful(s.store.agents, s.sawRunning) && RecsTruthful(s.recs, s.sawRunning)
    ensures AgentsTruthful(AgentsAfter(s, m), SawAfter(s, m))
  {
    SawGrows(s, m);
    if Publishes(s, m) && s.recs[m.id].agent.name in s.store.agents {
      var rec := s.recs[m.id];
      Crd.StatusPatch(s.store.agents[rec.agent.name].status, rec.pc.status);
      assert Carried(rec.pc) == Some(rec.pc.status);
    }
  }

  lemma ReportedPhaseIsPublished(pod: Pod)
    requires PodPhase(pod).Some? ==> PodPhase(pod).value in POD_PHASES
    ensures ReportedPhase(pod) in PUBLISHED
    ensures ReportedPhase(pod) == "Running" ==> PodPhase(pod) == Some("Running") && !CrashLooping(pod)
  {
  }

  /** What the program carries after a step it was carrying before, or derived
      from the pod it has just read. */
  lemma CarriedStatus(cfg: Config, rec: Rec, st: Store, reply: Reply)
    requires !Halted(rec)
    ensures
      var after := Carried(NextPc(rec, Perform(cfg, st, NextOp(cfg, rec), reply).1));
      after.Some? ==>
        || after.value.phase == Some("Stopped")
        || (Carried(rec.pc).Some? && after.value.phase == Carried(rec.pc).value.phase)
        || (rec.pc.StatusPod? && reply.Delivered?
            && after.value == StatusOfPod(Lookup(st.pods, PodName(rec.agent.name))))
  {
  }

  lemma TickTruthful(cfg: Config, s: State, m: Move)
    requires RecTicks(s, m) && RecsTruthful(s.recs, s.sawRunning) && PodsBuilt(cfg, s.origin, s.store.pods)
    ensures
      var rec := s.recs[m.id];
      var after := Carried(NextPc(rec, Perform(cfg, s.store, NextOp(cfg, rec), m.reply).1));
      after.Some? ==> Truthful(after.value.phase, rec.agent.name, SawAfter(s, m))
  {
    var rec := s.recs[m.id];
    CarriedStatus(cfg, rec, s.store, m.reply);
    if rec.pc.StatusPod? && PodName(rec.agent.name) in s.store.pods {
      ReportedPhaseIsPublished(s.store.pods[PodName(rec.agent.name)]);
    }
  }

  lemma RecsTruthfulStep(cfg: Config, s: State, m: Move)
    requires RecsTruthful(s.recs, s.sawRunning) && PodsBuilt(cfg, s.origin, s.store.pods)
    ensures RecsTruthful(RecsAfter(cfg, s, m), SawAfter(s, m))
  {
    SawGrows(s, m);
    if RecTicks(s, m) {
      TickTruthful(cfg, s, m);
    }
  }

  lemma UnknownIsNotRunning()
    ensures ToLower("Unknown") != "running"
  {
    assert ToLower("Unknown")[0] == 'u';
  }

  /** "running" is what a user sees for no published phase but "Running". */
  lemma RunningMeansRunning(stored: Stored, n: string, saw: set<string>)
    requires DecodeStatus(stored.status).Some? && Truthful(DecodeStatus(stored.status).value.phase, n, saw)
    requires StatusOf(stored) == "running"
    ensures n in saw
  {
    UnknownIsNotRunning();
  }

  lemma EmitKeeps(events: seq<Event>, e: Event)
    ensures HasError(events + [e]) <==> HasError(events) || e.ErrorEvent?
    ensures HasReady(events + [e]) <==> HasReady(events) || e.ReadyEvent?
  {
    assert e in events + [e];
    assert forall x :: x in events + [e] <==> x in events || x == e;
  }

  lemma PolledShape(h: Handler, resp: Resp, saw: set<string>)
    requires h.pc.Polling? && WellShaped(h, saw) && AwaitsRunning(h.call)
    requires
      Found(resp) ==>
        && DecodeStatus(resp.agent.value.status).Some?
        && Truthful(DecodeStatus(resp.agent.value.status).value.phase, h.name, saw)
    ensures WellShaped(Finish(Polled(h, resp)), saw)
  {
    EmitKeeps(h.events, ErrorEvent(PollFailed));
    EmitKeeps(h.events + [ErrorEvent(PollFailed)], ReadyEvent(h.name));
    if Found(resp) {
      EmitKeeps(h.events, StatusEvent(StatusOf(resp.agent.value)));
      if StatusOf(resp.agent.value) == Target(h.call) {
        RunningMeansRunning(resp.agent.value, h.name, saw);
      }
    }
  }

  lemma ExpiredShape(h: Handler, saw: set<string>)
    requires h.pc.Polling? && WellShaped(h, saw) && AwaitsRunning(h.call)
    ensures WellShaped(Finish(Expire(h)), saw)
  {
    EmitKeeps(h.events, ErrorEvent(StatusTimeout));
    EmitKeeps(h.events + [ErrorEvent(StatusTimeout)], ReadyEvent(h.name));
  }

  lemma OpenedShape(h: Handler, resp: Resp, saw: set<string>)
    requires (h.pc.Check? || h.pc.Act?) && WellShaped(h, saw) && AwaitsRunning(h.call)
    ensures WellShaped(HandlerNext(h, resp), saw)
  {
    EmitKeeps([], CreatedEvent(h.name));
  }

  lemma WellShapedGrows(h: Handler, saw: set<string>, more: set<string>)
    requires WellShaped(h, saw) && saw <= more
    ensures WellShaped(h, more)
  {
  }

  lemma AnsweredTruthfully(cfg: Config, s: State, h: Handler, reply: Reply)
    requires AgentsTruthful(s.store.agents, s.sawRunning) && h.pc.Polling?
    ensures
      var resp := Perform(cfg, s.store, HandlerOp(h), reply).1;
      Found(resp) ==>
        && DecodeStatus(resp.agent.value.status).Some?
        && Truthful(DecodeStatus(resp.agent.value.status).value.phase, h.name, s.sawRunning)
  {
  }

  lemma HandlerTickShape(cfg: Config, s: State, m: Move)
    requires HandlerTicks(s, m) && AgentsTruthful(s.store.agents, s.sawRunning)
    requires WellShaped(s.handlers[m.id], s.sawRunning)
    ensures
      var h := s.handlers[m.id];
      WellShaped(HandlerNext(h, Perform(cfg, s.store, HandlerOp(h), m.reply).1), s.sawRunning)
  {
    var h := s.handlers[m.id];
    if AwaitsRunning(h.call) {
      var resp := Perform(cfg, s.store, HandlerOp(h), m.reply).1;
      if h.pc.Polling? {
        AnsweredTruthfully(cfg, s, h, m.reply);
        PolledShape(h, resp, s.sawRunning);
      } else {
        OpenedShape(h, resp, s.sawRunning);
      }
    }
  }

  lemma HandlersTruthfulStep(cfg: Config, s: State, m: Move)
    requires HandlersTruthful(s.handlers, s.sawRunning) && AgentsTruthful(s.store.agents, s.sawRunning)
    ensures HandlersTruthful(HandlersAfter(cfg, s, m), SawAfter(s, m))
  {
    var handlers := HandlersAfter(cfg, s, m);
    forall id | id in handlers
      ensures WellShaped(handlers[id], SawAfter(s, m))
    {
      if HandlerTicks(s, m) && id == m.id {
        HandlerTickShape(cfg, s, m);
      } else if m.HandlerTimeout? && id == m.id && s.handlers[id].pc.Polling? && AwaitsRunning(s.handlers[id].call) {
        ExpiredShape(s.handlers[id], s.sawRunning);
      }
      SawGrows(s, m);
      WellShapedGrows(handlers[id], s.sawRunning, SawAfter(s, m));
    }
  }

  lemma SeenWereNamedStep(cfg: Config, s: State, m: Move)
    requires Recorded(s) && SeenWereNamed(s.sawRunning, s.origin)
    ensures SeenWereNamed(SawAfter(s, m), OriginAfter(cfg, s, m))
  {
    OriginStep(cfg, s, m);
    forall n | n in SawAfter(s, m)
      ensures exists u | u in OriginAfter(cfg, s, m) :: OriginAfter(cfg, s, m)[u].name == n
    {
      if n in s.sawRunning {
        var u :| u in s.origin && s.origin[u].name == n;
        assert u in OriginAfter(cfg, s, m);
      } else {
        SnapshotBuilds(cfg, s, m.id);
        assert s.recs[m.id].agent.uid in OriginAfter(cfg, s, m);
      }
    }
  }

  lemma TruthfulStep(cfg: Config, s: State, m: Move)
    requires Safe(cfg, s) && AllTruthful(s)
    ensures AllTruthful(Apply(cfg, s, m))
  {
    AgentMoves(cfg, s, m);
    AgentsTruthfulStep(cfg, s, m);
    RecsTruthfulStep(cfg, s, m);
    HandlersTruthfulStep(cfg, s, m);
    SeenWereNamedStep(cfg, s, m);
  }

  lemma {:induction false} TruthfulRun(cfg: Config, s: State, ms: seq<Move>)
    requires Safe(cfg, s) && AllTruthful(s)
    ensures AllTruthful(Run(cfg, s, ms))
  {
    if ms != [] {
      SafeRun(cfg, s, ms[..|ms| - 1]);
      TruthfulRun(cfg, s, ms[..|ms| - 1]);
      TruthfulStep(cfg, Run(cfg, s, ms[..|ms| - 1]), ms[|ms| - 1]);
    }
  }

  // ---------------------------------------------------------------------
  // The theorem
  // ---------------------------------------------------------------------

  /** `ready` with no error before it. */
  predicate CleanReady(h: Handler) {
    HasReady(h.events) && !HasError(h.events)
  }

  /** If a name was seen running during a run, some move of the run saw it. */
  lemma {:induction false} SeenAtSomePoint(cfg: Config, s: State, ms: seq<Move>, n: string) returns (i: nat)
    requires n !in s.sawRunning && n in Run(cfg, s, ms).sawRunning
    ensures i < |ms| && ReadsRunning(Run(cfg, s, ms[..i]), ms[i], n)
  {
    var before := ms[..|ms| - 1];
    if n in Run(cfg, s, before).sawRunning {
      i := SeenAtSomePoint(cfg, s, before, n);
      assert before[..i] == ms[..i];
    } else {
      i := |ms| - 1;
    }
  }

  /** The operator's read of `n`'s pod: running, not crash-looping, and the pod
      belongs to an agent of that name created after `s0`. */
  predicate SawOwnPodRun(s0: State, s: State, m: Move, n: string) {
    && ReadsRunning(s, m, n)
    && var meta := s.store.pods[PodName(n)].meta;
       Owned(s.origin, meta) && Owner(s.origin, meta).name == n && meta.owners[0].uid !in s0.origin
  }

  lemma ReadIsOwned(cfg: Config, s0: State, ms: seq<Move>, m: Move, n: string)
    requires Safe(cfg, s0) && ReadsRunning(Run(cfg, s0, ms), m, n)
    requires forall u | u in s0.origin :: s0.origin[u].name != n
    ensures SawOwnPodRun(s0, Run(cfg, s0, ms), m, n)
  {
    SafeRun(cfg, s0, ms);
    var s := Run(cfg, s0, ms);
    NamesInjective(Owner(s.origin, s.store.pods[PodName(n)].meta).name, n);
  }

  lemma SeenSinceThen(cfg: Config, s0: State, ms: seq<Move>, id: nat)
    requires Safe(cfg, s0) && AllTruthful(s0)
    requires
      var handlers := Run(cfg, s0, ms).handlers;
      && id in handlers && handlers[id].call.Create? && CleanReady(handlers[id])
      && forall u | u in s0.origin :: s0.origin[u].name != handlers[id].name
    ensures
      var n := Run(cfg, s0, ms).handlers[id].name;
      n !in s0.sawRunning && n in Run(cfg, s0, ms).sawRunning
  {
    TruthfulRun(cfg, s0, ms);
    assert WellShaped(Run(cfg, s0, ms).handlers[id], Run(cfg, s0, ms).sawRunning);
  }

  lemma ReachableIsTruthful(cfg: Config, ms: seq<Move>)
    ensures Safe(cfg, Run(cfg, INIT, ms)) && AllTruthful(Run(cfg, INIT, ms))
  {
    InitIsSafe(cfg);
    SafeRun(cfg, INIT, ms);
    TruthfulRun(cfg, INIT, ms);
  }

  /** Take any safe and truthful state (as `ReachableIsTruthful` says every
      reachable one is), a name no agent has had up to then, and any run from
      there after which a creation under that name has reported `ready` without an
      error. At some move of that run the operator read the pod of that name,
      owned by an agent created in the run, in phase Running with no container in
      a crash loop. */
  lemma CleanReadyIsTruthful(cfg: Config, s0: State, ms: seq<Move>, id: nat)
    requires Safe(cfg, s0) && AllTruthful(s0)
    requires
      var handlers := Run(cfg, s0, ms).handlers;
      && id in handlers && handlers[id].call.Create? && CleanReady(handlers[id])
      && forall u | u in s0.origin :: s0.origin[u].name != handlers[id].name
    ensures
      exists i: nat :: i < |ms| && SawOwnPodRun(s0, Run(cfg, s0, ms[..i]), ms[i], Run(cfg, s0, ms).handlers[id].name)
  {
    var n := Run(cfg, s0, ms).handlers[id].name;
    SeenSinceThen(cfg, s0, ms, id);
    var i := SeenAtSomePoint(cfg, s0, ms, n);
    ReadIsOwned(cfg, s0, ms[..i], ms[i], n);
    assert SawOwnPodRun(s0, Run(cfg, s0, ms[..i]), ms[i], n);
  }

  /** The operator's read of the pod of this very agent: running and not
      crash-looping. */
  predicate SawRunning(s: State, m: Move, a: Agent) {
    ReadsRunning(s, m, a.name) && OwnedBy(s.store.pods[PodName(a.name)].meta, a)
  }

  lemma OnlyHolder(cfg: Config, s0: State, s: State, m: Move, later: map<nat, Agent>, a: Agent)
    requires SawOwnPodRun(s0, s, m, a.name) && Grows(s.origin, later)
    requires a.uid in later && later[a.uid] == a
    requires forall u | u in later && later[u].name == a.name :: u == a.uid
    ensures SawRunning(s, m, a)
  {
  }

  /** If moreover the name is handed out only once in that run, the pod read was
      that of the agent this creation made: its uid and its spec. */
  lemma CleanReadyIsAboutThisAgent(cfg: Config, s0: State, ms: seq<Move>, id: nat)
    requires Safe(cfg, s0) && AllTruthful(s0) && Creation.Winners(s0.handlers, s0.origin)
    requires
      var s := Run(cfg, s0, ms);
      && id in s.handlers && s.handlers[id].call.Create? && CleanReady(s.handlers[id])
      && (forall u | u in s0.origin :: s0.origin[u].name != s.handlers[id].name)
      && (forall u, v | u in s.origin && v in s.origin && s.origin[u].name == s.handlers[id].name == s.origin[v].name ::
            u == v)
    ensures
      var h := Run(cfg, s0, ms).handlers[id];
      && h.won.Some?
      && exists i: nat :: i < |ms| && SawRunning(Run(cfg, s0, ms[..i]), ms[i], Agent(h.name, h.won.value, h.call.spec))
  {
    hide Apply, AllTruthful, Safe, ReadsRunning, CleanReady, SawRunning;
    var h := Run(cfg, s0, ms).handlers[id];
    CleanReadyIsTruthful(cfg, s0, ms, id);
    Creation.WinnersRun(cfg, s0, ms);
    assert Creation.StreamsIffWon(h) && Creation.WonFairly(h, Run(cfg, s0, ms).origin);
    var i: nat :| i < |ms| && SawOwnPodRun(s0, Run(cfg, s0, ms[..i]), ms[i], h.name);
    assert ms[..i] + ms[i..] == ms;
    RunConcat(cfg, s0, ms[..i], ms[i..]);
    SafeRun(cfg, s0, ms[..i]);
    SafeRun(cfg, Run(cfg, s0, ms[..i]), ms[i..]);
    ReadyHasWon(h);
    assert SawOwnPodRun(s0, Run(cfg, s0, ms[..i]), ms[i], h.name);
    var a := Agent(h.name, h.won.value, h.call.spec);
    OnlyHolder(cfg, s0, Run(cfg, s0, ms[..i]), ms[i], Run(cfg, s0, ms).origin, a);
  }

  lemma ReadyHasWon(h: Handler)
    requires h.call.Create? && CleanReady(h) && Creation.StreamsIffWon(h)
    ensures h.won.Some?
  {
  }
}
