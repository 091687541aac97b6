/** When a clean `ready` can be trusted: exactly which states lead to none that
    misleads, for a name that is free at the time. */
module Honesty {
  import opened Wrappers
  import opened Crd
  import opened Resources
  import opened ApiServer
  import opened Reconciler
  import opened Sse
  import opened System
  import opened Effects
  import opened Safety
  import opened Readiness
  import opened Reuse
  import Creation
  import Json

  // ---------------------------------------------------------------------
  // A read of a running pod since then
  // ---------------------------------------------------------------------

  /** A reconcile under way still carries that the pod of a former holder runs. */
  ghost predicate Pending(s: State, n: string) {
    exists id | id in s.recs && s.recs[id].agent.name == n && Carried(s.recs[id].pc).Some? ::
      Carried(s.recs[id].pc).value.phase == Some("Running")
  }

  /** A creation of `n` opened since `s0` that reports `ready` without an error. */
  predicate NewCleanReady(s0: State, s: State, id: nat, n: string) {
    Creation.NewCreator(s0, s, id, n) && CleanReady(s.handlers[id])
  }

  /** Whatever happens from here: behind every such creation there is a read, since
      then, of a running pod of that name. */
  ghost predicate Honest(cfg: Config, s0: State, n: string) {
    forall ms, id | NewCleanReady(s0, Run(cfg, s0, ms), id, n) ::
      exists i: nat :: i < |ms| && ReadsRunning(Run(cfg, s0, ms[..i]), ms[i], n)
  }

  /** Nothing under the name says that the pod runs: not the stored status, no
      reconcile, no creation opened since `was`. */
  ghost predicate Silent(was: map<nat, Handler>, s: State, n: string) {
    AgentSilent(s.store.agents, n) && RecsSilent(s.recs, n) && CreationsSilent(was, s.handlers, n)
  }

  predicate AgentSilent(agents: map<string, Stored>, n: string) {
    n in agents ==>
      && DecodeStatus(agents[n].status).Some?
      && Truthful(DecodeStatus(agents[n].status).value.phase, n, {})
  }

  ghost predicate RecsSilent(recs: map<nat, Rec>, n: string) {
    forall id | id in recs && recs[id].agent.name == n && Carried(recs[id].pc).Some? ::
      Truthful(Carried(recs[id].pc).value.phase, n, {})
  }

  ghost predicate CreationsSilent(was: map<nat, Handler>, handlers: map<nat, Handler>, n: string) {
    forall id | id in handlers && id !in was && handlers[id].name == n :: WellShaped(handlers[id], {})
  }

  lemma AgentSilentStep(cfg: Config, s: State, m: Move, n: string)
    requires AgentSilent(s.store.agents, n) && RecsSilent(s.recs, n)
    ensures AgentSilent(AgentsAfter(s, m), n)
  {
    hide DecodeStatus, EncodeStatus, Json.MergePatch;
    NullIsReadable();
    NullHasNoPhase();
    if Publishes(s, m) && s.recs[m.id].agent.name == n && n in s.store.agents {
      Crd.StatusPatch(s.store.agents[n].status, s.recs[m.id].pc.status);
      assert Carried(s.recs[m.id].pc) == Some(s.recs[m.id].pc.status);
    }
  }

  lemma NullHasNoPhase()
    ensures DecodeStatus(Json.Null).Some? && DecodeStatus(Json.Null).value.phase == None
  {
  }

  lemma RecsSilentStep(cfg: Config, s: State, m: Move, n: string)
    requires RecsSilent(s.recs, n) && PodsBuilt(cfg, s.origin, s.store.pods) && !ReadsRunning(s, m, n)
    ensures RecsSilent(RecsAfter(cfg, s, m), n)
  {
    hide PodsBuilt;
    if RecTicks(s, m) && s.recs[m.id].agent.name == n {
      SilentTick(cfg, s, m, n);
    }
  }

  lemma SilentTick(cfg: Config, s: State, m: Move, n: string)
    requires RecTicks(s, m) && s.recs[m.id].agent.name == n
    requires RecsSilent(s.recs, n) && PodsBuilt(cfg, s.origin, s.store.pods) && !ReadsRunning(s, m, n)
    ensures
      var after := Carried(NextPc(s.recs[m.id], Perform(cfg, s.store, NextOp(cfg, s.recs[m.id]), m.reply).1));
      after.Some? ==> Truthful(after.value.phase, n, {})
  {
    hide NextPc, NextOp, Perform;
    CarriedStatus(cfg, s.recs[m.id], s.store, m.reply);
    if s.recs[m.id].pc.StatusPod? && PodName(n) in s.store.pods {
      ReportedPhaseIsPublished(s.store.pods[PodName(n)]);
    }
  }

  /** One answer to a creation when nothing says that the pod runs. */
  lemma SilentAnswer(cfg: Config, s: State, h: Handler, reply: Reply)
    requires AgentSilent(s.store.agents, h.name) && Asking(h) && WellShaped(h, {})
    ensures WellShaped(HandlerNext(h, Perform(cfg, s.store, HandlerOp(h), reply).1), {})
  {
    hide DecodeStatus, Polled, Checked, Acted, Finish;
    var resp := Perform(cfg, s.store, HandlerOp(h), reply).1;
    NextKeepsCall(h, resp);
    if AwaitsRunning(h.call) {
      if h.pc.Polling? {
        PolledShape(h, resp, {});
      } else {
        OpenedShape(h, resp, {});
      }
    }
  }

  lemma NextKeepsCall(h: Handler, resp: Resp)
    requires Asking(h)
    ensures HandlerNext(h, resp).call == h.call && HandlerNext(h, resp).name == h.name
  {
  }

  lemma CreationsSilentStep(cfg: Config, was: map<nat, Handler>, s: State, m: Move, n: string)
    requires AgentSilent(s.store.agents, n) && CreationsSilent(was, s.handlers, n)
    ensures CreationsSilent(was, HandlersAfter(cfg, s, m), n)
  {
    var handlers := HandlersAfter(cfg, s, m);
    forall id | id in handlers && id !in was && handlers[id].name == n
      ensures WellShaped(handlers[id], {})
    {
      if HandlerTicks(s, m) && id == m.id {
        TickKeepsName(cfg, s, m);
        SilentAnswer(cfg, s, s.handlers[id], m.reply);
      } else if m.HandlerTimeout? && id == m.id && s.handlers[id].pc.Polling? && AwaitsRunning(s.handlers[id].call) {
        ExpiredShape(s.handlers[id], {});
      }
    }
  }

  lemma TickKeepsName(cfg: Config, s: State, m: Move)
    requires HandlerTicks(s, m)
    ensures HandlersAfter(cfg, s, m)[m.id].name == s.handlers[m.id].name
  {
  }

  lemma SilentStep(cfg: Config, was: map<nat, Handler>, s: State, m: Move, n: string)
    requires Safe(cfg, s) && Silent(was, s, n) && !ReadsRunning(s, m, n)
    ensures Silent(was, Apply(cfg, s, m), n)
  {
    hide AgentSilent, RecsSilent, CreationsSilent, ReadsRunning, StoreAfter, HandlersAfter, RecsAfter;
    AgentMoves(cfg, s, m);
    AgentSilentStep(cfg, s, m, n);
    RecsSilentStep(cfg, s, m, n);
    CreationsSilentStep(cfg, was, s, m, n);
  }

  lemma {:induction false} SilentRun(cfg: Config, s0: State, ms: seq<Move>, n: string)
    requires Safe(cfg, s0) && Silent(s0.handlers, s0, n)
    requires forall i | 0 <= i < |ms| :: !ReadsRunning(Run(cfg, s0, ms[..i]), ms[i], n)
    ensures Silent(s0.handlers, Run(cfg, s0, ms), n)
  {
    hide Apply, Silent, Safe, ReadsRunning;
    if ms != [] {
      var before := ms[..|ms| - 1];
      forall i | 0 <= i < |before|
        ensures !ReadsRunning(Run(cfg, s0, before[..i]), before[i], n)
      {
        assert before[..i] == ms[..i];
      }
      SafeRun(cfg, s0, before);
      SilentRun(cfg, s0, before, n);
      SilentStep(cfg, s0.handlers, Run(cfg, s0, before), ms[|ms| - 1], n);
    }
  }

  lemma StartsSilent(s0: State, n: string)
    requires AllTruthful(s0) && n !in s0.store.agents && !Pending(s0, n)
    ensures Silent(s0.handlers, s0, n)
  {
  }

  lemma SilentIsNotReady(h: Handler)
    requires h.call.Create? && WellShaped(h, {})
    ensures !CleanReady(h)
  {
  }

  lemma NoReadNoReady(cfg: Config, s0: State, ms: seq<Move>, id: nat, n: string)
    requires Safe(cfg, s0) && AllTruthful(s0) && n !in s0.store.agents && !Pending(s0, n)
    requires forall i | 0 <= i < |ms| :: !ReadsRunning(Run(cfg, s0, ms[..i]), ms[i], n)
    ensures !NewCleanReady(s0, Run(cfg, s0, ms), id, n)
  {
    hide Run, Safe, AllTruthful, Pending, ReadsRunning, AgentSilent, RecsSilent, WellShaped, CleanReady;
    StartsSilent(s0, n);
    SilentRun(cfg, s0, ms, n);
    var s := Run(cfg, s0, ms);
    if Creation.NewCreator(s0, s, id, n) {
      SilentIsNotReady(s.handlers[id]);
    }
  }

  /** Nothing pending is enough. */
  lemma HonestIfNothingPends(cfg: Config, s0: State, ms: seq<Move>, id: nat, n: string)
    requires Safe(cfg, s0) && AllTruthful(s0) && n !in s0.store.agents && !Pending(s0, n)
    requires NewCleanReady(s0, Run(cfg, s0, ms), id, n)
    ensures exists i: nat :: i < |ms| && ReadsRunning(Run(cfg, s0, ms[..i]), ms[i], n)
  {
    hide Run, Safe, AllTruthful, Pending, ReadsRunning, NewCleanReady;
    if forall i | 0 <= i < |ms| :: !ReadsRunning(Run(cfg, s0, ms[..i]), ms[i], n) {
      NoReadNoReady(cfg, s0, ms, id, n);
    }
  }

  const SOME_SPEC := AgentSpec("", Running, "", "", "", "", "", [], false, [], [], None, None, None)

  /** The request that is left before a pending status is published. */
  lemma PendingLeadsToLeftover(cfg: Config, s0: State, n: string) returns (ms: seq<Move>, id: nat)
    requires n !in s0.store.agents && Pending(s0, n)
    ensures Leftover(Run(cfg, s0, ms), id, n) && Run(cfg, s0, ms).handlers == s0.handlers
    ensures forall i | 0 <= i < |ms| :: !ReadsRunning(Run(cfg, s0, ms[..i]), ms[i], n)
  {
    hide Apply;
    id :| id in s0.recs && s0.recs[id].agent.name == n && Carried(s0.recs[id].pc).Some?
          && Carried(s0.recs[id].pc).value.phase == Some("Running");
    ms := [];
    if s0.recs[id].pc.StatusService? {
      var a, pc := s0.recs[id].agent, s0.recs[id].pc;
      ms := [RecTick(id, Delivered)];
      RunNext(cfg, s0, ms, 0);
      assert ms[..0] == [] && ms[..1] == ms;
      TickAt(cfg, s0, id, a, pc);
      PortsKeepThePhase(cfg, a, s0.store, pc.status);
    }
  }

  /** And necessary: what is pending can be published onto the next holder. */
  lemma PendingMisleads(cfg: Config, s0: State, n: string)
    requires n !in s0.store.agents && Pending(s0, n)
    ensures !Honest(cfg, s0, n)
  {
    hide Apply, Pending, Leftover, ReadsRunning;
    var before, rid := PendingLeadsToLeftover(cfg, s0, n);
    var caller := FreshId(s0.handlers.Keys);
    var mid, since := Run(cfg, s0, before), MisleadingMoves(rid, caller, n, SOME_SPEC);
    LeftoverMisleads(cfg, mid, rid, caller, n, SOME_SPEC);
    RunConcat(cfg, s0, before, since);
    var ms := before + since;
    forall i: nat | i < |ms|
      ensures !ReadsRunning(Run(cfg, s0, ms[..i]), ms[i], n)
    {
      Spliced(cfg, s0, before, since, i);
    }
    assert NewCleanReady(s0, Run(cfg, s0, ms), caller, n);
  }

  /** Where a move of a concatenation happens. */
  lemma Spliced(cfg: Config, s: State, before: seq<Move>, since: seq<Move>, i: nat)
    requires i < |before + since|
    ensures
      var ms := before + since;
      if i < |before| then ms[i] == before[i] && Run(cfg, s, ms[..i]) == Run(cfg, s, before[..i])
      else
        ms[i] == since[i - |before|]
        && Run(cfg, s, ms[..i]) == Run(cfg, Run(cfg, s, before), since[..i - |before|])
  {
    hide Apply;
    if i < |before| {
      assert (before + since)[..i] == before[..i];
    } else {
      assert (before + since)[..i] == before + since[..i - |before|];
      RunConcat(cfg, s, before, since[..i - |before|]);
    }
  }

  /** For a free name, used before or not: clean `ready`s go back to a read since then,
      whatever happens, exactly if no reconcile under way still carries that the pod
      of a former holder runs. */
  lemma HonestIff(cfg: Config, s0: State, n: string)
    requires Safe(cfg, s0) && AllTruthful(s0) && n !in s0.store.agents
    ensures Honest(cfg, s0, n) <==> !Pending(s0, n)
  {
    hide Apply, Safe, AllTruthful, Pending, NewCleanReady, ReadsRunning, Run;
    if Pending(s0, n) {
      PendingMisleads(cfg, s0, n);
    } else {
      forall ms, id | NewCleanReady(s0, Run(cfg, s0, ms), id, n)
        ensures exists i: nat :: i < |ms| && ReadsRunning(Run(cfg, s0, ms[..i]), ms[i], n)
      {
        HonestIfNothingPends(cfg, s0, ms, id, n);
      }
    }
  }

  // ---------------------------------------------------------------------
  // A read of the new agent's own pod
  // ---------------------------------------------------------------------

  ghost predicate AtMostOneSince(was: map<nat, Agent>, origin: map<nat, Agent>, n: string) {
    forall u, v | u in origin && v in origin && u !in was && v !in was && origin[u].name == n == origin[v].name ::
      u == v
  }

  /** Whatever happens from here, as long as the name is handed out only once: behind
      every such creation there is a read of the running pod of its own agent. */
  ghost predicate OwnHonest(cfg: Config, s0: State, n: string) {
    forall ms, id |
      && NewCleanReady(s0, Run(cfg, s0, ms), id, n)
      && AtMostOneSince(s0.origin, Run(cfg, s0, ms).origin, n) ::
      ReadItsOwnPod(cfg, s0, ms, Run(cfg, s0, ms).handlers[id])
  }

  ghost predicate ReadItsOwnPod(cfg: Config, s0: State, ms: seq<Move>, h: Handler) {
    && h.won.Some?
    && var a := Agent(h.name, h.won.value, GetSpec(h.call));
       exists i: nat :: i < |ms| && SawRunning(Run(cfg, s0, ms[..i]), ms[i], a)
  }

  function GetSpec(call: Call): AgentSpec {
    if call.Create? then call.spec else SOME_SPEC
  }

  ghost predicate EverUsed(s: State, n: string) {
    exists u | u in s.origin :: s.origin[u].name == n
  }

  /** Some version of a former holder was to run. The API creates no other agents. */
  ghost predicate EverRan(s: State, n: string) {
    exists a | a in s.versions :: a.name == n && a.spec.state.Running?
  }

  /** Every agent was created to run, and is remembered as it was created. */
  ghost predicate CreatedToRun(s: State) {
    && (forall u | u in s.origin :: s.origin[u].spec.state.Running? && s.origin[u] in s.versions)
    && (forall id | id in s.handlers && s.handlers[id].call.Create? :: s.handlers[id].call.spec.state.Running?)
  }

  predicate AsksToRun(m: Move) {
    m.Request? && m.call.Create? ==> m.call.spec.state.Running?
  }

  lemma CreatedToRunStep(cfg: Config, s: State, m: Move)
    requires CreatedToRun(s) && AsksToRun(m)
    ensures CreatedToRun(Apply(cfg, s, m))
  {
    hide StoreAfter, RecsAfter, ClaimMade;
    HistoryMoves(cfg, s, m);
    if HandlerTicks(s, m) {
      NextKeepsCall(s.handlers[m.id], Perform(cfg, s.store, HandlerOp(s.handlers[m.id]), m.reply).1);
    }
  }

  /** So in every run of requests as the API makes them. */
  lemma {:induction false} ApiCreatesToRun(cfg: Config, ms: seq<Move>, n: string)
    requires forall i | 0 <= i < |ms| :: AsksToRun(ms[i])
    ensures CreatedToRun(Run(cfg, INIT, ms))
    ensures EverUsed(Run(cfg, INIT, ms), n) ==> EverRan(Run(cfg, INIT, ms), n)
  {
    hide Apply;
    if ms != [] {
      ApiCreatesToRun(cfg, ms[..|ms| - 1], n);
      CreatedToRunStep(cfg, Run(cfg, INIT, ms[..|ms| - 1]), ms[|ms| - 1]);
    }
  }

  lemma UnusedIsOwnHonest(cfg: Config, s0: State, n: string, ms: seq<Move>, id: nat)
    requires Safe(cfg, s0) && AllTruthful(s0) && Creation.Winners(s0.handlers, s0.origin) && !EverUsed(s0, n)
    requires NewCleanReady(s0, Run(cfg, s0, ms), id, n)
    requires AtMostOneSince(s0.origin, Run(cfg, s0, ms).origin, n)
    ensures ReadItsOwnPod(cfg, s0, ms, Run(cfg, s0, ms).handlers[id])
  {
    hide Run, Safe, AllTruthful, CleanReady, SawRunning;
    SafeRun(cfg, s0, ms);
    CleanReadyIsAboutThisAgent(cfg, s0, ms, id);
  }

  /** A pod read before a uid is handed out is not that agent's. */
  lemma NotYetIts(cfg: Config, s: State, ms: seq<Move>, i: nat, m: Move, a: Agent)
    requires Safe(cfg, s) && i <= |ms| && a.uid == Run(cfg, s, ms).store.nextUid
    ensures !SawRunning(Run(cfg, s, ms[..i]), m, a)
  {
    hide Apply, Run, ReadsRunning;
    SafeRun(cfg, s, ms[..i]);
    RunConcat(cfg, s, ms[..i], ms[i..]);
    assert ms[..i] + ms[i..] == ms;
    SafeRun(cfg, Run(cfg, s, ms[..i]), ms[i..]);
    SawOwned(cfg, Run(cfg, s, ms[..i]), m, a);
  }

  lemma SawOwned(cfg: Config, s: State, m: Move, a: Agent)
    requires Safe(cfg, s)
    ensures SawRunning(s, m, a) ==> a.uid in s.origin
  {
    hide PodName, BuildPod, Bare, Admit;
  }

  lemma NoDeletionWithoutRequests(s: State, m: Move, n: string)
    requires !m.HandlerTick?
    ensures !Creation.Deletes(s, m, n)
  {
  }

  /** Any version of a former holder that was to run can make a creation mislead. */
  lemma StaleVersionMisleads(cfg: Config, s0: State, n: string)
    requires Safe(cfg, s0) && n !in s0.store.agents && EverRan(s0, n)
    ensures !OwnHonest(cfg, s0, n)
  {
    hide Run, Leftover, ReadsRunning, Safe, Creation.Deletes, CleanReady, SawRunning;
    var a :| a in s0.versions && a.name == n && a.spec.state.Running?;
    var before, rid := StaleVersionLeaves(cfg, s0, a);
    var caller := FreshId(s0.handlers.Keys);
    var mid, since := Run(cfg, s0, before), MisleadingMoves(rid, caller, n, SOME_SPEC);
    LeftoverMisleads(cfg, mid, rid, caller, n, SOME_SPEC);
    RunConcat(cfg, s0, before, since);
    var ms := before + since;
    var own := Agent(n, mid.store.nextUid, SOME_SPEC);
    forall i: nat | i < |ms|
      ensures !SawRunning(Run(cfg, s0, ms[..i]), ms[i], own)
      ensures !Creation.Deletes(Run(cfg, s0, ms[..i]), ms[i], n)
    {
      Spliced(cfg, s0, before, since, i);
      if i < |before| {
        NotYetIts(cfg, s0, before, i, ms[i], own);
        NoDeletionWithoutRequests(Run(cfg, s0, ms[..i]), ms[i], n);
      } else {
        OwnReadIsARead(Run(cfg, s0, ms[..i]), ms[i], own);
      }
    }
    Creation.OneSinceRun(cfg, s0, ms, n);
    assert NewCleanReady(s0, Run(cfg, s0, ms), caller, n);
    assert !ReadItsOwnPod(cfg, s0, ms, Run(cfg, s0, ms).handlers[caller]);
  }

  lemma OwnReadIsARead(s: State, m: Move, a: Agent)
    ensures SawRunning(s, m, a) ==> ReadsRunning(s, m, a.name)
  {
    hide ReadsRunning;
  }

  /** For a free name whose former holders, if any, were ever to run: a clean `ready`
      goes back to a read of the new agent's own pod, whatever happens, exactly if
      the name is new. The operator's cache may hold a former holder for ever. */
  lemma OwnHonestIff(cfg: Config, s0: State, n: string)
    requires Safe(cfg, s0) && AllTruthful(s0) && Creation.Winners(s0.handlers, s0.origin)
    requires n !in s0.store.agents && (EverUsed(s0, n) ==> EverRan(s0, n))
    ensures OwnHonest(cfg, s0, n) <==> !EverUsed(s0, n)
  {
    hide Run, Safe, AllTruthful, NewCleanReady, AtMostOneSince, EverUsed, EverRan, ReadItsOwnPod;
    if EverUsed(s0, n) {
      StaleVersionMisleads(cfg, s0, n);
    } else {
      forall ms, id |
        && NewCleanReady(s0, Run(cfg, s0, ms), id, n)
        && AtMostOneSince(s0.origin, Run(cfg, s0, ms).origin, n)
        ensures NewCleanReady(s0, Run(cfg, s0, ms), id, n)
        ensures id in Run(cfg, s0, ms).handlers && ReadItsOwnPod(cfg, s0, ms, Run(cfg, s0, ms).handlers[id])
      {
        ReadyIsThere(s0, Run(cfg, s0, ms), id, n);
        UnusedIsOwnHonest(cfg, s0, n, ms, id);
      }
    }
  }

  lemma ReadyIsThere(s0: State, s: State, id: nat, n: string)
    requires NewCleanReady(s0, s, id, n)
    ensures id in s.handlers
  {
  }
}
