/** What each call of the API does to the store and how it is answered, case by case,
    whatever everyone else does between its two requests. */
module Calls {
  import opened Wrappers
  import opened Json
  import opened Crd
  import opened Resources
  import opened ApiServer
  import opened Client
  import opened Sse

  // ---------------------------------------------------------------------
  // The two requests of a call
  // ---------------------------------------------------------------------

  /** The store that the next request of `w` meets. */
  function Met(w: World): Store {
    Upcoming(w).world(w.store)
  }

  function AfterTick(w: World, st: Store): World {
    World(st, w.now + Upcoming(w).elapsed, if |w.script| == 0 then [] else w.script[1..])
  }

  /** The call ends before it streams: with this answer, these events and this store. */
  ghost predicate Answers(cfg: Config, call: Call, name: string, w: World, err: Option<AppError>, events: seq<Event>,
                          st: Store) {
    var (h, w') := ServeFrom(cfg, Open(call, name), w);
    && h.events == events && w'.store == st
    && match err
       case Some(e) => h.pc == Rejected(e)
       case None => h.pc.Closed?
  }

  /** The call opens its stream on this store, with these events to begin with. */
  ghost predicate Streams(cfg: Config, call: Call, name: string, w: World, won: Option<nat>, events: seq<Event>,
                          st: Store) {
    exists w2: World ::
      && w2.store == st && w2.now >= w.now
      && ServeFrom(cfg, Open(call, name), w) == StreamRun(cfg, Handler(call, name, Polling, won, events), w2)
      && ServeAnswers(cfg, Open(call, name), w) == StreamAnswers(cfg, Handler(call, name, Polling, won, events), w2)
  }

  /** The check: the answer, or on to the second request with the store unchanged. */
  lemma FirstRequest(cfg: Config, call: Call, name: string, w: World)
    ensures
      var st := Met(w);
      var h := HandlerNext(Open(call, name), Perform(cfg, st, GetAgent(name), Upcoming(w).reply).1);
      if h.pc.Act? then
        && ServeFrom(cfg, Open(call, name), w) == ServeFrom(cfg, h, AfterTick(w, st))
        && ServeAnswers(cfg, Open(call, name), w) == ServeAnswers(cfg, h, AfterTick(w, st))
      else ServeFrom(cfg, Open(call, name), w) == (h, AfterTick(w, st))
  {
    hide Perform, StoreAfterOp;
    var h0 := Open(call, name);
    assert ServeFrom(cfg, h0, w) == ServeOn(cfg, h0, w);
    assert ServeAnswers(cfg, h0, w) == ServeLaterAnswers(cfg, h0, w);
    GetChangesNothing(cfg, Met(w), name, Upcoming(w).reply);
  }

  lemma GetChangesNothing(cfg: Config, st: Store, name: string, reply: Reply)
    ensures Perform(cfg, st, GetAgent(name), reply).0 == st
  {
  }

  lemma SecondRequest(cfg: Config, h: Handler, w: World)
    requires h.pc.Act?
    ensures
      var (st, resp) := Perform(cfg, Met(w), HandlerOp(h), Upcoming(w).reply);
      var h' := HandlerNext(h, resp);
      if h'.pc.Polling? then
        && ServeFrom(cfg, h, w) == StreamRun(cfg, h', AfterTick(w, st))
        && ServeAnswers(cfg, h, w) == StreamAnswers(cfg, h', AfterTick(w, st))
      else ServeFrom(cfg, h, w) == (h', AfterTick(w, st))
  {
    hide Perform, StoreAfterOp, StreamRun, StreamAnswers;
    assert ServeFrom(cfg, h, w) == ServeOn(cfg, h, w);
    assert ServeAnswers(cfg, h, w) == ServeLaterAnswers(cfg, h, w);
  }

  /** A read that the API can answer: served, and if there is such an agent, with a
      status it can decode. */
  predicate Answerable(st: Store, name: string, reply: Reply) {
    reply.Delivered? && (name in st.agents ==> DecodeStatus(st.agents[name].status).Some?)
  }

  /** The world when the second request is made. */
  function Second(w: World): World {
    AfterTick(w, Met(w))
  }

  // ---------------------------------------------------------------------
  // Start and stop
  // ---------------------------------------------------------------------

  function WithState(st: Store, name: string, state: AgentState): Store
    requires name in st.agents
  {
    var stored := st.agents[name];
    var agent := Agent(stored.agent.name, stored.agent.uid, stored.agent.spec.(state := state));
    st.(agents := st.agents[name := Stored(agent, stored.status)])
  }

  /** Starting and stopping: an agent that is there is left with exactly its desired
      state changed, and the call streams; nothing is changed otherwise. */
  ghost predicate SetsState(cfg: Config, call: Call, state: AgentState, name: string, w: World) {
    var st1, st2, reply2 := Met(w), Met(Second(w)), Upcoming(Second(w)).reply;
    if !Answerable(st1, name, Upcoming(w).reply) then Answers(cfg, call, name, w, Some(KubeError), [], st1)
    else if name !in st1.agents then Answers(cfg, call, name, w, Some(NotFound), [], st1)
    else if name !in st2.agents || reply2.Refused? then Answers(cfg, call, name, w, Some(KubeError), [], st2)
    else if reply2.Lost? then Answers(cfg, call, name, w, Some(KubeError), [], WithState(st2, name, state))
    else Streams(cfg, call, name, w, None, [], WithState(st2, name, state))
  }

  lemma SecondSetsState(cfg: Config, call: Call, state: AgentState, name: string, w: World)
    requires (call.StartCall? && state.Running?) || (call.StopCall? && state.Stopped?)
    ensures
      var h := Open(call, name).(pc := Act);
      var st, reply := Met(w), Upcoming(w).reply;
      var (st', resp) := Perform(cfg, st, HandlerOp(h), reply);
      && st' == (if name !in st.agents || reply.Refused? then st else WithState(st, name, state))
      && HandlerNext(h, resp)
         == h.(pc := if name in st.agents && reply.Delivered? then Polling else Rejected(KubeError))
  {
  }

  lemma FirstOfExisting(cfg: Config, call: Call, name: string, st: Store, reply: Reply)
    requires call.StartCall? || call.StopCall? || call.RestartCall?
    ensures
      HandlerNext(Open(call, name), Perform(cfg, st, GetAgent(name), reply).1)
      == Open(call, name).(pc := if !Answerable(st, name, reply) then Rejected(KubeError)
                                 else if name in st.agents then Act
                                 else Rejected(NotFound))
  {
    hide DecodeStatus;
  }

  lemma StartAndStop(cfg: Config, name: string, w: World)
    ensures SetsState(cfg, StartCall, Running, name, w)
    ensures SetsState(cfg, StopCall, Stopped, name, w)
  {
    CallSetsState(cfg, StartCall, Running, name, w);
    CallSetsState(cfg, StopCall, Stopped, name, w);
  }

  lemma CallSetsState(cfg: Config, call: Call, state: AgentState, name: string, w: World)
    requires (call.StartCall? && state.Running?) || (call.StopCall? && state.Stopped?)
    ensures SetsState(cfg, call, state, name, w)
  {
    hide Perform, ServeFrom, ServeAnswers, StreamRun, StreamAnswers, HandlerNext, Answerable, WithState, Upcoming, Met;
    FirstRequest(cfg, call, name, w);
    FirstOfExisting(cfg, call, name, Met(w), Upcoming(w).reply);
    SecondRequest(cfg, Open(call, name).(pc := Act), Second(w));
    SecondSetsState(cfg, call, state, name, Second(w));
  }

  // ---------------------------------------------------------------------
  // Restart
  // ---------------------------------------------------------------------

  function WithPodGoing(st: Store, name: string): Store {
    var k := "agent-" + name;
    if k in st.pods then st.(pods := st.pods[k := st.pods[k].(terminating := true)]) else st
  }

  /** Restarting: if the agent was there, its pod, if any, is on its way out, and the
      call streams, whatever came of the deletion. */
  lemma Restart(cfg: Config, name: string, w: World)
    ensures
      var st1, st2, reply2 := Met(w), Met(Second(w)), Upcoming(Second(w)).reply;
      if !Answerable(st1, name, Upcoming(w).reply) then Answers(cfg, RestartCall, name, w, Some(KubeError), [], st1)
      else if name !in st1.agents then Answers(cfg, RestartCall, name, w, Some(NotFound), [], st1)
      else Streams(cfg, RestartCall, name, w, None, [], if reply2.Refused? then st2 else WithPodGoing(st2, name))
  {
    hide Perform, ServeFrom, ServeAnswers, StreamRun, StreamAnswers, HandlerNext, Answerable, Upcoming, Met;
    hide WithPodGoing;
    FirstRequest(cfg, RestartCall, name, w);
    FirstOfExisting(cfg, RestartCall, name, Met(w), Upcoming(w).reply);
    SecondRequest(cfg, Open(RestartCall, name).(pc := Act), Second(w));
    SecondDeletesPod(cfg, name, Second(w));
  }

  lemma SecondDeletesPod(cfg: Config, name: string, w: World)
    ensures
      var h := Open(RestartCall, name).(pc := Act);
      var st, reply := Met(w), Upcoming(w).reply;
      var (st', resp) := Perform(cfg, st, HandlerOp(h), reply);
      && st' == (if reply.Refused? then st else WithPodGoing(st, name))
      && HandlerNext(h, resp) == h.(pc := Polling)
  {
  }

  // ---------------------------------------------------------------------
  // Creation
  // ---------------------------------------------------------------------

  function WithAgent(st: Store, name: string, spec: AgentSpec): Store {
    st.(agents := st.agents[name := Stored(Agent(name, st.nextUid, spec), Null)], nextUid := st.nextUid + 1)
  }

  /** Creating: a name that is taken at the check is a conflict, one taken since is an
      error; otherwise the agent is stored with a new uid, the spec asked for and no
      status, and its stream begins with `created`. */
  ghost predicate StoresNew(cfg: Config, name: string, spec: AgentSpec, w: World) {
    var st1, st2, reply2 := Met(w), Met(Second(w)), Upcoming(Second(w)).reply;
    if !Answerable(st1, name, Upcoming(w).reply) then Answers(cfg, Create(spec), name, w, Some(KubeError), [], st1)
    else if name in st1.agents then Answers(cfg, Create(spec), name, w, Some(Conflict), [], st1)
    else if name in st2.agents || reply2.Refused? then Answers(cfg, Create(spec), name, w, Some(KubeError), [], st2)
    else if reply2.Lost? then Answers(cfg, Create(spec), name, w, Some(KubeError), [], WithAgent(st2, name, spec))
    else Streams(cfg, Create(spec), name, w, Some(st2.nextUid), [CreatedEvent(name)], WithAgent(st2, name, spec))
  }

  lemma Creation(cfg: Config, name: string, spec: AgentSpec, w: World)
    ensures StoresNew(cfg, name, spec, w)
  {
    hide Perform, ServeFrom, ServeAnswers, StreamRun, StreamAnswers, HandlerNext, Answerable, WithAgent, Upcoming, Met;
    FirstRequest(cfg, Create(spec), name, w);
    FirstOfCreation(cfg, name, spec, Met(w), Upcoming(w).reply);
    SecondRequest(cfg, Open(Create(spec), name).(pc := Act), Second(w));
    SecondCreates(cfg, name, spec, Second(w));
  }

  /** A creation that is not rejected has stored exactly the agent asked for, under a
      name that was free, and streams. */
  lemma AcceptedCreationStores(cfg: Config, name: string, spec: AgentSpec, w: World)
    requires !ServeFrom(cfg, Open(Create(spec), name), w).0.pc.Rejected?
    ensures
      var st := Met(Second(w));
      && name !in st.agents
      && Streams(cfg, Create(spec), name, w, Some(st.nextUid), [CreatedEvent(name)], WithAgent(st, name, spec))
      && WithAgent(st, name, spec).agents[name] == Stored(Agent(name, st.nextUid, spec), Null)
  {
    hide ServeFrom, Streams, Answerable, Met, Upcoming;
    Creation(cfg, name, spec, w);
  }

  lemma FirstOfCreation(cfg: Config, name: string, spec: AgentSpec, st: Store, reply: Reply)
    ensures
      HandlerNext(Open(Create(spec), name), Perform(cfg, st, GetAgent(name), reply).1)
      == Open(Create(spec), name).(pc := if !Answerable(st, name, reply) then Rejected(KubeError)
                                         else if name in st.agents then Rejected(Conflict)
                                         else Act)
  {
    hide DecodeStatus;
  }

  lemma SecondCreates(cfg: Config, name: string, spec: AgentSpec, w: World)
    ensures
      var h := Open(Create(spec), name).(pc := Act);
      var st, reply := Met(w), Upcoming(w).reply;
      var (st', resp) := Perform(cfg, st, HandlerOp(h), reply);
      && st' == (if name in st.agents || reply.Refused? then st else WithAgent(st, name, spec))
      && HandlerNext(h, resp)
         == if name !in st.agents && reply.Delivered?
            then Handler(Create(spec), name, Polling, Some(st.nextUid), [CreatedEvent(name)])
            else h.(pc := Rejected(KubeError))
  {
    assert [] + [CreatedEvent(name)] == [CreatedEvent(name)];
  }

  // ---------------------------------------------------------------------
  // Deletion
  // ---------------------------------------------------------------------

  /** Deleting, which always answers with a stream: of one error if the agent cannot be
      read, is not there or cannot be deleted; otherwise the agent is gone. */
  lemma Deletion(cfg: Config, name: string, w: World)
    ensures
      var st1, st2, reply2 := Met(w), Met(Second(w)), Upcoming(Second(w)).reply;
      if !Answerable(st1, name, Upcoming(w).reply) then
        Answers(cfg, DeleteCall, name, w, None, [ErrorEvent(LookupFailed)], st1)
      else if name !in st1.agents then Answers(cfg, DeleteCall, name, w, None, [ErrorEvent(NoSuchInstance)], st1)
      else if name !in st2.agents || reply2.Refused? then
        Answers(cfg, DeleteCall, name, w, None, [ErrorEvent(DeleteFailed)], st2)
      else if reply2.Lost? then
        Answers(cfg, DeleteCall, name, w, None, [ErrorEvent(DeleteFailed)], st2.(agents := st2.agents - {name}))
      else Streams(cfg, DeleteCall, name, w, None, [], st2.(agents := st2.agents - {name}))
  {
    hide Perform, ServeFrom, ServeAnswers, StreamRun, StreamAnswers, HandlerNext, Answerable, Upcoming, Met;
    FirstRequest(cfg, DeleteCall, name, w);
    FirstOfDeletion(cfg, name, Met(w), Upcoming(w).reply);
    SecondRequest(cfg, Open(DeleteCall, name).(pc := Act), Second(w));
    SecondDeletes(cfg, name, Second(w));
  }

  lemma FirstOfDeletion(cfg: Config, name: string, st: Store, reply: Reply)
    ensures
      HandlerNext(Open(DeleteCall, name), Perform(cfg, st, GetAgent(name), reply).1)
      == if Answerable(st, name, reply) && name in st.agents then Open(DeleteCall, name).(pc := Act)
         else Handler(DeleteCall, name, Closed(Broken), None,
                      [ErrorEvent(if Answerable(st, name, reply) then NoSuchInstance else LookupFailed)])
  {
    hide DecodeStatus;
    assert [] + [ErrorEvent(NoSuchInstance)] == [ErrorEvent(NoSuchInstance)];
    assert [] + [ErrorEvent(LookupFailed)] == [ErrorEvent(LookupFailed)];
  }

  lemma SecondDeletes(cfg: Config, name: string, w: World)
    ensures
      var h := Open(DeleteCall, name).(pc := Act);
      var st, reply := Met(w), Upcoming(w).reply;
      var (st', resp) := Perform(cfg, st, HandlerOp(h), reply);
      && st' == (if name !in st.agents || reply.Refused? then st else st.(agents := st.agents - {name}))
      && HandlerNext(h, resp)
         == if name in st.agents && reply.Delivered? then h.(pc := Polling)
            else Handler(DeleteCall, name, Closed(Broken), None, [ErrorEvent(DeleteFailed)])
  {
    assert [] + [ErrorEvent(DeleteFailed)] == [ErrorEvent(DeleteFailed)];
  }

  // ---------------------------------------------------------------------
  // The events of a stream
  // ---------------------------------------------------------------------

  /** What users are told about an agent. */
  lemma UserSees(stored: Stored)
    requires DecodeStatus(stored.status).Some?
    ensures
      var phase, told := DecodeStatus(stored.status).value.phase, StatusOf(stored);
      && (stored.agent.spec.state.Stopped? ==> told == "stopped")
      && (stored.agent.spec.state.Running? ==>
            && (phase == None || phase == Some("Creating") || phase == Some("Pending") ==> told == "creating")
            && (phase == Some("Running") ==> told == "running")
            && (phase == Some("Stopped") ==> told == "stopped")
            && (phase == Some("CrashLoopBackOff") || phase == Some("Failed") ==> told == "error")
            && (phase.Some? && phase.value !in
                  {"Creating", "Pending", "Running", "Stopped", "CrashLoopBackOff", "Failed"} ==>
                  LowerCase(phase.value, told)))
  {
    hide DecodeStatus;
    assert "Creating"[0] == 'C' && "Pending"[0] == 'P' && "Running"[0] == 'R';
    assert "Stopped"[0] == 'S' && "Failed"[0] == 'F';
    assert |"Creating"| == 8 && |"CrashLoopBackOff"| == 16;
  }

  predicate LowerCase(s: string, t: string) {
    && |t| == |s|
    && forall i | 0 <= i < |s| ::
         if 'A' <= s[i] <= 'Z' then t[i] as int == s[i] as int + 32 else t[i] == s[i]
  }

  /** The statuses a stream shows: one for each answer with the agent in it that is not
      yet the target, with what users are told. */
  function Shown(call: Call, answers: seq<Resp>): seq<Event> {
    if answers == [] then []
    else
      (if Found(answers[0]) && !Hits(call, answers[0])
       then [StatusEvent(if call.DeleteCall? then "deleting" else StatusOf(answers[0].agent.value))]
       else [])
      + Shown(call, answers[1..])
  }

  lemma OnePoll(h: Handler, resp: Resp)
    requires h.pc.Polling?
    ensures
      var h' := Polled(h, resp);
      h'.events == h.events + Shown(h.call, [resp]) + if h'.pc.Ended? then Verdict(h.call, h.name, h'.pc.why) else []
  {
    hide StatusOf;
    assert [resp][1..] == [];
  }

  lemma ShownLater(call: Call, resp: Resp, rest: seq<Resp>)
    ensures Shown(call, [resp] + rest) == Shown(call, [resp]) + Shown(call, rest)
  {
    hide StatusOf, Hits;
    assert ([resp] + rest)[1..] == rest && [resp][1..] == [];
  }

  lemma {:induction false} PollEvents(cfg: Config, h: Handler, w: World, deadline: nat)
    requires h.pc.Polling?
    ensures
      var h' := PollRun(cfg, h, w, deadline).0;
      && h'.pc.Ended?
      && h'.events == h.events + Shown(h.call, PollAnswers(cfg, h, w, deadline)) + Verdict(h.call, h.name, h'.pc.why)
    decreases if w.now > deadline then 0 else deadline - w.now + 1
  {
    hide Shown, Verdict, Polled, CallAt;
    if w.now > deadline {
      ExpiredEvents(h);
    } else {
      var w', resp := PollStep(cfg, h, w, deadline);
      OnePoll(h, resp);
      PollOnce(h, resp);
      var mid, later := Polled(h, resp), Wait(w', IntervalMs(h.call));
      ShownLater(h.call, resp, PollAnswers(cfg, mid, later, deadline));
      if mid.pc.Polling? {
        PollEvents(cfg, mid, later, deadline);
      } else {
        NoAnswers(cfg, mid, later, deadline);
      }
    }
  }

  lemma ExpiredEvents(h: Handler)
    ensures Expire(h).events == h.events + Shown(h.call, []) + Verdict(h.call, h.name, Expired)
  {
  }

  lemma NoAnswers(cfg: Config, h: Handler, w: World, deadline: nat)
    requires !h.pc.Polling?
    ensures PollAnswers(cfg, h, w, deadline) == [] && Shown(h.call, []) == []
  {
  }

  /** The whole stream of a call: the statuses its answers showed, how polling ended,
      and the event that says the call is over; a deletion has no such event. */
  ghost predicate Emits(cfg: Config, h: Handler, w: World, closing: seq<Event>) {
    var h' := StreamRun(cfg, h, w).0;
    && h'.pc.Closed?
    && h'.events == h.events + Shown(h.call, StreamAnswers(cfg, h, w)) + Verdict(h.call, h.name, h'.pc.end) + closing
  }

  lemma StreamEvents(cfg: Config, h: Handler, w: World)
    requires h.pc.Polling?
    ensures h.call.Create? || h.call.StartCall? || h.call.RestartCall? ==> Emits(cfg, h, w, [ReadyEvent(h.name)])
    ensures h.call.StopCall? ==> Emits(cfg, h, w, [StoppedEvent(h.name)])
    ensures h.call.DeleteCall? ==> Emits(cfg, h, w, [])
  {
    hide Shown, Verdict, PollRun, PollAnswers;
    var w0 := PollsFrom(h.call, w);
    PollEvents(cfg, h, w0, w0.now + TimeoutMs(h.call));
    RunKeepsCall(cfg, h, w0, w0.now + TimeoutMs(h.call));
  }

  lemma RunKeepsCall(cfg: Config, h: Handler, w: World, deadline: nat)
    requires h.pc.Polling?
    ensures
      var h' := PollRun(cfg, h, w, deadline).0;
      h'.call == h.call && h'.name == h.name
  {
    PollProtocol(cfg, h, w, deadline);
  }

  /** How long each call polls, from when, for what, and how often at most. */
  lemma Deadlines(cfg: Config, h: Handler, w: World)
    requires h.pc.Polling?
    ensures
      StreamRun(cfg, h, w).1
      == match h.call
         case StopCall => PollRun(cfg, h, w, w.now + 120_000).1
         case DeleteCall => PollRun(cfg, h, w, w.now + 60_000).1
         case RestartCall => PollRun(cfg, h, Wait(w, 3_000), w.now + 603_000).1
         case _ => PollRun(cfg, h, w, w.now + 600_000).1
    ensures
      forall resp | Found(resp) && !h.call.DeleteCall? ::
        Hits(h.call, resp)
        <==> StatusOf(resp.agent.value) == if h.call.StopCall? then "stopped" else "running"
  {
    hide PollRun, StatusOf;
  }

  /** After a poll that did not end it, a call waits three seconds, a deletion two. */
  lemma PollsEvery(cfg: Config, h: Handler, w: World, deadline: nat)
    requires h.pc.Polling? && w.now <= deadline
    ensures
      var (w', resp) := CallAt(cfg, w, GetAgent(h.name));
      Polled(h, resp).pc.Polling? ==>
        PollRun(cfg, h, w, deadline)
        == PollRun(cfg, Polled(h, resp), Wait(w', if h.call.DeleteCall? then 2_000 else 3_000), deadline)
  {
    hide CallAt, Polled;
    assert PollRun(cfg, h, w, deadline) == PollOn(cfg, h, w, deadline);
  }
}
