/** Event streams: how the API turns an agent into a user-visible status, and the
    life of one request as a state machine that ends in polling for a status. */
module Sse {
  import opened Wrappers
  import opened Crd
  import opened Resources
  import opened ApiServer
  import opened Client

  /** The errors a stream can report, each with its own message. */
  datatype StreamError =
    | StatusTimeout
    | DeletionTimeout
    | PollFailed
    | DeleteFailed
    | NoSuchInstance
    | LookupFailed

  datatype Event =
    | CreatedEvent(name: string)
    | StatusEvent(status: string)
    | ErrorEvent(error: StreamError)
    | ReadyEvent(name: string)
    | StoppedEvent(name: string)
    | DeletedEvent(name: string)

  /** Lower case of the ASCII letters. */
  function ToLower(s: string): string {
    seq(|s|, i requires 0 <= i < |s| => if 'A' <= s[i] <= 'Z' then (s[i] as int + 32) as char else s[i])
  }

  function DeriveStatus(spec: AgentSpec, status: AgentStatus): string {
    if spec.state.Stopped? then "stopped"
    else
      match status.phase
      case None => "creating"
      case Some(p) =>
        if p == "Running" then "running"
        else if p == "Creating" || p == "Pending" then "creating"
        else if p == "Stopped" then "stopped"
        else if p == "CrashLoopBackOff" || p == "Failed" then "error"
        else ToLower(p)
  }

  function SeenStatus(stored: Stored): AgentStatus {
    DecodeStatus(stored.status).GetOr(DEFAULT_STATUS)
  }

  function StatusOf(stored: Stored): string {
    DeriveStatus(stored.agent.spec, SeenStatus(stored))
  }

  // ---------------------------------------------------------------------
  // Requests
  // ---------------------------------------------------------------------

  datatype Call = Create(spec: AgentSpec) | StartCall | StopCall | RestartCall | DeleteCall

  datatype AppError = BadRequest | Conflict | NotFound | KubeError

  /** Why a stream stopped polling: the target was seen, a poll failed, or the
      deadline passed. */
  datatype Ending = Reached | Broken | Expired

  datatype HandlerPc = Check | Act | Polling | Ended(why: Ending) | Rejected(error: AppError) | Closed(end: Ending)

  /** A request being served. `won` is the uid of the agent it created. */
  datatype Handler = Handler(call: Call, name: string, pc: HandlerPc, won: Option<nat>, events: seq<Event>)

  function Open(call: Call, name: string): Handler {
    Handler(call, name, Check, None, [])
  }

  predicate Asking(h: Handler) {
    h.pc.Check? || h.pc.Act? || h.pc.Polling?
  }

  function HandlerOp(h: Handler): Op
    requires Asking(h)
  {
    if h.pc.Act? then
      match h.call
      case Create(spec) => CreateAgent(h.name, spec)
      case StartCall => PatchState(h.name, Running)
      case StopCall => PatchState(h.name, Stopped)
      case RestartCall => DeletePod(PodName(h.name))
      case DeleteCall => DeleteAgent(h.name)
    else
      GetAgent(h.name)
  }

  function Emit(h: Handler, e: Event): Handler {
    h.(events := h.events + [e])
  }

  predicate Found(resp: Resp) {
    resp.GotAgent? && resp.agent.Some?
  }

  function Checked(h: Handler, resp: Resp): Handler {
    match h.call
    case Create(_) =>
      if resp.Failed? then h.(pc := Rejected(KubeError))
      else if Found(resp) then h.(pc := Rejected(Conflict))
      else h.(pc := Act)
    case DeleteCall =>
      if resp.Failed? then Emit(h, ErrorEvent(LookupFailed)).(pc := Closed(Broken))
      else if Found(resp) then h.(pc := Act)
      else Emit(h, ErrorEvent(NoSuchInstance)).(pc := Closed(Broken))
    case _ =>
      if resp.Failed? then h.(pc := Rejected(KubeError))
      else if Found(resp) then h.(pc := Act)
      else h.(pc := Rejected(NotFound))
  }

  function Acted(h: Handler, resp: Resp): Handler {
    match h.call
    case Create(_) =>
      if resp.Created? then Emit(h, CreatedEvent(h.name)).(pc := Polling, won := Some(resp.uid))
      else h.(pc := Rejected(KubeError))
    case DeleteCall =>
      if resp.Failed? then Emit(h, ErrorEvent(DeleteFailed)).(pc := Closed(Broken)) else h.(pc := Polling)
    case RestartCall => h.(pc := Polling) // the outcome of the pod deletion is ignored
    case _ => if resp.Failed? then h.(pc := Rejected(KubeError)) else h.(pc := Polling)
  }

  function Target(call: Call): string {
    match call
    case StopCall => "stopped"
    case DeleteCall => "deleted"
    case _ => "running"
  }

  function TimeoutMs(call: Call): nat {
    match call
    case StopCall => 120_000
    case DeleteCall => 60_000
    case _ => 600_000
  }

  function IntervalMs(call: Call): nat {
    if call.DeleteCall? then 2_000 else 3_000
  }

  /** One answer to a poll. */
  function Polled(h: Handler, resp: Resp): (h': Handler)
    ensures h'.call == h.call && h'.name == h.name && h'.won == h.won
  {
    if h.call.DeleteCall? then
      if resp.Failed? then h
      else if Found(resp) then Emit(h, StatusEvent("deleting"))
      else Emit(h, DeletedEvent(h.name)).(pc := Ended(Reached))
    else if resp.Failed? then
      Emit(h, ErrorEvent(PollFailed)).(pc := Ended(Broken))
    else if Found(resp) then
      var current := StatusOf(resp.agent.value);
      if current == Target(h.call) then h.(pc := Ended(Reached)) else Emit(h, StatusEvent(current))
    else h
  }

  function Expire(h: Handler): Handler {
    Emit(h, ErrorEvent(if h.call.DeleteCall? then DeletionTimeout else StatusTimeout)).(pc := Ended(Expired))
  }

  /** What the handler emits after polling, however the polling ended. */
  function Epilogue(call: Call, name: string): seq<Event> {
    match call
    case StopCall => [StoppedEvent(name)]
    case DeleteCall => []
    case _ => [ReadyEvent(name)]
  }

  function Finish(h: Handler): Handler {
    if h.pc.Ended? then h.(pc := Closed(h.pc.why), events := h.events + Epilogue(h.call, h.name)) else h
  }

  /** The handler after the answer to its request. */
  function HandlerNext(h: Handler, resp: Resp): Handler
    requires Asking(h)
  {
    match h.pc
    case Check => Checked(h, resp)
    case Act => Acted(h, resp)
    case _ => Finish(Polled(h, resp))
  }

  // ---------------------------------------------------------------------
  // Serving a request against the clock
  // ---------------------------------------------------------------------

  /** Polling until the target, a failure or the deadline. */
  function PollRun(cfg: Config, h: Handler, w: World, deadline: nat): (Handler, World)
    decreases if w.now > deadline then 0 else deadline - w.now + 1, 1
  {
    if !h.pc.Polling? then (h, w)
    else if w.now > deadline then (Expire(h), w)
    else PollOn(cfg, h, w, deadline)
  }

  function PollOn(cfg: Config, h: Handler, w: World, deadline: nat): (Handler, World)
    requires w.now <= deadline
    decreases deadline - w.now + 1, 0
  {
    var (w', resp) := CallAt(cfg, w, GetAgent(h.name));
    var h' := Polled(h, resp);
    if h'.pc.Polling? then PollRun(cfg, h', Wait(w', IntervalMs(h.call)), deadline) else (h', w')
  }

  /** The answers that polling gets, in order. */
  function PollAnswers(cfg: Config, h: Handler, w: World, deadline: nat): seq<Resp>
    decreases if w.now > deadline then 0 else deadline - w.now + 1, 1
  {
    if !h.pc.Polling? || w.now > deadline then [] else LaterAnswers(cfg, h, w, deadline)
  }

  function LaterAnswers(cfg: Config, h: Handler, w: World, deadline: nat): seq<Resp>
    requires w.now <= deadline
    decreases deadline - w.now + 1, 0
  {
    var (w', resp) := CallAt(cfg, w, GetAgent(h.name));
    [resp] + PollAnswers(cfg, Polled(h, resp), Wait(w', IntervalMs(h.call)), deadline)
  }

  function StreamAnswers(cfg: Config, h: Handler, w: World): seq<Resp> {
    var w0 := PollsFrom(h.call, w);
    PollAnswers(cfg, h, w0, w0.now + TimeoutMs(h.call))
  }

  /** A restart gives the old pod three seconds to go before it polls. */
  function PollsFrom(call: Call, w: World): World {
    if call.RestartCall? then Wait(w, 3_000) else w
  }

  /** The stream from the moment its handler starts polling. */
  function StreamRun(cfg: Config, h: Handler, w: World): (Handler, World) {
    var w0 := PollsFrom(h.call, w);
    var (h', w') := PollRun(cfg, h, w0, w0.now + TimeoutMs(h.call));
    (Finish(h'), w')
  }

  function ServeFrom(cfg: Config, h: Handler, w: World): (Handler, World)
    decreases if h.pc.Check? then 1 else 0, 1
  {
    if h.pc.Check? || h.pc.Act? then ServeOn(cfg, h, w) else (h, w)
  }

  function ServeOn(cfg: Config, h: Handler, w: World): (Handler, World)
    requires h.pc.Check? || h.pc.Act?
    decreases if h.pc.Check? then 1 else 0, 0
  {
    var (w', resp) := CallAt(cfg, w, HandlerOp(h));
    var h' := HandlerNext(h, resp);
    if h.pc.Check? && h'.pc.Act? then ServeFrom(cfg, h', w')
    else if h'.pc.Polling? then StreamRun(cfg, h', w')
    else (h', w')
  }

  /** The answers a whole request gets while polling. */
  function ServeAnswers(cfg: Config, h: Handler, w: World): seq<Resp>
    decreases if h.pc.Check? then 1 else 0, 1
  {
    if h.pc.Check? || h.pc.Act? then ServeLaterAnswers(cfg, h, w) else []
  }

  function ServeLaterAnswers(cfg: Config, h: Handler, w: World): seq<Resp>
    requires h.pc.Check? || h.pc.Act?
    decreases if h.pc.Check? then 1 else 0, 0
  {
    var (w', resp) := CallAt(cfg, w, HandlerOp(h));
    var h' := HandlerNext(h, resp);
    if h.pc.Check? && h'.pc.Act? then ServeAnswers(cfg, h', w')
    else if h'.pc.Polling? then StreamAnswers(cfg, h', w')
    else []
  }

  // ---------------------------------------------------------------------
  // The protocol of a stream
  // ---------------------------------------------------------------------

  /** Status events, then exactly `tail`. */
  ghost predicate StatusesThen(es: seq<Event>, tail: seq<Event>) {
    && |tail| <= |es|
    && es[|es| - |tail|..] == tail
    && forall i | 0 <= i < |es| - |tail| :: es[i].StatusEvent?
  }

  predicate HasError(events: seq<Event>) {
    exists e | e in events :: e.ErrorEvent?
  }

  /** What polling emits last. */
  function Verdict(call: Call, name: string, why: Ending): seq<Event> {
    match why
    case Reached => if call.DeleteCall? then [DeletedEvent(name)] else []
    case Broken => [ErrorEvent(PollFailed)]
    case Expired => [ErrorEvent(if call.DeleteCall? then DeletionTimeout else StatusTimeout)]
  }

  /** How many polls fit before the deadline. */
  function PollBudget(call: Call, now: nat, deadline: nat): nat {
    if now > deadline then 0 else (deadline - now) / IntervalMs(call) + 1
  }

  /** An answer with the agent in the target status, or without the agent when
      waiting for its deletion. */
  predicate Hits(call: Call, resp: Resp) {
    if call.DeleteCall? then resp.GotAgent? && resp.agent.None?
    else Found(resp) && StatusOf(resp.agent.value) == Target(call)
  }

  /** An answer that ends polling in failure. A deletion tries again instead. */
  predicate Breaks(call: Call, resp: Resp) {
    resp.Failed? && !call.DeleteCall?
  }

  /** Each way to end means what it says: on `Reached` the last answer was a hit and
      the store `w` still shows it, on `Broken` it was a failed read, on `Expired`
      there was neither and the deadline is past; and no answer before the last was
      either. */
  ghost predicate EndsHonestly(call: Call, name: string, why: Ending, answers: seq<Resp>, w: World, deadline: nat) {
    && (forall i | 0 <= i < |answers| - 1 :: !Hits(call, answers[i]) && !Breaks(call, answers[i]))
    && match why
       case Reached =>
         && answers != [] && Hits(call, answers[|answers| - 1])
         && if call.DeleteCall? then name !in w.store.agents
            else name in w.store.agents && StatusOf(w.store.agents[name]) == Target(call)
       case Broken => answers != [] && Breaks(call, answers[|answers| - 1])
       case Expired =>
         && w.now > deadline
         && (answers != [] ==> !Hits(call, answers[|answers| - 1]) && !Breaks(call, answers[|answers| - 1]))
  }

  /** So the ending is determined by the answers, in both directions. */
  lemma EndingsByAnswers(call: Call, name: string, why: Ending, answers: seq<Resp>, w: World, deadline: nat)
    requires EndsHonestly(call, name, why, answers, w, deadline)
    ensures why == Broken <==> exists resp | resp in answers :: Breaks(call, resp)
    ensures why == Reached <==> exists resp | resp in answers :: Hits(call, resp)
    ensures why == Expired <==> forall resp | resp in answers :: !Breaks(call, resp) && !Hits(call, resp)
    ensures why == Expired ==> w.now > deadline
  {
    if answers != [] {
      assert answers[|answers| - 1] in answers;
    }
  }

  lemma BudgetFalls(call: Call, now: nat, later: nat, deadline: nat)
    requires now <= deadline && later >= now + IntervalMs(call)
    ensures PollBudget(call, later, deadline) < PollBudget(call, now, deadline)
  {
    var k := IntervalMs(call);
    if later <= deadline {
      assert (deadline - later) / k + 1 <= (deadline - now) / k by {
        assert (deadline - later + k) / k == (deadline - later) / k + 1;
      }
    }
  }

  /** `h'` is `h` after polling to the end with at most `budget` status events. */
  ghost predicate PolledOut(h: Handler, h': Handler, budget: nat) {
    && h'.pc.Ended?
    && h' == h.(pc := h'.pc, events := h'.events)
    && h.events <= h'.events
    && var emitted, tail := h'.events[|h.events|..], Verdict(h.call, h.name, h'.pc.why);
       StatusesThen(emitted, tail) && |emitted| - |tail| <= budget
  }

  /** One poll either ends the polling or adds at most one status event. */
  lemma PollOnce(h: Handler, resp: Resp)
    requires h.pc.Polling?
    ensures
      var h' := Polled(h, resp);
      if h'.pc.Polling? then
        h' == h.(events := h'.events)
        && (h'.events == h.events || exists e: Event :: e.StatusEvent? && h'.events == h.events + [e])
      else PolledOut(h, h', 0)
  {
    var h' := Polled(h, resp);
    if h'.pc.Polling? {
      if h'.events != h.events {
        assert h'.events[|h.events|].StatusEvent?;
      }
    } else {
      assert h'.events[|h.events|..] == Verdict(h.call, h.name, h'.pc.why);
    }
  }

  lemma OneMoreStatus(h: Handler, mid: Handler, h': Handler, budget: nat)
    requires mid == h.(events := mid.events)
    requires mid.events == h.events || exists e: Event :: e.StatusEvent? && mid.events == h.events + [e]
    requires PolledOut(mid, h', budget)
    ensures PolledOut(h, h', budget + 1)
  {
    assert h'.events[|h.events|..] == mid.events[|h.events|..] + h'.events[|mid.events|..];
  }

  lemma PolledOutMore(h: Handler, h': Handler, budget: nat, more: nat)
    requires PolledOut(h, h', budget) && budget <= more
    ensures PolledOut(h, h', more)
  {
  }

  /** One unfolding of the polling: the answer `resp` to the next poll and the
      world `w'` right after it. */
  lemma PollStep(cfg: Config, h: Handler, w: World, deadline: nat) returns (w': World, resp: Resp)
    requires h.pc.Polling? && w.now <= deadline
    ensures w'.now >= w.now
    ensures
      var h' := Polled(h, resp);
      && resp == CallAt(cfg, w, GetAgent(h.name)).1
      && PollAnswers(cfg, h, w, deadline)
         == [resp] + PollAnswers(cfg, h', Wait(w', IntervalMs(h.call)), deadline)
      && (h'.pc.Ended? ==> EndsHonestly(h.call, h.name, h'.pc.why, [resp], w', deadline))
      && (h'.pc.Polling? ==> !Hits(h.call, resp) && !Breaks(h.call, resp))
      && PollRun(cfg, h, w, deadline)
         == if h'.pc.Polling? then PollRun(cfg, h', Wait(w', IntervalMs(h.call)), deadline) else (h', w')
  {
    var answer := CallAt(cfg, w, GetAgent(h.name));
    w', resp := answer.0, answer.1;
    assert PollRun(cfg, h, w, deadline) == PollOn(cfg, h, w, deadline);
    assert PollAnswers(cfg, h, w, deadline) == LaterAnswers(cfg, h, w, deadline);
  }

  lemma ExpireOut(h: Handler, budget: nat)
    ensures PolledOut(h, Expire(h), budget)
  {
    assert Expire(h).events[|h.events|..] == Verdict(h.call, h.name, Expired);
  }

  /** Putting one poll in front of the polling that follows it. */
  lemma PollThenRest(h: Handler, resp: Resp, rest: Handler, budget: nat)
    requires h.pc.Polling?
    requires Polled(h, resp).pc.Polling? ==> budget > 0 && PolledOut(Polled(h, resp), rest, budget - 1)
    ensures PolledOut(h, if Polled(h, resp).pc.Polling? then rest else Polled(h, resp), budget)
  {
    PollOnce(h, resp);
    if Polled(h, resp).pc.Polling? {
      OneMoreStatus(h, Polled(h, resp), rest, budget - 1);
    } else {
      PolledOutMore(h, Polled(h, resp), 0, budget);
    }
  }

  /** Polling emits at most one status event per interval until the deadline,
      then exactly the verdict of how it ended. */
  lemma {:induction false} PollProtocol(cfg: Config, h: Handler, w: World, deadline: nat)
    requires h.pc.Polling?
    ensures PolledOut(h, PollRun(cfg, h, w, deadline).0, PollBudget(h.call, w.now, deadline))
    decreases if w.now > deadline then 0 else deadline - w.now + 1
  {
    if w.now > deadline {
      ExpireOut(h, 0);
    } else {
      var w', resp := PollStep(cfg, h, w, deadline);
      var mid, later := Polled(h, resp), Wait(w', IntervalMs(h.call));
      var rest := PollRun(cfg, mid, later, deadline).0;
      BudgetFalls(h.call, w.now, later.now, deadline);
      if mid.pc.Polling? {
        PollProtocol(cfg, mid, later, deadline);
        PolledOutMore(mid, rest, PollBudget(h.call, later.now, deadline), PollBudget(h.call, w.now, deadline) - 1);
      }
      PollThenRest(h, resp, rest, PollBudget(h.call, w.now, deadline));
    }
  }

  /** However polling ends, the ending is what its answers and the clock say. */
  lemma {:induction false} PollEndsHonestly(cfg: Config, h: Handler, w: World, deadline: nat)
    requires h.pc.Polling?
    ensures
      var run := PollRun(cfg, h, w, deadline);
      run.0.pc.Ended? && EndsHonestly(h.call, h.name, run.0.pc.why, PollAnswers(cfg, h, w, deadline), run.1, deadline)
    decreases if w.now > deadline then 0 else deadline - w.now + 1
  {
    if w.now <= deadline {
      var w', resp := PollStep(cfg, h, w, deadline);
      PollOnce(h, resp);
      var mid, later := Polled(h, resp), Wait(w', IntervalMs(h.call));
      if mid.pc.Polling? {
        PollEndsHonestly(cfg, mid, later, deadline);
        var rest := PollAnswers(cfg, mid, later, deadline);
        assert forall i | 1 <= i < |rest| + 1 :: ([resp] + rest)[i] == rest[i - 1];
      }
    }
  }

  // ---------------------------------------------------------------------
  // Whole streams
  // ---------------------------------------------------------------------

  const MAX_RUNNING_STATUSES: nat := 201
  const MAX_STOP_STATUSES: nat := 41
  const MAX_DELETE_STATUSES: nat := 31

  function MaxStatuses(call: Call): nat {
    match call
    case StopCall => MAX_STOP_STATUSES
    case DeleteCall => MAX_DELETE_STATUSES
    case _ => MAX_RUNNING_STATUSES
  }

  /** `h'` is `h` after its whole stream. */
  ghost predicate StreamedOut(h: Handler, h': Handler) {
    && h'.pc.Closed?
    && h' == h.(pc := h'.pc, events := h'.events)
    && h.events <= h'.events
    && var emitted, tail := h'.events[|h.events|..], Verdict(h.call, h.name, h'.pc.end) + Epilogue(h.call, h.name);
       StatusesThen(emitted, tail) && |emitted| - |tail| <= MaxStatuses(h.call)
  }

  lemma FinishAfterPolling(h: Handler, polled: Handler)
    requires PolledOut(h, polled, MaxStatuses(h.call))
    ensures StreamedOut(h, Finish(polled))
  {
    assert Finish(polled).events[|h.events|..] == polled.events[|h.events|..] + Epilogue(h.call, h.name);
  }

  /** A stream that is opened at all is a bounded number of status events, an
      error iff polling did not reach its target, and the closing event of its
      kind, which comes either way; a deletion closes with `deleted` or the error
      alone. Which of these it is follows from the answers it got. */
  lemma StreamProtocol(cfg: Config, h: Handler, w: World)
    requires h.pc.Polling?
    ensures
      var (h', w') := StreamRun(cfg, h, w);
      StreamedOut(h, h')
      && EndsHonestly(h.call, h.name, h'.pc.end, StreamAnswers(cfg, h, w), w', w.now + TimeoutMs(h.call))
  {
    var w0 := PollsFrom(h.call, w);
    var deadline := w0.now + TimeoutMs(h.call);
    PollProtocol(cfg, h, w0, deadline);
    PollEndsHonestly(cfg, h, w0, deadline);
    assert PollBudget(h.call, w0.now, deadline) == MaxStatuses(h.call);
    FinishAfterPolling(h, PollRun(cfg, h, w0, deadline).0);
  }

  /** The ending of a request that got to polling, by the answers it got and the
      world it leaves. */
  ghost predicate ServedHonestly(cfg: Config, call: Call, name: string, w: World) {
    var (h, w') := ServeFrom(cfg, Open(call, name), w);
    && h.pc.Closed?
    && EndsHonestly(call, name, h.pc.end, ServeAnswers(cfg, Open(call, name), w), w', w.now + TimeoutMs(call))
  }

  lemma LaterDeadline(call: Call, name: string, why: Ending, answers: seq<Resp>, w: World, deadline: nat, sooner: nat)
    requires EndsHonestly(call, name, why, answers, w, deadline) && sooner <= deadline
    ensures EndsHonestly(call, name, why, answers, w, sooner)
  {
  }

  /** A request that was answered before its stream started polling. */
  ghost predicate EndedEarly(call: Call, h: Handler) {
    && h.won == None
    && if call.DeleteCall? then h.pc == Closed(Broken) && exists m :: h.events == [ErrorEvent(m)]
       else h.pc.Rejected? && h.events == []
  }

  ghost predicate Streamed(call: Call, name: string, h: Handler) {
    exists polling: Handler ::
      && polling.pc.Polling? && polling.call == call && polling.name == name
      && polling.won.Some? == call.Create?
      && polling.events == (if call.Create? then [CreatedEvent(name)] else [])
      && StreamedOut(polling, h)
  }

  lemma ServedByItsStream(cfg: Config, call: Call, name: string, w: World, polling: Handler, w2: World)
    requires polling.pc.Polling? && polling.call == call && polling.name == name
    requires polling.won.Some? == call.Create?
    requires polling.events == (if call.Create? then [CreatedEvent(name)] else [])
    requires ServeFrom(cfg, Open(call, name), w) == StreamRun(cfg, polling, w2) && w2.now >= w.now
    requires ServeAnswers(cfg, Open(call, name), w) == StreamAnswers(cfg, polling, w2)
    ensures ServedHonestly(cfg, call, name, w)
    ensures Streamed(call, name, ServeFrom(cfg, Open(call, name), w).0)
  {
    hide StreamRun, EndsHonestly, StreamAnswers, ServeFrom, ServeAnswers;
    StreamProtocol(cfg, polling, w2);
    var (h', w') := StreamRun(cfg, polling, w2);
    LaterDeadline(call, name, h'.pc.end, StreamAnswers(cfg, polling, w2), w',
                  w2.now + TimeoutMs(call), w.now + TimeoutMs(call));
  }

  /** Before its stream starts, a request makes at most two calls. */
  lemma ServeIsTwoCallsAndAStream(cfg: Config, call: Call, name: string, w: World)
    ensures
      var h := ServeFrom(cfg, Open(call, name), w).0;
      EndedEarly(call, h) || (ServedHonestly(cfg, call, name, w) && Streamed(call, name, h))
  {
    hide CallAt, StreamRun, StreamAnswers, ServedHonestly, Streamed;
    var h0 := Open(call, name);
    var (w1, resp1) := CallAt(cfg, w, HandlerOp(h0));
    var h1 := HandlerNext(h0, resp1);
    assert ServeFrom(cfg, h0, w) == ServeOn(cfg, h0, w);
    assert ServeAnswers(cfg, h0, w) == ServeLaterAnswers(cfg, h0, w);
    if h1.pc.Act? {
      var (w2, resp2) := CallAt(cfg, w1, HandlerOp(h1));
      var h2 := HandlerNext(h1, resp2);
      assert ServeFrom(cfg, h1, w1) == ServeOn(cfg, h1, w1);
      assert ServeAnswers(cfg, h1, w1) == ServeLaterAnswers(cfg, h1, w1);
      if h2.pc.Polling? {
        TimePasses(cfg, w, HandlerOp(h0));
        TimePasses(cfg, w1, HandlerOp(h1));
        ServedByItsStream(cfg, call, name, w, h2, w2);
      }
    }
  }

  lemma TimePasses(cfg: Config, w: World, op: Op)
    ensures CallAt(cfg, w, op).0.now >= w.now
  {
  }

  /** The events of a creation request: nothing when it is rejected; otherwise
      `created`, at most 201 statuses, at most one error, and always `ready`. The
      error is there iff an answer to a poll was a failed read, or no answer showed
      the agent running until ten minutes were over. */
  lemma CreateStreamProtocol(cfg: Config, spec: AgentSpec, name: string, w: World)
    ensures
      var (h, w') := ServeFrom(cfg, Open(Create(spec), name), w);
      || (h.pc.Rejected? && h.events == [] && h.won == None)
      || (&& h.pc.Closed? && h.won.Some?
          && |h.events| >= 1 && h.events[0] == CreatedEvent(name)
          && (var tail := Verdict(Create(spec), name, h.pc.end) + [ReadyEvent(name)];
              StatusesThen(h.events[1..], tail) && |h.events| - 1 - |tail| <= 201)
          && var answers := ServeAnswers(cfg, Open(Create(spec), name), w);
             EndsHonestly(Create(spec), name, h.pc.end, answers, w', w.now + 600_000))
  {
    hide EndsHonestly, ServeAnswers, ServeFrom;
    ServeIsTwoCallsAndAStream(cfg, Create(spec), name, w);
  }

  /** A creation that streams reports an error iff it did not see the agent running:
      iff a read failed, or the time was over with no answer showing it. */
  lemma CreateErrsIff(cfg: Config, spec: AgentSpec, name: string, w: World)
    ensures
      var (h, w') := ServeFrom(cfg, Open(Create(spec), name), w);
      var answers := ServeAnswers(cfg, Open(Create(spec), name), w);
      h.won.Some? ==>
        && (HasError(h.events) <==> !(exists resp | resp in answers :: Hits(Create(spec), resp)))
        && (HasError(h.events) ==> (exists resp | resp in answers :: resp.Failed?) || w'.now > w.now + 600_000)
        && ((exists resp | resp in answers :: resp.Failed?) ==> HasError(h.events))
  {
    hide EndsHonestly, ServeAnswers, ServeFrom, Hits;
    CreateStreamProtocol(cfg, spec, name, w);
    var (h, w') := ServeFrom(cfg, Open(Create(spec), name), w);
    if h.won.Some? {
      var answers := ServeAnswers(cfg, Open(Create(spec), name), w);
      EndingsByAnswers(Create(spec), name, h.pc.end, answers, w', w.now + 600_000);
      ErrorInTheVerdict(h.events, Verdict(Create(spec), name, h.pc.end), name);
    }
  }

  lemma ErrorInTheVerdict(events: seq<Event>, verdict: seq<Event>, name: string)
    requires |events| >= 1 && events[0] == CreatedEvent(name)
    requires StatusesThen(events[1..], verdict + [ReadyEvent(name)])
    requires |verdict| <= 1 && forall e | e in verdict :: e.ErrorEvent?
    ensures HasError(events) <==> verdict != []
  {
    var k := |events| - |verdict| - 1;
    var tail := verdict + [ReadyEvent(name)];
    assert events[1..][k - 1..] == tail;
    assert forall i | 0 <= i < |tail| :: events[k + i] == tail[i];
    assert forall i | 1 <= i < k :: events[i] == events[1..][i - 1];
    if verdict != [] {
      assert events[k] == verdict[0] && events[k] in events;
    }
  }

  /** A deletion stream always closes, and its last event is either `deleted` or
      an error, with only statuses, at most 31, before it. It says `deleted` only
      when the agent is gone from the store it leaves. */
  lemma DeleteStreamProtocol(cfg: Config, name: string, w: World)
    ensures
      var (h, w') := ServeFrom(cfg, Open(DeleteCall, name), w);
      && h.pc.Closed? && 1 <= |h.events| <= 32
      && (h.events[|h.events| - 1].ErrorEvent?
          || (h.events[|h.events| - 1] == DeletedEvent(name) && name !in w'.store.agents))
      && forall i | 0 <= i < |h.events| - 1 :: h.events[i].StatusEvent?
  {
    hide ServeAnswers, ServeFrom;
    ServeIsTwoCallsAndAStream(cfg, DeleteCall, name, w);
    var h := ServeFrom(cfg, Open(DeleteCall, name), w).0;
    if !(h.pc == Closed(Broken) && exists m :: h.events == [ErrorEvent(m)]) {
      DeletionTail(h, name);
    }
  }

  lemma DeletionTail(h: Handler, name: string)
    requires
      exists polling: Handler ::
        polling.call == DeleteCall && polling.name == name && polling.events == [] && StreamedOut(polling, h)
    ensures h.pc.Closed? && 1 <= |h.events| <= 32
    ensures
      if h.pc.end.Reached? then h.events[|h.events| - 1] == DeletedEvent(name)
      else h.events[|h.events| - 1].ErrorEvent?
    ensures forall i | 0 <= i < |h.events| - 1 :: h.events[i].StatusEvent?
  {
    var polling: Handler :|
      polling.call == DeleteCall && polling.name == name && polling.events == [] && StreamedOut(polling, h);
    assert h.events[0..] == h.events;
    var tail := Verdict(DeleteCall, name, h.pc.end) + [];
    assert tail == Verdict(DeleteCall, name, h.pc.end);
    assert h.events[|h.events| - 1..][0] == tail[0];
  }
}
