/** Concurrent creations of one name: between two deletions of the name at most one
    takes effect, and exactly one as soon as any of them has been answered. */
module Creation {
  import opened Wrappers
  import opened Crd
  import opened Resources
  import opened ApiServer
  import opened Sse
  import opened System
  import opened Effects
  import opened Safety
  import opened Ownership

  /** A creation that won made the agent of its uid, with its name and its spec. */
  predicate WonFairly(h: Handler, origin: map<nat, Agent>) {
    h.won.Some? ==>
      && h.call.Create?
      && h.won.value in origin
      && origin[h.won.value] == Agent(h.name, h.won.value, h.call.spec)
  }

  /** A creation opens its stream iff it won; before that and when rejected it has
      no events. */
  predicate StreamsIffWon(h: Handler) {
    h.call.Create? ==>
      match h.pc
      case Polling => h.won.Some?
      case Ended(_) => h.won.Some?
      case Closed(_) => h.won.Some?
      case _ => h.won.None? && h.events == []
  }

  ghost predicate Winners(handlers: map<nat, Handler>, origin: map<nat, Agent>) {
    && (forall id | id in handlers :: WonFairly(handlers[id], origin) && StreamsIffWon(handlers[id]))
    && (forall i, j | i in handlers && j in handlers && handlers[i].won.Some? && handlers[i].won == handlers[j].won ::
          i == j)
  }

  lemma HandlerNextWins(cfg: Config, s: State, m: Move)
    requires HandlerTicks(s, m)
    requires WonFairly(s.handlers[m.id], s.origin) && StreamsIffWon(s.handlers[m.id])
    requires OriginSound(s.origin, s.store.nextUid)
    ensures
      var h' := HandlersAfter(cfg, s, m)[m.id];
      && StreamsIffWon(h')
      && (h'.won == s.handlers[m.id].won || (Creates(s, m) && h'.won == Some(s.store.nextUid)))
      && h'.call == s.handlers[m.id].call && h'.name == s.handlers[m.id].name
  {
  }

  lemma WinnersStep(cfg: Config, s: State, m: Move)
    requires Winners(s.handlers, s.origin) && OriginSound(s.origin, s.store.nextUid)
    ensures Winners(HandlersAfter(cfg, s, m), OriginAfter(cfg, s, m))
  {
    HistoryMoves(cfg, s, m);
    if HandlerTicks(s, m) {
      HandlerNextWins(cfg, s, m);
    }
  }

  lemma {:induction false} WinnersRun(cfg: Config, s: State, ms: seq<Move>)
    requires Safe(cfg, s) && Winners(s.handlers, s.origin)
    ensures Winners(Run(cfg, s, ms).handlers, Run(cfg, s, ms).origin)
  {
    if ms != [] {
      SafeRun(cfg, s, ms[..|ms| - 1]);
      WinnersRun(cfg, s, ms[..|ms| - 1]);
      WinnersStep(cfg, Run(cfg, s, ms[..|ms| - 1]), ms[|ms| - 1]);
    }
  }

  /** In every reachable state the winners are fair and each won a uid of its own. */
  lemma ReachableWinners(cfg: Config, ms: seq<Move>)
    ensures Winners(Run(cfg, INIT, ms).handlers, Run(cfg, INIT, ms).origin)
  {
    InitIsSafe(cfg);
    WinnersRun(cfg, INIT, ms);
  }

  // ---------------------------------------------------------------------
  // Between deletions
  // ---------------------------------------------------------------------

  predicate Deletes(s: State, m: Move, n: string) {
    HandlerActs(s, m) && s.handlers[m.id].call.DeleteCall? && s.handlers[m.id].name == n
  }

  ghost predicate NeverDeletes(cfg: Config, s: State, ms: seq<Move>, n: string) {
    forall i | 0 <= i < |ms| :: !Deletes(Run(cfg, s, ms[..i]), ms[i], n)
  }

  /** Of the uids handed out since `was`, at most one is for `n`, and the agent
      stored under `n` has it. */
  ghost predicate OneSince(was: map<nat, Agent>, s: State, n: string) {
    OneAmong(was, s.origin, s.store.agents, n)
  }

  ghost predicate OneAmong(was: map<nat, Agent>, origin: map<nat, Agent>, agents: map<string, Stored>, n: string) {
    forall u | u in origin && u !in was && origin[u].name == n :: n in agents && agents[n].agent.uid == u
  }

  /** Nothing but a deletion takes a stored agent away or changes its uid. */
  lemma UidStays(s: State, m: Move, n: string)
    requires n in s.store.agents && !Deletes(s, m, n)
    ensures n in AgentsAfter(s, m) && AgentsAfter(s, m)[n].agent.uid == s.store.agents[n].agent.uid
  {
  }

  lemma CreatedUnder(s: State, m: Move)
    requires Creates(s, m)
    ensures
      var n := NewAgent(s, m).name;
      n !in s.store.agents && n in AgentsAfter(s, m) && AgentsAfter(s, m)[n].agent.uid == s.store.nextUid
  {
  }

  lemma OneSinceStep(cfg: Config, was: map<nat, Agent>, s: State, m: Move, n: string)
    requires Recorded(s) && OneSince(was, s, n) && !Deletes(s, m, n)
    ensures OneSince(was, Apply(cfg, s, m), n)
  {
    HistoryMoves(cfg, s, m);
    AgentMoves(cfg, s, m);
    if n in s.store.agents {
      UidStays(s, m, n);
    }
    if Creates(s, m) {
      CreatedUnder(s, m);
    }
    assert OneAmong(was, OriginAfter(cfg, s, m), AgentsAfter(s, m), n);
  }

  lemma {:induction false} OneSinceRun(cfg: Config, s: State, ms: seq<Move>, n: string)
    requires Safe(cfg, s) && NeverDeletes(cfg, s, ms, n)
    ensures OneSince(s.origin, Run(cfg, s, ms), n)
  {
    if ms != [] {
      var before := ms[..|ms| - 1];
      NeverBefore(cfg, s, ms, |ms| - 1, n);
      SafeRun(cfg, s, before);
      OneSinceRun(cfg, s, before, n);
      OneSinceStep(cfg, s.origin, Run(cfg, s, before), ms[|ms| - 1], n);
    }
  }

  /** Opened since `s0` and creating `n`. */
  predicate NewCreator(s0: State, s: State, id: nat, n: string) {
    id !in s0.handlers && id in s.handlers && s.handlers[id].call.Create? && s.handlers[id].name == n
  }

  /** A handler that has won either had won before the move or wins the uid the
      move hands out. */
  lemma WinsNow(cfg: Config, s: State, m: Move, id: nat)
    requires Winners(s.handlers, s.origin) && OriginSound(s.origin, s.store.nextUid)
    requires id in HandlersAfter(cfg, s, m) && HandlersAfter(cfg, s, m)[id].won.Some?
    ensures
      var won := HandlersAfter(cfg, s, m)[id].won;
      (id in s.handlers && s.handlers[id].won == won) || won.value == s.store.nextUid
  {
    if HandlerTicks(s, m) && m.id == id {
      HandlerNextWins(cfg, s, m);
    }
  }

  lemma {:induction false} NewWinnersWonSince(cfg: Config, s0: State, ms: seq<Move>, id: nat)
    requires Safe(cfg, s0) && Winners(s0.handlers, s0.origin)
    requires id !in s0.handlers && id in Run(cfg, s0, ms).handlers
    requires Run(cfg, s0, ms).handlers[id].won.Some?
    ensures Run(cfg, s0, ms).handlers[id].won.value !in s0.origin
  {
    var before := ms[..|ms| - 1];
    var s := Run(cfg, s0, before);
    SafeRun(cfg, s0, before);
    WinnersRun(cfg, s0, before);
    WinsNow(cfg, s, ms[|ms| - 1], id);
    if id in s.handlers && s.handlers[id].won == Run(cfg, s0, ms).handlers[id].won {
      NewWinnersWonSince(cfg, s0, before, id);
    }
  }

  /** However many creations of `n` are opened and interleaved while `n` is not
      deleted, at most one of them wins. The agent stored under `n` is then the
      winner's: its uid, and its spec but for the desired state. Every other
      creation is still checking or was rejected without opening a stream. */
  lemma OneCreationWins(cfg: Config, s0: State, ms: seq<Move>, n: string, i: nat, j: nat)
    requires Safe(cfg, s0) && Winners(s0.handlers, s0.origin) && NeverDeletes(cfg, s0, ms, n)
    requires NewCreator(s0, Run(cfg, s0, ms), i, n) && NewCreator(s0, Run(cfg, s0, ms), j, n)
    ensures
      var s := Run(cfg, s0, ms);
      && (s.handlers[i].won.Some? && s.handlers[j].won.Some? ==> i == j)
      && (s.handlers[i].won.Some? ==>
            && n in s.store.agents
            && s.store.agents[n].agent.uid == s.handlers[i].won.value
            && SameButState(s.store.agents[n].agent, Agent(n, s.handlers[i].won.value, s.handlers[i].call.spec)))
      && (s.handlers[i].won.None? ==>
            && s.handlers[i].events == []
            && (s.handlers[i].pc.Check? || s.handlers[i].pc.Act? || s.handlers[i].pc.Rejected?))
  {
    WinnersRun(cfg, s0, ms);
    OneSinceRun(cfg, s0, ms, n);
    SafeRun(cfg, s0, ms);
    var s := Run(cfg, s0, ms);
    if s.handlers[i].won.Some? {
      NewWinnersWonSince(cfg, s0, ms, i);
    }
    if s.handlers[j].won.Some? {
      NewWinnersWonSince(cfg, s0, ms, j);
    }
  }

  // ---------------------------------------------------------------------
  // At least one
  // ---------------------------------------------------------------------

  /** In this move a creation of `n` gets an answer that settles it: it wins, or it
      is rejected. */
  predicate Decides(cfg: Config, s: State, m: Move, n: string) {
    && HandlerTicks(s, m) && m.reply.Delivered?
    && s.handlers[m.id].call.Create? && s.handlers[m.id].name == n && !s.handlers[m.id].pc.Polling?
    && !HandlersAfter(cfg, s, m)[m.id].pc.Act?
  }

  /** An answered creation is rejected only because the name is taken. */
  lemma DecidedMeansStored(cfg: Config, s: State, m: Move, n: string)
    requires Decides(cfg, s, m, n)
    ensures n in AgentsAfter(s, m)
  {
  }

  lemma {:induction false} StaysStored(cfg: Config, s: State, ms: seq<Move>, n: string)
    requires n in s.store.agents && NeverDeletes(cfg, s, ms, n)
    ensures n in Run(cfg, s, ms).store.agents
  {
    hide Apply, Deletes;
    if ms != [] {
      NeverBefore(cfg, s, ms, |ms| - 1, n);
      StaysStored(cfg, s, ms[..|ms| - 1], n);
      StoredStep(cfg, Run(cfg, s, ms[..|ms| - 1]), ms[|ms| - 1], n);
    }
  }

  lemma StoredStep(cfg: Config, s: State, m: Move, n: string)
    requires n in s.store.agents && !Deletes(s, m, n)
    ensures n in Apply(cfg, s, m).store.agents
  {
    AgentMoves(cfg, s, m);
    UidStays(s, m, n);
  }

  lemma NeverBefore(cfg: Config, s: State, ms: seq<Move>, k: nat, n: string)
    requires NeverDeletes(cfg, s, ms, n) && k <= |ms|
    ensures NeverDeletes(cfg, s, ms[..k], n)
  {
    hide Apply, Deletes;
    forall i | 0 <= i < k
      ensures !Deletes(Run(cfg, s, ms[..k][..i]), ms[..k][i], n)
    {
      assert ms[..k][..i] == ms[..i];
    }
  }

  lemma NeverAfter(cfg: Config, s: State, ms: seq<Move>, k: nat, n: string)
    requires NeverDeletes(cfg, s, ms, n) && k <= |ms|
    ensures NeverDeletes(cfg, Run(cfg, s, ms[..k]), ms[k..], n)
  {
    hide Apply, Deletes;
    forall i | 0 <= i < |ms| - k
      ensures !Deletes(Run(cfg, Run(cfg, s, ms[..k]), ms[k..][..i]), ms[k..][i], n)
    {
      assert ms[..k] + ms[k..][..i] == ms[..k + i];
      RunConcat(cfg, s, ms[..k], ms[k..][..i]);
    }
  }

  /** The uid of an agent stored under a name that was free is a new one. */
  lemma {:induction false} StoredSince(cfg: Config, s0: State, ms: seq<Move>, n: string)
    requires Safe(cfg, s0) && n !in s0.store.agents && n in Run(cfg, s0, ms).store.agents
    ensures Run(cfg, s0, ms).store.agents[n].agent.uid !in s0.origin
  {
    hide Apply;
    var before, m := ms[..|ms| - 1], ms[|ms| - 1];
    var s := Run(cfg, s0, before);
    SafeRun(cfg, s0, before);
    UidFrom(cfg, s, m, n);
    if n in s.store.agents {
      StoredSince(cfg, s0, before, n);
    }
  }

  lemma UidFrom(cfg: Config, s: State, m: Move, n: string)
    requires Safe(cfg, s) && n in Apply(cfg, s, m).store.agents
    ensures
      var u := Apply(cfg, s, m).store.agents[n].agent.uid;
      if n in s.store.agents then u == s.store.agents[n].agent.uid else u == s.store.nextUid && u !in s.origin
  {
    AgentMoves(cfg, s, m);
    if HandlerTicks(s, m) {
      HandlerStores(s, m, n);
    }
  }

  /** Exactly one uid was handed out for `n` since `was`, and the stored agent has it. */
  ghost predicate ExactlyOneSince(was: map<nat, Agent>, s: State, n: string) {
    && n in s.store.agents
    && var u := s.store.agents[n].agent.uid;
       && u in s.origin && u !in was && s.origin[u].name == n
       && forall v | v in s.origin && v !in was && s.origin[v].name == n :: v == u
  }

  lemma DecidedStaysStored(cfg: Config, s: State, ms: seq<Move>, n: string, k: nat)
    requires NeverDeletes(cfg, s, ms, n)
    requires k < |ms| && Decides(cfg, Run(cfg, s, ms[..k]), ms[k], n)
    ensures n in Run(cfg, s, ms).store.agents
  {
    hide Apply, Decides, NeverDeletes, Run;
    RunNext(cfg, s, ms, k);
    DecidedIsStored(cfg, Run(cfg, s, ms[..k]), ms[k], n);
    NeverAfter(cfg, s, ms, k + 1, n);
    StaysStored(cfg, Run(cfg, s, ms[..k + 1]), ms[k + 1..], n);
    RunConcat(cfg, s, ms[..k + 1], ms[k + 1..]);
    assert ms[..k + 1] + ms[k + 1..] == ms;
  }

  /** Once any creation of a free name has been answered, and as long as the name is
      not deleted, exactly one creation has taken effect, however many others are
      interleaved with it, refused, or left without an answer. */
  lemma ExactlyOneTakesEffect(cfg: Config, s0: State, ms: seq<Move>, n: string, k: nat)
    requires Safe(cfg, s0) && n !in s0.store.agents && NeverDeletes(cfg, s0, ms, n)
    requires k < |ms| && Decides(cfg, Run(cfg, s0, ms[..k]), ms[k], n)
    ensures ExactlyOneSince(s0.origin, Run(cfg, s0, ms), n)
  {
    hide Run, Decides, Safe, NeverDeletes;
    DecidedStaysStored(cfg, s0, ms, n, k);
    StoredSince(cfg, s0, ms, n);
    OneSinceRun(cfg, s0, ms, n);
    SafeRun(cfg, s0, ms);
    StoredLikeItsOrigin(cfg, Run(cfg, s0, ms), n);
  }

  lemma DecidedIsStored(cfg: Config, s: State, m: Move, n: string)
    requires Decides(cfg, s, m, n)
    ensures n in Apply(cfg, s, m).store.agents
  {
    AgentMoves(cfg, s, m);
    DecidedMeansStored(cfg, s, m, n);
  }

  /** No creation of `n` takes effect without its caller hearing of it. */
  ghost predicate NoneLost(cfg: Config, s: State, ms: seq<Move>, n: string) {
    forall i | 0 <= i < |ms| :: !LosesCreation(Run(cfg, s, ms[..i]), ms[i], n)
  }

  predicate LosesCreation(s: State, m: Move, n: string) {
    Creates(s, m) && s.handlers[m.id].name == n && m.reply.Lost?
  }

  predicate WonBy(handlers: map<nat, Handler>, id: nat, u: nat) {
    id in handlers && handlers[id].won == Some(u)
  }

  lemma WinsStay(cfg: Config, s: State, m: Move, id: nat, u: nat)
    requires Safe(cfg, s) && Winners(s.handlers, s.origin) && WonBy(s.handlers, id, u)
    ensures WonBy(HandlersAfter(cfg, s, m), id, u)
  {
    if HandlerTicks(s, m) && m.id == id {
      HandlerNextWins(cfg, s, m);
    }
  }

  lemma CreatorWins(cfg: Config, s: State, m: Move)
    requires Creates(s, m) && !m.reply.Lost?
    ensures WonBy(HandlersAfter(cfg, s, m), m.id, s.store.nextUid)
  {
  }

  lemma {:induction false} SomeoneWon(cfg: Config, s0: State, ms: seq<Move>, n: string, u: nat) returns (id: nat)
    requires Safe(cfg, s0) && Winners(s0.handlers, s0.origin) && NoneLost(cfg, s0, ms, n)
    requires u !in s0.origin && u in Run(cfg, s0, ms).origin && Run(cfg, s0, ms).origin[u].name == n
    ensures WonBy(Run(cfg, s0, ms).handlers, id, u)
  {
    hide Apply, Safe, Winners, LosesCreation, WonBy;
    var before, m := ms[..|ms| - 1], ms[|ms| - 1];
    var s := Run(cfg, s0, before);
    SafeRun(cfg, s0, before);
    WinnersRun(cfg, s0, before);
    assert !LosesCreation(s, m, n);
    forall i | 0 <= i < |before|
      ensures !LosesCreation(Run(cfg, s0, before[..i]), before[i], n)
    {
      assert before[..i] == ms[..i];
    }
    if u in s.origin {
      KnownKeepsName(cfg, s, m, u);
      id := SomeoneWon(cfg, s0, before, n, u);
      WinsStay(cfg, s, m, id, u);
    } else {
      id := NewUidIsWon(cfg, s, m, n, u);
    }
    AppliedHandlers(cfg, s, m);
  }

  lemma AppliedHandlers(cfg: Config, s: State, m: Move)
    ensures Apply(cfg, s, m).handlers == HandlersAfter(cfg, s, m)
  {
    hide StoreAfter, HandlersAfter;
  }

  lemma KnownKeepsName(cfg: Config, s: State, m: Move, u: nat)
    requires Safe(cfg, s) && u in s.origin && u in Apply(cfg, s, m).origin
    ensures Apply(cfg, s, m).origin[u] == s.origin[u]
  {
    HistoryMoves(cfg, s, m);
  }

  lemma NewUidIsWon(cfg: Config, s: State, m: Move, n: string, u: nat) returns (id: nat)
    requires u !in s.origin && u in Apply(cfg, s, m).origin && Apply(cfg, s, m).origin[u].name == n
    requires !LosesCreation(s, m, n)
    ensures WonBy(HandlersAfter(cfg, s, m), id, u)
  {
    HistoryMoves(cfg, s, m);
    CreatorWins(cfg, s, m);
    id := m.id;
  }

  /** And if no answer to a successful creation is lost, exactly one caller has won:
      the one whose agent is stored. */
  lemma ExactlyOneWins(cfg: Config, s0: State, ms: seq<Move>, n: string, k: nat)
    requires Safe(cfg, s0) && Winners(s0.handlers, s0.origin)
    requires n !in s0.store.agents && NeverDeletes(cfg, s0, ms, n) && NoneLost(cfg, s0, ms, n)
    requires k < |ms| && Decides(cfg, Run(cfg, s0, ms[..k]), ms[k], n)
    ensures
      var s := Run(cfg, s0, ms);
      && n in s.store.agents
      && var u := s.store.agents[n].agent.uid;
         && (exists id :: WonBy(s.handlers, id, u))
         && (forall i, j | WonBy(s.handlers, i, u) && WonBy(s.handlers, j, u) :: i == j)
         && (forall i | WonBy(s.handlers, i, u) ::
               s.handlers[i].name == n && s.handlers[i].call.Create?
               && SameButState(s.store.agents[n].agent, Agent(n, u, s.handlers[i].call.spec)))
  {
    hide Apply, Decides, Safe, NeverDeletes, NoneLost;
    ExactlyOneTakesEffect(cfg, s0, ms, n, k);
    var s := Run(cfg, s0, ms);
    var id := SomeoneWon(cfg, s0, ms, n, s.store.agents[n].agent.uid);
    WinnersRun(cfg, s0, ms);
    SafeRun(cfg, s0, ms);
    StoredLikeItsOrigin(cfg, s, n);
  }

  lemma StoredLikeItsOrigin(cfg: Config, s: State, n: string)
    requires Safe(cfg, s) && n in s.store.agents
    ensures
      var a := s.store.agents[n].agent;
      a.uid in s.origin && s.origin[a.uid].name == n && SameButState(a, s.origin[a.uid])
  {
    LiveBuilds(cfg, s, n);
  }
}
