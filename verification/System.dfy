/** The whole platform as one transition system: any number of reconciles and API
    requests in flight, the kubelet, the scheduler, garbage collection and node
    port allocation, interleaved in any order, every request to the API server
    able to fail. */
module System {
  import opened Wrappers
  import opened Crd
  import opened Resources
  import opened ApiServer
  import opened Reconciler
  import opened Sse

  /** Besides the store and the programs in flight, a state remembers some of the
      past: every agent value ever stored, the agent each uid was created with,
      how many claims were created for each uid, and the agents whose pod the
      operator has read as running without a crash loop. */
  datatype State = State(
    store: Store,
    recs: map<nat, Rec>,
    handlers: map<nat, Handler>,
    versions: set<Agent>,
    origin: map<nat, Agent>,
    claimsMade: multiset<nat>,
    sawRunning: set<string>)

  datatype Move =
    | RecStart(id: nat, agent: Agent)
    | RecTick(id: nat, reply: Reply)
    | Request(id: nat, call: Call, name: string)
    | HandlerTick(id: nat, reply: Reply)
    | HandlerTimeout(id: nat)
    | GcPvc(key: string)
    | GcPolicy(key: string)
    | GcService(key: string)
    | GcPod(key: string)
    | PodGone(key: string)
    | PodReport(key: string, status: PodStatus)
    | PodBind(key: string, node: string)
    | NodePorts(key: string, nodePorts: seq<Option<i32>>)

  const EMPTY_STORE := Store(map[], map[], map[], map[], map[], 0)

  const INIT := State(EMPTY_STORE, map[], map[], {}, map[], multiset{}, {})

  predicate Idle(recs: map<nat, Rec>, id: nat) {
    id !in recs || Halted(recs[id])
  }

  /** The store after a move of the environment. */
  function EnvStore(st: Store, m: Move): Store {
    match m
    case GcPvc(k) => CollectPvc(st, k)
    case GcPolicy(k) => CollectPolicy(st, k)
    case GcService(k) => CollectService(st, k)
    case GcPod(k) => CollectPod(st, k)
    case PodGone(k) => FinishPod(st, k)
    case PodReport(k, status) => ReportPod(st, k, status)
    case PodBind(k, node) => BindPod(st, k, node)
    case NodePorts(k, nodePorts) => AllocateNodePorts(st, k, nodePorts)
    case _ => st
  }

  predicate RecTicks(s: State, m: Move) {
    m.RecTick? && m.id in s.recs && !Halted(s.recs[m.id])
  }

  predicate HandlerTicks(s: State, m: Move) {
    m.HandlerTick? && m.id in s.handlers && Asking(s.handlers[m.id])
  }

  /** The operator reads `n`'s pod in this move and finds it running, with no
      container in a crash loop. */
  predicate ReadsRunning(s: State, m: Move, n: string) {
    && RecTicks(s, m)
    && m.reply.Delivered?
    && s.recs[m.id].pc.StatusPod?
    && s.recs[m.id].agent.name == n
    && PodName(n) in s.store.pods
    && PodPhase(s.store.pods[PodName(n)]) == Some("Running")
    && !CrashLooping(s.store.pods[PodName(n)])
  }

  /** The claim the move creates, if any, by the uid of its owner. */
  function ClaimMade(cfg: Config, s: State, m: Move): multiset<nat> {
    if RecTicks(s, m) && s.recs[m.id].pc.PvcCreate? && !m.reply.Refused?
       && PvcName(s.recs[m.id].agent.name) !in s.store.pvcs
    then multiset{s.recs[m.id].agent.uid}
    else multiset{}
  }

  /** The store after any move; what a program does to it is its next request. */
  function StoreAfter(cfg: Config, s: State, m: Move): Store {
    if RecTicks(s, m) then Perform(cfg, s.store, NextOp(cfg, s.recs[m.id]), m.reply).0
    else if HandlerTicks(s, m) then Perform(cfg, s.store, HandlerOp(s.handlers[m.id]), m.reply).0
    else EnvStore(s.store, m)
  }

  /** A move that is not enabled changes nothing. A reconcile may start on any
      version of any agent that was ever stored, however old: the operator works
      from a cache. */
  function RecsAfter(cfg: Config, s: State, m: Move): map<nat, Rec> {
    if RecTicks(s, m) then s.recs[m.id := Step(cfg, s.recs[m.id], s.store, m.reply).0]
    else if m.RecStart? && m.agent in s.versions && Idle(s.recs, m.id) then s.recs[m.id := Start(m.agent)]
    else s.recs
  }

  /** A polling handler may hit its deadline at any time. */
  function HandlersAfter(cfg: Config, s: State, m: Move): map<nat, Handler> {
    if HandlerTicks(s, m) then
      var h := s.handlers[m.id];
      s.handlers[m.id := HandlerNext(h, Perform(cfg, s.store, HandlerOp(h), m.reply).1)]
    else if m.Request? && m.id !in s.handlers then s.handlers[m.id := Open(m.call, m.name)]
    else if m.HandlerTimeout? && m.id in s.handlers && s.handlers[m.id].pc.Polling? then
      s.handlers[m.id := Finish(Expire(s.handlers[m.id]))]
    else s.handlers
  }

  /** The agents stored under the name a handler works on, before and after. */
  function VersionsAfter(cfg: Config, s: State, m: Move): set<Agent> {
    if HandlerTicks(s, m) then
      var n, agents := s.handlers[m.id].name, StoreAfter(cfg, s, m).agents;
      s.versions + (if n in agents then {agents[n].agent} else {})
    else s.versions
  }

  function OriginAfter(cfg: Config, s: State, m: Move): map<nat, Agent> {
    var st := StoreAfter(cfg, s, m);
    if HandlerTicks(s, m) && st.nextUid > s.store.nextUid && s.handlers[m.id].name in st.agents
    then s.origin[s.store.nextUid := st.agents[s.handlers[m.id].name].agent]
    else s.origin
  }

  function SawAfter(s: State, m: Move): set<string> {
    if RecTicks(s, m) && ReadsRunning(s, m, s.recs[m.id].agent.name)
    then s.sawRunning + {s.recs[m.id].agent.name}
    else s.sawRunning
  }

  function Apply(cfg: Config, s: State, m: Move): State {
    State(
      StoreAfter(cfg, s, m),
      RecsAfter(cfg, s, m),
      HandlersAfter(cfg, s, m),
      VersionsAfter(cfg, s, m),
      OriginAfter(cfg, s, m),
      s.claimsMade + ClaimMade(cfg, s, m),
      SawAfter(s, m))
  }

  function Run(cfg: Config, s: State, ms: seq<Move>): State
    decreases |ms|, 1
  {
    if ms == [] then s else LastApplied(cfg, s, ms)
  }

  /** The run's last move, applied to the run before it. */
  function LastApplied(cfg: Config, s: State, ms: seq<Move>): State
    requires ms != []
    decreases |ms|, 0
  {
    Apply(cfg, Run(cfg, s, ms[..|ms| - 1]), ms[|ms| - 1])
  }

  lemma RunNext(cfg: Config, s: State, ms: seq<Move>, k: nat)
    requires k < |ms|
    ensures Run(cfg, s, ms[..k + 1]) == Apply(cfg, Run(cfg, s, ms[..k]), ms[k])
  {
    hide Apply;
    assert ms[..k + 1][..k] == ms[..k];
  }

  lemma RunAppend(cfg: Config, s: State, ms: seq<Move>, m: Move)
    ensures Run(cfg, s, ms + [m]) == Apply(cfg, Run(cfg, s, ms), m)
  {
    hide Apply;
    assert (ms + [m])[..|ms|] == ms;
  }

  lemma {:induction false} RunConcat(cfg: Config, s: State, ms: seq<Move>, ns: seq<Move>)
    ensures Run(cfg, s, ms + ns) == Run(cfg, Run(cfg, s, ms), ns)
  {
    if ns == [] {
      assert ms + ns == ms;
    } else {
      RunConcat(cfg, s, ms, ns[..|ns| - 1]);
      assert (ms + ns)[..|ms + ns| - 1] == ms + ns[..|ns| - 1];
    }
  }
}
