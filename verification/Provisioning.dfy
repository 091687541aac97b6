/** A published status means the agent is provisioned: as long as a name has had
    only one agent and that agent has not been deleted, its claim, network policy
    and service exist from the moment a status is first visible. */
module Provisioning {
  import opened Json
  import opened Crd
  import opened Resources
  import opened ApiServer
  import opened Reconciler
  import opened Sse
  import opened System
  import opened Effects
  import opened Safety
  import opened Ownership
  import opened Data

  /** `u` is the only uid ever handed out under the name `n`. */
  ghost predicate Sole(origin: map<nat, Agent>, n: string, u: nat) {
    u in origin && origin[u].name == n && forall v | v in origin && origin[v].name == n :: v == u
  }

  predicate Backed(st: Store, n: string, pc: Pc) {
    && (ClaimDone(pc) ==> PvcName(n) in st.pvcs)
    && (PolicyDone(pc) ==> PolicyName(n) in st.policies)
    && (ServiceDone(pc) ==> ServiceName(n) in st.services)
  }

  predicate AllThere(st: Store, n: string) {
    PvcName(n) in st.pvcs && PolicyName(n) in st.policies && ServiceName(n) in st.services
  }

  /** What a reconcile has passed exists, and a written status means everything
      does. */
  ghost predicate Provisioned(s: State, n: string) {
    && (forall id | id in s.recs && s.recs[id].agent.name == n :: Backed(s.store, n, s.recs[id].pc))
    && (n in s.store.agents && s.store.agents[n].status != Null ==> AllThere(s.store, n))
  }

  ghost predicate AllProvisioned(s: State) {
    forall n, u | Sole(s.origin, n, u) && LiveAs(s.store.agents, n, u) :: Provisioned(s, n)
  }

  // ---------------------------------------------------------------------
  // What exists stays
  // ---------------------------------------------------------------------

  lemma ClaimRemains(cfg: Config, s: State, m: Move, n: string, u: nat)
    requires Safe(cfg, s) && Sole(s.origin, n, u) && LiveAs(s.store.agents, n, u) && PvcName(n) in s.store.pvcs
    ensures PvcName(n) in StoreAfter(cfg, s, m).pvcs
  {
    var meta := s.store.pvcs[PvcName(n)].meta;
    NamesInjective(Owner(s.origin, meta).name, n);
    OwnerIsLive(s, n, u, meta);
    PvcMoves(cfg, s, m);
    ClaimRemoval(cfg, s, m, PvcName(n));
  }

  lemma PolicyRemoval(cfg: Config, s: State, m: Move, k: string)
    requires k in s.store.policies && !Collectable(s.store, s.store.policies[k].meta)
    ensures k in PoliciesAfter(cfg, s, m)
  {
  }

  lemma PolicyRemains(cfg: Config, s: State, m: Move, n: string, u: nat)
    requires Safe(cfg, s) && Sole(s.origin, n, u) && LiveAs(s.store.agents, n, u)
    requires PolicyName(n) in s.store.policies
    ensures PolicyName(n) in StoreAfter(cfg, s, m).policies
  {
    var meta := s.store.policies[PolicyName(n)].meta;
    NamesInjective(Owner(s.origin, meta).name, n);
    OwnerIsLive(s, n, u, meta);
    PolicyMoves(cfg, s, m);
    PolicyRemoval(cfg, s, m, PolicyName(n));
  }

  lemma ServiceRemoval(cfg: Config, s: State, m: Move, k: string)
    requires k in s.store.services && !Collectable(s.store, s.store.services[k].meta)
    ensures k in ServicesAfter(cfg, s, m)
  {
  }

  lemma ServiceRemains(cfg: Config, s: State, m: Move, n: string, u: nat)
    requires Safe(cfg, s) && Sole(s.origin, n, u) && LiveAs(s.store.agents, n, u)
    requires ServiceName(n) in s.store.services
    ensures ServiceName(n) in StoreAfter(cfg, s, m).services
  {
    var meta := s.store.services[ServiceName(n)].meta;
    NamesInjective(Owner(s.origin, meta).name, n);
    OwnerIsLive(s, n, u, meta);
    ServiceMoves(cfg, s, m);
    ServiceRemoval(cfg, s, m, ServiceName(n));
  }

  /** What stood before the move stands after it. */
  predicate Kept(was: Store, now: Store, n: string) {
    && (PvcName(n) in was.pvcs ==> PvcName(n) in now.pvcs)
    && (PolicyName(n) in was.policies ==> PolicyName(n) in now.policies)
    && (ServiceName(n) in was.services ==> ServiceName(n) in now.services)
  }

  lemma AllRemain(cfg: Config, s: State, m: Move, n: string, u: nat)
    requires Safe(cfg, s) && Sole(s.origin, n, u) && LiveAs(s.store.agents, n, u)
    ensures Kept(s.store, StoreAfter(cfg, s, m), n)
  {
    if PvcName(n) in s.store.pvcs {
      ClaimRemains(cfg, s, m, n, u);
    }
    if PolicyName(n) in s.store.policies {
      PolicyRemains(cfg, s, m, n, u);
    }
    if ServiceName(n) in s.store.services {
      ServiceRemains(cfg, s, m, n, u);
    }
  }

  // ---------------------------------------------------------------------
  // Progress is backed by what exists
  // ---------------------------------------------------------------------

  /** One request of a reconcile: what it lets the program pass, it found or made. */
  lemma ProgressIsBacked(cfg: Config, rec: Rec, st: Store, reply: Reply)
    requires !Halted(rec) && Backed(st, rec.agent.name, rec.pc)
    requires Kept(st, Perform(cfg, st, NextOp(cfg, rec), reply).0, rec.agent.name)
    ensures
      var (st', resp) := Perform(cfg, st, NextOp(cfg, rec), reply);
      Backed(st', rec.agent.name, NextPc(rec, resp))
  {
    match rec.pc
    case PvcGet =>
    case PvcCreate =>
    case StopGet =>
    case StopDelete =>
    case PodGet =>
    case PodDelete =>
    case PodRecreate =>
    case PodCreate =>
    case PolicyGet =>
    case PolicyCreate =>
    case ServiceGet =>
    case ServiceCreate =>
    case StatusPod =>
    case StatusService(_) =>
    case StatusPatch(_) =>
  }

  lemma RecsBacked(cfg: Config, s: State, m: Move, n: string)
    requires Provisioned(s, n) && Kept(s.store, StoreAfter(cfg, s, m), n)
    ensures
      var recs := RecsAfter(cfg, s, m);
      forall id | id in recs && recs[id].agent.name == n :: Backed(StoreAfter(cfg, s, m), n, recs[id].pc)
  {
    if RecTicks(s, m) && s.recs[m.id].agent.name == n {
      ProgressIsBacked(cfg, s.recs[m.id], s.store, m.reply);
    }
  }

  lemma StatusBacked(cfg: Config, s: State, m: Move, n: string)
    requires Provisioned(s, n) && Kept(s.store, StoreAfter(cfg, s, m), n)
    requires n in s.store.agents && n in AgentsAfter(s, m) && AgentsAfter(s, m)[n].status != Null
    ensures AllThere(StoreAfter(cfg, s, m), n)
  {
    if Publishes(s, m) && s.recs[m.id].agent.name == n {
      assert Backed(s.store, n, s.recs[m.id].pc);
    } else {
      assert AgentsAfter(s, m)[n].status == s.store.agents[n].status;
    }
  }

  /** A name that never had an agent has no reconcile, and its first agent starts
      without a status. */
  lemma FirstOfItsName(cfg: Config, s: State, m: Move, n: string, u: nat)
    requires Safe(cfg, s) && Sole(OriginAfter(cfg, s, m), n, u) && u !in s.origin
    ensures Creates(s, m) && NewAgent(s, m).name == n && u == s.store.nextUid
    ensures AgentsAfter(s, m)[n].status == Null
    ensures forall id | id in RecsAfter(cfg, s, m) :: RecsAfter(cfg, s, m)[id].agent.name != n
  {
    HistoryMoves(cfg, s, m);
    OriginStep(cfg, s, m);
    forall id | id in RecsAfter(cfg, s, m)
      ensures RecsAfter(cfg, s, m)[id].agent.name != n
    {
      assert RecsAfter(cfg, s, m) == s.recs;
      assert s.recs[id].agent in s.versions;
    }
  }

  lemma SoleBefore(cfg: Config, s: State, m: Move, n: string, u: nat)
    requires Recorded(s) && Sole(OriginAfter(cfg, s, m), n, u) && u in s.origin
    ensures Sole(s.origin, n, u)
  {
    OriginStep(cfg, s, m);
  }

  lemma ProvisionedStep(cfg: Config, s: State, m: Move, n: string, u: nat)
    requires Safe(cfg, s) && AllProvisioned(s)
    requires Sole(OriginAfter(cfg, s, m), n, u) && LiveAs(StoreAfter(cfg, s, m).agents, n, u)
    ensures Provisioned(Apply(cfg, s, m), n)
  {
    hide OriginAfter, VersionsAfter, HandlersAfter, SawAfter, ClaimMade;
    AgentMoves(cfg, s, m);
    if u in s.origin {
      SoleBefore(cfg, s, m, n, u);
      NoResurrection(cfg, s, m, n, u);
      AllRemain(cfg, s, m, n, u);
      RecsBacked(cfg, s, m, n);
      if AgentsAfter(s, m)[n].status != Null {
        StatusBacked(cfg, s, m, n);
      }
    } else {
      FirstOfItsName(cfg, s, m, n, u);
    }
  }

  lemma {:induction false} ReachableProvisioned(cfg: Config, ms: seq<Move>)
    ensures AllProvisioned(Run(cfg, INIT, ms))
  {
    if ms != [] {
      var before, m := Run(cfg, INIT, ms[..|ms| - 1]), ms[|ms| - 1];
      ReachableIsSafe(cfg, ms[..|ms| - 1]);
      ReachableProvisioned(cfg, ms[..|ms| - 1]);
      forall n, u | Sole(OriginAfter(cfg, before, m), n, u) && LiveAs(StoreAfter(cfg, before, m).agents, n, u)
        ensures Provisioned(Apply(cfg, before, m), n)
      {
        ProvisionedStep(cfg, before, m, n, u);
      }
    }
  }

  /** Whoever reads a phase of an agent that was never deleted, under a name never
      used by another, finds its claim, network policy and service in place, at
      every point of every interleaving. */
  lemma PublishedImpliesProvisioned(cfg: Config, ms: seq<Move>, n: string, u: nat)
    requires
      var s := Run(cfg, INIT, ms);
      && Sole(s.origin, n, u) && LiveAs(s.store.agents, n, u)
      && SeenStatus(s.store.agents[n]).phase.Some?
    ensures AllThere(Run(cfg, INIT, ms).store, n)
  {
    ReachableProvisioned(cfg, ms);
  }
}
