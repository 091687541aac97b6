/** An agent's data volume survives everything but the deletion of the agent. */
module Data {
  import opened Resources
  import opened ApiServer
  import opened Reconciler
  import opened System
  import opened Effects
  import opened Safety
  import opened Ownership

  predicate LiveAs(agents: map<string, Stored>, n: string, u: nat) {
    n in agents && agents[n].agent.uid == u
  }

  /** The agent that has this uid holds its claim. */
  predicate HasClaim(pvcs: map<string, Pvc>, n: string, u: nat) {
    PvcName(n) in pvcs && |pvcs[PvcName(n)].meta.owners| == 1 && pvcs[PvcName(n)].meta.owners[0].uid == u
  }

  // ---------------------------------------------------------------------
  // A uid that is gone stays gone
  // ---------------------------------------------------------------------

  lemma NoResurrection(cfg: Config, s: State, m: Move, n: string, u: nat)
    requires Recorded(s) && u in s.origin && LiveAs(StoreAfter(cfg, s, m).agents, n, u)
    ensures LiveAs(s.store.agents, n, u)
  {
    AgentMoves(cfg, s, m);
    if HandlerTicks(s, m) {
      HandlerStores(s, m, n);
    }
  }

  // ---------------------------------------------------------------------
  // The claim stays
  // ---------------------------------------------------------------------

  lemma OwnerIsLive(s: State, n: string, u: nat, meta: Meta)
    requires VersionsKnown(s.versions, s.origin) && AgentsKnown(s.store.agents, s.versions)
    requires LiveAs(s.store.agents, n, u) && Owned(s.origin, meta) && meta.owners[0].uid == u
    ensures !Collectable(s.store, meta)
  {
    assert SameButState(s.store.agents[n].agent, s.origin[u]);
    assert OwnerLives(s.store, meta.owners[0]);
  }

  /** The only move that removes a claim is its collection. */
  lemma ClaimRemoval(cfg: Config, s: State, m: Move, k: string)
    requires k in s.store.pvcs && !Collectable(s.store, s.store.pvcs[k].meta)
    ensures k in PvcsAfter(cfg, s, m) && PvcsAfter(cfg, s, m)[k] == s.store.pvcs[k]
  {
  }

  lemma ClaimStays(cfg: Config, s: State, m: Move, n: string, u: nat)
    requires Safe(cfg, s) && LiveAs(s.store.agents, n, u) && HasClaim(s.store.pvcs, n, u)
    ensures PvcName(n) in PvcsAfter(cfg, s, m)
    ensures PvcsAfter(cfg, s, m)[PvcName(n)] == s.store.pvcs[PvcName(n)]
  {
    OwnerIsLive(s, n, u, s.store.pvcs[PvcName(n)].meta);
    ClaimRemoval(cfg, s, m, PvcName(n));
  }

  /** Once the agent with uid `u` has its claim, the very same claim is there for
      as long as the agent is: through stops, starts, restarts, pod replacements,
      failures and stale reconciles. */
  lemma {:induction false} DataSurvives(cfg: Config, s: State, ms: seq<Move>, n: string, u: nat)
    requires Safe(cfg, s) && u in s.origin && HasClaim(s.store.pvcs, n, u)
    requires LiveAs(Run(cfg, s, ms).store.agents, n, u)
    ensures HasClaim(Run(cfg, s, ms).store.pvcs, n, u)
    ensures Run(cfg, s, ms).store.pvcs[PvcName(n)] == s.store.pvcs[PvcName(n)]
  {
    if ms != [] {
      var before := ms[..|ms| - 1];
      var mid := Run(cfg, s, before);
      SafeRun(cfg, s, before);
      assert Run(cfg, s, ms) == Apply(cfg, mid, ms[|ms| - 1]);
      NoResurrection(cfg, mid, ms[|ms| - 1], n, u);
      DataSurvives(cfg, s, before, n, u);
      ClaimStays(cfg, mid, ms[|ms| - 1], n, u);
      PvcMoves(cfg, mid, ms[|ms| - 1]);
    }
  }

  // ---------------------------------------------------------------------
  // The claim is created once
  // ---------------------------------------------------------------------

  /** For a live agent the claims ever made for its uid are counted by whether it
      has its claim now; no claim is ever made for a uid not handed out yet. */
  ghost predicate ClaimsCounted(s: State) {
    && (forall u | u !in s.origin :: s.claimsMade[u] == 0)
    && (forall n | n in s.store.agents ::
          s.claimsMade[s.store.agents[n].agent.uid]
          == if HasClaim(s.store.pvcs, n, s.store.agents[n].agent.uid) then 1 else 0)
  }

  lemma ClaimIsForTheSnapshot(cfg: Config, s: State, m: Move)
    ensures
      ClaimMade(cfg, s, m) != multiset{} ==>
        && RecActs(s, m, PvcCreate)
        && var a := s.recs[m.id].agent;
           && ClaimMade(cfg, s, m) == multiset{a.uid}
           && PvcName(a.name) !in s.store.pvcs
           && PvcsAfter(cfg, s, m) == s.store.pvcs[PvcName(a.name) := AdmitPvc(cfg, BuildPvc(cfg, a))]
    ensures
      ClaimMade(cfg, s, m) == multiset{} ==>
        PvcsAfter(cfg, s, m) == s.store.pvcs || (m.GcPvc? && PvcsAfter(cfg, s, m) == CollectPvc(s.store, m.key).pvcs)
  {
    if RecTicks(s, m) && s.recs[m.id].pc.PvcCreate? && !m.reply.Refused?
       && PvcName(s.recs[m.id].agent.name) !in s.store.pvcs {
      assert s.recs[m.id].agent.uid in ClaimMade(cfg, s, m);
    }
  }

  /** The count of one agent that is live before and after the move. */
  lemma CountStep(cfg: Config, s: State, m: Move, n: string, u: nat)
    requires Safe(cfg, s) && ClaimsCounted(s) && LiveAs(s.store.agents, n, u)
    ensures
      s.claimsMade[u] + ClaimMade(cfg, s, m)[u]
      == if HasClaim(PvcsAfter(cfg, s, m), n, u) then 1 else 0
  {
    hide BuildPod, BuildNetworkPolicy, BuildService, PvcName;
    ClaimIsForTheSnapshot(cfg, s, m);
    LiveBuilds(cfg, s, n);
    if HasClaim(s.store.pvcs, n, u) {
      ClaimStays(cfg, s, m, n, u);
    }
    if ClaimMade(cfg, s, m) != multiset{} {
      var a := s.recs[m.id].agent;
      NamesInjective(a.name, n);
      SnapshotBuilds(cfg, s, m.id);
      assert BuildPvc(cfg, a).meta.owners[0].uid == a.uid;
    }
  }

  lemma NewAgentHasNoClaim(cfg: Config, s: State, m: Move)
    requires Safe(cfg, s) && ClaimsCounted(s) && Creates(s, m)
    ensures
      var a := NewAgent(s, m);
      ClaimMade(cfg, s, m) == multiset{} && s.claimsMade[a.uid] == 0 && !HasClaim(PvcsAfter(cfg, s, m), a.name, a.uid)
  {
  }

  lemma AgentCountStep(cfg: Config, s: State, m: Move, n: string)
    requires Safe(cfg, s) && ClaimsCounted(s) && n in AgentsAfter(s, m)
    ensures
      var u := AgentsAfter(s, m)[n].agent.uid;
      s.claimsMade[u] + ClaimMade(cfg, s, m)[u] == if HasClaim(PvcsAfter(cfg, s, m), n, u) then 1 else 0
  {
    if HandlerTicks(s, m) {
      HandlerStores(s, m, n);
    }
    if LiveAs(s.store.agents, n, AgentsAfter(s, m)[n].agent.uid) {
      CountStep(cfg, s, m, n, AgentsAfter(s, m)[n].agent.uid);
    } else {
      NewAgentHasNoClaim(cfg, s, m);
    }
  }

  lemma UnusedUidsStayUncounted(cfg: Config, s: State, m: Move, u: nat)
    requires Recorded(s) && ClaimsCounted(s) && u !in OriginAfter(cfg, s, m)
    ensures s.claimsMade[u] + ClaimMade(cfg, s, m)[u] == 0
  {
    HistoryMoves(cfg, s, m);
    ClaimIsForTheSnapshot(cfg, s, m);
    if RecTicks(s, m) {
      SnapshotBuilds(cfg, s, m.id);
    }
  }

  lemma ClaimsCountedStep(cfg: Config, s: State, m: Move)
    requires Safe(cfg, s) && ClaimsCounted(s)
    ensures ClaimsCounted(Apply(cfg, s, m))
  {
    AgentMoves(cfg, s, m);
    PvcMoves(cfg, s, m);
    forall u | u !in OriginAfter(cfg, s, m)
      ensures s.claimsMade[u] + ClaimMade(cfg, s, m)[u] == 0
    {
      UnusedUidsStayUncounted(cfg, s, m, u);
    }
    forall n | n in AgentsAfter(s, m)
      ensures
        var u := AgentsAfter(s, m)[n].agent.uid;
        s.claimsMade[u] + ClaimMade(cfg, s, m)[u] == if HasClaim(PvcsAfter(cfg, s, m), n, u) then 1 else 0
    {
      AgentCountStep(cfg, s, m, n);
    }
  }

  lemma {:induction false} ReachableClaimsCounted(cfg: Config, ms: seq<Move>)
    ensures ClaimsCounted(Run(cfg, INIT, ms))
  {
    if ms != [] {
      ReachableIsSafe(cfg, ms[..|ms| - 1]);
      ReachableClaimsCounted(cfg, ms[..|ms| - 1]);
      ClaimsCountedStep(cfg, Run(cfg, INIT, ms[..|ms| - 1]), ms[|ms| - 1]);
    }
  }

  /** While an agent is live its claim is created at most once: exactly once if it
      has a claim, never if it has none yet. */
  lemma ClaimCreatedOnce(cfg: Config, ms: seq<Move>, n: string)
    requires n in Run(cfg, INIT, ms).store.agents
    ensures
      var s := Run(cfg, INIT, ms);
      var u := s.store.agents[n].agent.uid;
      s.claimsMade[u] == if HasClaim(s.store.pvcs, n, u) then 1 else 0
  {
    ReachableClaimsCounted(cfg, ms);
  }
}
