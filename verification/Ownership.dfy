/** What the ownership invariants mean for a live agent: its children are exactly
    its own builds although the operator compares three fields only, and nothing
    of a deleted agent can hide from garbage collection. */
module Ownership {
  import opened Wrappers
  import opened Crd
  import opened Resources
  import opened ApiServer
  import opened Reconciler
  import opened System
  import opened Safety

  lemma InitIsSafe(cfg: Config)
    ensures Safe(cfg, INIT)
  {
  }

  /** Every state the platform can reach is safe. */
  lemma ReachableIsSafe(cfg: Config, ms: seq<Move>)
    ensures Safe(cfg, Run(cfg, INIT, ms))
  {
    InitIsSafe(cfg);
    SafeRun(cfg, INIT, ms);
  }

  /** The agent values that belong to a live uid are all built alike. */
  lemma LiveBuilds(cfg: Config, s: State, n: string)
    requires Recorded(s) && n in s.store.agents
    ensures
      var a := s.store.agents[n].agent;
      && a.name == n && a.uid in s.origin && s.origin[a.uid].name == n && SameButState(a, s.origin[a.uid])
      && OwnerReference(a) == OwnerReference(s.origin[a.uid])
      && BuildPvc(cfg, a) == BuildPvc(cfg, s.origin[a.uid])
      && BuildPod(cfg, a) == BuildPod(cfg, s.origin[a.uid])
      && BuildNetworkPolicy(cfg, a) == BuildNetworkPolicy(cfg, s.origin[a.uid])
      && BuildService(cfg, a) == BuildService(cfg, s.origin[a.uid])
  {
    BuildersIgnoreState(cfg, s.store.agents[n].agent, s.origin[s.store.agents[n].agent.uid]);
  }

  predicate OwnedBy(meta: Meta, a: Agent) {
    meta.owners == [OwnerReference(a)]
  }

  /** In every safe state, whatever of a live agent's objects exists and is owned by
      it equals the full build of the agent as it is stored now. A pod is
      compared as admitted, without status, node and deletion mark; a service
      without the allocated node ports. */
  lemma OwnChildrenAreCurrent(cfg: Config, s: State, n: string)
    requires Safe(cfg, s) && n in s.store.agents
    ensures
      var st := s.store;
      var a := st.agents[n].agent;
      && (forall k | k in st.pvcs && OwnedBy(st.pvcs[k].meta, a) ::
            k == PvcName(n) && st.pvcs[k] == AdmitPvc(cfg, BuildPvc(cfg, a)))
      && (forall k | k in st.policies && OwnedBy(st.policies[k].meta, a) ::
            k == PolicyName(n) && st.policies[k] == BuildNetworkPolicy(cfg, a))
      && (forall k | k in st.services && OwnedBy(st.services[k].meta, a) ::
            k == ServiceName(n) && Unallocated(st.services[k]) == BuildService(cfg, a))
      && (forall k | k in st.pods && OwnedBy(st.pods[k].meta, a) ::
            k == PodName(n) && Bare(st.pods[k]) == Bare(Admit(cfg, BuildPod(cfg, a))))
  {
    LiveBuilds(cfg, s, n);
  }

  /** The API server keeps both limit strings of the agent as they are. */
  predicate KeepsLimits(cfg: Config, spec: AgentSpec) {
    cfg.canon(spec.cpu) == spec.cpu && cfg.canon(spec.memory) == spec.memory
  }

  /** The API server leaves the agent's limits alone, or there is no pod to compare
      them with. */
  predicate Attainable(cfg: Config, a: Agent) {
    a.spec.state.Stopped? || KeepsLimits(cfg, a.spec)
  }

  /** A pod that looks like the agent's admitted build counts as drifted iff the
      API server rewrote one of its limits. */
  lemma DriftIff(cfg: Config, a: Agent, pod: Pod)
    requires Bare(pod) == Bare(Admit(cfg, BuildPod(cfg, a)))
    ensures PodNeedsUpdate(pod, a) <==> !KeepsLimits(cfg, a.spec)
  {
    var stored := Admit(cfg, BuildPod(cfg, a));
    assert stored.spec.value.containers == [AdmitContainer(cfg, BuildContainer(cfg, a.spec))];
    assert pod.spec.value.containers == stored.spec.value.containers;
    LimitsIff(cfg, a);
  }

  lemma LimitsIff(cfg: Config, a: Agent)
    ensures
      var c := AdmitContainer(cfg, BuildContainer(cfg, a.spec));
      var limits := c.resources.value.limits;
      && c.image == Some(a.spec.image) && limits.Some?
      && limits.value == map["cpu" := cfg.canon(a.spec.cpu), "memory" := cfg.canon(a.spec.memory)]
      && (Lookup(limits.value, "cpu") == Some(a.spec.cpu) && Lookup(limits.value, "memory") == Some(a.spec.memory)
          <==> KeepsLimits(cfg, a.spec))
  {
    var limits := AdmitContainer(cfg, BuildContainer(cfg, a.spec)).resources.value.limits.value;
    assert limits == map["cpu" := cfg.canon(a.spec.cpu), "memory" := cfg.canon(a.spec.memory)];
  }

  /** In the closed system the three-field check decides drift exactly: an agent's
      own pod is replaced iff admission rewrote one of its limits, and when it is
      not replaced every other field is up to date too. */
  lemma DriftCheckIsSound(cfg: Config, s: State, n: string, k: string)
    requires Safe(cfg, s)
    requires n in s.store.agents && k in s.store.pods && OwnedBy(s.store.pods[k].meta, s.store.agents[n].agent)
    ensures
      var st := s.store;
      var a := st.agents[n].agent;
      && Bare(st.pods[k]) == Bare(Admit(cfg, BuildPod(cfg, a)))
      && (PodNeedsUpdate(st.pods[k], a) <==> !KeepsLimits(cfg, a.spec))
  {
    OwnChildrenAreCurrent(cfg, s, n);
    DriftIff(cfg, s.store.agents[n].agent, s.store.pods[k]);
  }

  /** Every pod ever stored mounts the claim of its own agent, at the agent's
      mount path. */
  lemma PodsMountTheirClaim(cfg: Config, s: State, k: string)
    requires Safe(cfg, s) && k in s.store.pods
    ensures
      var pod := s.store.pods[k];
      && Owned(s.origin, pod.meta)
      && var a := Owner(s.origin, pod.meta);
         && pod.spec.Some?
         && pod.spec.value.volumes == [Volume("agent-data", Claim(PvcName(a.name), false)), Volume("tmp", EmptyDir)]
         && |pod.spec.value.containers| == 1
         && VolumeMount("agent-data", a.spec.volumeMount) in pod.spec.value.containers[0].volumeMounts
  {
    var a := Owner(s.origin, s.store.pods[k].meta);
    var mounts := BuildContainer(cfg, a.spec).volumeMounts;
    assert mounts[0] == VolumeMount("agent-data", a.spec.volumeMount);
    assert Bare(s.store.pods[k]).spec.value.volumes == BuildPod(cfg, a).spec.value.volumes;
    assert Bare(s.store.pods[k]).spec.value.containers[0].volumeMounts == mounts;
  }

  // ---------------------------------------------------------------------
  // Nothing is orphaned
  // ---------------------------------------------------------------------

  /** No object is waiting to be garbage collected. */
  ghost predicate Quiescent(st: Store) {
    && (forall k | k in st.pvcs :: !Collectable(st, st.pvcs[k].meta))
    && (forall k | k in st.policies :: !Collectable(st, st.policies[k].meta))
    && (forall k | k in st.services :: !Collectable(st, st.services[k].meta))
    && (forall k | k in st.pods :: !Collectable(st, st.pods[k].meta))
  }

  /** An object of a safe state is collectable iff its owner is no longer
      the agent stored under its name. */
  lemma CollectableIffOwnerGone(s: State, meta: Meta)
    requires Recorded(s) && Owned(s.origin, meta)
    ensures
      var a := Owner(s.origin, meta);
      Collectable(s.store, meta)
      <==> !(a.name in s.store.agents && s.store.agents[a.name].agent.uid == a.uid)
  {
    assert meta.owners[0] in meta.owners;
  }

  /** Belongs to the agent stored right now under the name the object carries. */
  predicate OfCurrentAgent(s: State, meta: Meta, k: string, name: string -> string) {
    && Owned(s.origin, meta)
    && var n := Owner(s.origin, meta).name;
       k == name(n) && n in s.store.agents && OwnedBy(meta, s.store.agents[n].agent)
  }

  lemma CurrentUnlessCollectable(s: State, meta: Meta, k: string, name: string -> string)
    requires Recorded(s) && Owned(s.origin, meta) && k == name(Owner(s.origin, meta).name)
    requires !Collectable(s.store, meta)
    ensures OfCurrentAgent(s, meta, k, name)
  {
    CollectableIffOwnerGone(s, meta);
  }

  /** Once garbage collection has caught up, every object belongs to the agent
      that currently has the name, even if the name was reused and stale
      reconciles kept creating objects for its former holders. */
  lemma QuiescentMeansCurrent(cfg: Config, s: State)
    requires Safe(cfg, s) && Quiescent(s.store)
    ensures
      && (forall k | k in s.store.pvcs :: OfCurrentAgent(s, s.store.pvcs[k].meta, k, PvcName))
      && (forall k | k in s.store.policies :: OfCurrentAgent(s, s.store.policies[k].meta, k, PolicyName))
      && (forall k | k in s.store.services :: OfCurrentAgent(s, s.store.services[k].meta, k, ServiceName))
      && (forall k | k in s.store.pods :: OfCurrentAgent(s, s.store.pods[k].meta, k, PodName))
  {
    forall k | k in s.store.pvcs
      ensures OfCurrentAgent(s, s.store.pvcs[k].meta, k, PvcName)
    {
      CurrentUnlessCollectable(s, s.store.pvcs[k].meta, k, PvcName);
    }
    forall k | k in s.store.policies
      ensures OfCurrentAgent(s, s.store.policies[k].meta, k, PolicyName)
    {
      CurrentUnlessCollectable(s, s.store.policies[k].meta, k, PolicyName);
    }
    forall k | k in s.store.services
      ensures OfCurrentAgent(s, s.store.services[k].meta, k, ServiceName)
    {
      CurrentUnlessCollectable(s, s.store.services[k].meta, k, ServiceName);
    }
    forall k | k in s.store.pods
      ensures OfCurrentAgent(s, s.store.pods[k].meta, k, PodName)
    {
      CurrentUnlessCollectable(s, s.store.pods[k].meta, k, PodName);
    }
  }
}
