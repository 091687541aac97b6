/** What the drift check amounts to in the stored pod's own fields, and what the
    operator does about a pod that does not carry its agent's spec. */
module Drift {
  import opened Wrappers
  import opened Crd
  import opened Resources
  import opened ApiServer
  import opened Reconciler
  import opened System
  import opened Ownership
  import opened Client
  import opened Controller
  import Convergence
  import Recovery

  predicate HasContainer(pod: Pod) {
    pod.spec.Some? && pod.spec.value.containers != []
  }

  function Limit(c: Container, k: string): Option<string> {
    if c.resources.Some? && c.resources.value.limits.Some? && k in c.resources.value.limits.value
    then Some(c.resources.value.limits.value[k])
    else None
  }

  /** The pod's first container has the spec's image and both its limits. */
  predicate Carries(pod: Pod, spec: AgentSpec)
    requires HasContainer(pod)
  {
    var c := pod.spec.value.containers[0];
    c.image == Some(spec.image) && Limit(c, "cpu") == Some(spec.cpu) && Limit(c, "memory") == Some(spec.memory)
  }

  /** A served read of the pod sends the reconcile of a running agent on to delete it
      exactly if it has a container and that does not carry the spec: another image,
      no resources or limits, a missing or another cpu or memory limit. Otherwise the
      pod is left as it is. */
  lemma ReadDecides(cfg: Config, s: State, id: nat, a: Agent)
    requires id in s.recs && s.recs[id] == Rec(a, PodGet) && PodName(a.name) in s.store.pods
    ensures
      var pod := s.store.pods[PodName(a.name)];
      var t := Apply(cfg, s, RecTick(id, Delivered));
      && t.store == s.store && id in t.recs
      && t.recs[id] == Rec(a, if HasContainer(pod) && !Carries(pod, a.spec) then PodDelete else PolicyGet)
  {
    hide OriginAfter, VersionsAfter, ClaimMade, HandlersAfter;
    ReadStep(cfg, a, s.store);
  }

  lemma ReadStep(cfg: Config, a: Agent, st: Store)
    requires PodName(a.name) in st.pods
    ensures
      var pod := st.pods[PodName(a.name)];
      Step(cfg, Rec(a, PodGet), st, Delivered)
      == (Rec(a, if HasContainer(pod) && !Carries(pod, a.spec) then PodDelete else PolicyGet), st)
  {
  }

  /** The deletion, when served, starts the pod's termination, and two seconds pass
      before its successor is created. */
  lemma DeletionWaits(cfg: Config, a: Agent, w: World)
    requires Upcoming(w).reply.Delivered? && PodName(a.name) in Upcoming(w).world(w.store).pods
    ensures
      var st := Upcoming(w).world(w.store);
      var (rec', w') := StepAt(cfg, Rec(a, PodDelete), w);
      && rec' == Rec(a, PodRecreate)
      && w'.store == st.(pods := st.pods[PodName(a.name) := st.pods[PodName(a.name)].(terminating := true)])
      && w'.now == w.now + Upcoming(w).elapsed + 2_000
  {
  }

  /** Replacement: a served run that finds such a pod, which goes within the two
      seconds, leaves the agent's new pod in its place. */
  lemma ReplacesWhatDoesNotCarry(cfg: Config, a: Agent, st: Store, beats: seq<Recovery.Beat>)
    requires a.name in st.agents && a.spec.state.Running? && Recovery.AllServed(beats) && |beats| >= 12
    requires PodName(a.name) in st.pods && !st.pods[PodName(a.name)].terminating
    requires HasContainer(st.pods[PodName(a.name)]) && !Carries(st.pods[PodName(a.name)], a.spec)
    requires beats[if PvcName(a.name) in st.pvcs then 3 else 4].gone
    ensures
      var (rec', st') := Recovery.RunBeats(cfg, Start(a), st, beats);
      && rec'.pc.Completed?
      && Lookup(Recovery.Outcome(st', a).pods, PodName(a.name)) == Some(Admit(cfg, BuildPod(cfg, a)))
  {
    hide Recovery.RunBeats, Recovery.Outcome, BuildPod, PodName, PvcName;
    NotCarryingIsDrifted(a, st.pods);
    Recovery.ServedRunIsBlockedIff(cfg, a, st, beats);
  }

  lemma NotCarryingIsDrifted(a: Agent, pods: map<string, Pod>)
    requires a.spec.state.Running? && PodName(a.name) in pods && HasContainer(pods[PodName(a.name)])
    requires !Carries(pods[PodName(a.name)], a.spec)
    ensures Recovery.Drifted(pods, a)
  {
  }

  /** And what convergence leaves: whatever pod it began with, a running agent's pod
      is there, its own, not on its way out, and carries the spec. */
  lemma ConvergedPodCarries(cfg: Config, s: State, rounds: seq<Convergence.Round>, ms: seq<Move>, a: Agent, id: nat)
    requires Convergence.Stable(s, a, id) && Convergence.FairRounds(cfg, s, rounds, a, id) && |rounds| >= 10
    requires Convergence.AllQuiet(ms, a, id)
    requires a.spec.state.Running? && KeepsLimits(cfg, a.spec)
    ensures
      var pods := Run(cfg, Convergence.After(cfg, s, rounds), ms).store.pods;
      && PodName(a.name) in pods
      && var pod := pods[PodName(a.name)];
         && pod.meta.owners == [OwnerReference(a)] && !pod.terminating
         && (HasContainer(pod) ==> Carries(pod, a.spec))
  {
    hide Run, Convergence.After, Convergence.Stable, Convergence.FairRounds, Convergence.AllQuiet, PodName, KeepsLimits;
    Convergence.Converges(cfg, s, rounds, ms, a, id);
    WantedCarries(a, Run(cfg, Convergence.After(cfg, s, rounds), ms).store);
  }

  lemma WantedCarries(a: Agent, st: Store)
    requires a.spec.state.Running? && Convergence.Converged(st, a)
    ensures PodName(a.name) in st.pods
    ensures
      var pod := st.pods[PodName(a.name)];
      && pod.meta.owners == [OwnerReference(a)] && !pod.terminating
      && (HasContainer(pod) ==> Carries(pod, a.spec))
  {
  }
}
