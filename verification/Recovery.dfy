/** Recovery of an interrupted reconcile when nobody else touches the agent: what
    attempts leave behind, wherever they stopped and whenever a deleted pod goes,
    is taken by the first run that completes to the objects of an uninterrupted
    one. */
module Recovery {
  import opened Crd
  import opened Resources
  import opened ApiServer
  import opened Reconciler
  import opened Effects
  import opened Ownership

  // ---------------------------------------------------------------------
  // A reconcile on its own
  // ---------------------------------------------------------------------

  /** What happens around one request: whether a deleted pod of the agent goes
      just before it, and how it is answered. */
  datatype Beat = Beat(gone: bool, reply: Reply)

  function Settle(gone: bool, pods: map<string, Pod>, k: string): map<string, Pod> {
    if gone && k in pods && pods[k].terminating then pods - {k} else pods
  }

  function SettleStore(gone: bool, st: Store, a: Agent): Store {
    st.(pods := Settle(gone, st.pods, PodName(a.name)))
  }

  function BeatStep(cfg: Config, rec: Rec, st: Store, beat: Beat): (Rec, Store) {
    Step(cfg, rec, SettleStore(beat.gone, st, rec.agent), beat.reply)
  }

  /** A program run for as many requests as there are beats. Stopping short of the
      end is a crash of the operator. */
  function RunBeats(cfg: Config, rec: Rec, st: Store, beats: seq<Beat>): (Rec, Store)
    decreases |beats|, 1
  {
    if beats == [] then (rec, st) else RunLaterBeats(cfg, rec, st, beats)
  }

  function RunLaterBeats(cfg: Config, rec: Rec, st: Store, beats: seq<Beat>): (Rec, Store)
    requires beats != []
    decreases |beats|, 0
  {
    var (rec', st') := BeatStep(cfg, rec, st, beats[0]);
    RunBeats(cfg, rec', st', beats[1..])
  }

  /** Any number of attempts, each from the start and each stopped anywhere. */
  function Attempts(cfg: Config, a: Agent, st: Store, attempts: seq<seq<Beat>>): Store
    decreases |attempts|
  {
    if attempts == [] then st
    else Attempts(cfg, a, RunBeats(cfg, Start(a), st, attempts[0]).1, attempts[1..])
  }

  // ---------------------------------------------------------------------
  // Where it leads
  // ---------------------------------------------------------------------

  datatype Children = Children(
    pvcs: map<string, Pvc>,
    pods: map<string, Pod>,
    policies: map<string, NetworkPolicy>,
    services: map<string, Service>)

  function ChildrenOf(st: Store): Children {
    Children(st.pvcs, st.pods, st.policies, st.services)
  }

  function WithPvc(cfg: Config, pvcs: map<string, Pvc>, a: Agent): map<string, Pvc> {
    if PvcName(a.name) in pvcs then pvcs else pvcs[PvcName(a.name) := AdmitPvc(cfg, BuildPvc(cfg, a))]
  }

  function WithPolicy(cfg: Config, policies: map<string, NetworkPolicy>, a: Agent): map<string, NetworkPolicy> {
    if PolicyName(a.name) in policies then policies else policies[PolicyName(a.name) := BuildNetworkPolicy(cfg, a)]
  }

  function WithService(cfg: Config, services: map<string, Service>, a: Agent): map<string, Service> {
    if ServiceName(a.name) in services then services else services[ServiceName(a.name) := BuildService(cfg, a)]
  }

  /** A running agent keeps a pod that is up to date and not on its way out, and
      gets a new one otherwise; a stopped agent has none. */
  function WithPod(cfg: Config, pods: map<string, Pod>, a: Agent): map<string, Pod> {
    var k := PodName(a.name);
    if a.spec.state.Stopped? then pods - {k}
    else if k in pods && !pods[k].terminating && !PodNeedsUpdate(pods[k], a) then pods
    else pods[k := Admit(cfg, BuildPod(cfg, a))]
  }

  /** Where reconciling leads, once deleted pods are gone. */
  function Target(cfg: Config, st: Store, a: Agent): Children {
    Children(
      WithPvc(cfg, st.pvcs, a),
      WithPod(cfg, st.pods, a),
      WithPolicy(cfg, st.policies, a),
      WithService(cfg, st.services, a))
  }

  /** The objects once a pod on its way out is gone. */
  function Outcome(st: Store, a: Agent): Children {
    ChildrenOf(SettleStore(true, st, a))
  }

  // ---------------------------------------------------------------------
  // No request changes where it leads
  // ---------------------------------------------------------------------

  /** A pod of a running agent on its way out is one that the operator would
      delete. Other pods it takes for up to date, though they will be gone. */
  predicate RightlyDoomed(pods: map<string, Pod>, a: Agent) {
    a.spec.state.Running? && PodName(a.name) in pods && pods[PodName(a.name)].terminating
    ==> PodNeedsUpdate(pods[PodName(a.name)], a)
  }

  /** The program is on the branch of the desired state, and about to delete a
      running agent's pod only if that is drifted. */
  predicate Coherent(pc: Pc, a: Agent, pods: map<string, Pod>) {
    if a.spec.state.Stopped? then !pc.PodGet? && !pc.PodDelete? && !pc.PodRecreate? && !pc.PodCreate?
    else
      && !pc.StopGet? && !pc.StopDelete?
      && (pc.PodDelete? && PodName(a.name) in pods ==> PodNeedsUpdate(pods[PodName(a.name)], a))
  }

  /** The pod is where it leads, or will be when a deleted pod is gone. */
  predicate PodDone(cfg: Config, pods: map<string, Pod>, a: Agent) {
    var k := PodName(a.name);
    if a.spec.state.Stopped? then k in pods ==> pods[k].terminating
    else
      && k in pods && !pods[k].terminating
      && (PodNeedsUpdate(pods[k], a) ==> pods[k] == Admit(cfg, BuildPod(cfg, a)))
  }

  predicate PastPod(pc: Pc) {
    pc.PolicyGet? || pc.PolicyCreate? || PolicyDone(pc)
  }

  /** What the program has passed is done. */
  predicate Passed(cfg: Config, pc: Pc, a: Agent, st: Store) {
    && (ClaimDone(pc) ==> PvcName(a.name) in st.pvcs)
    && (PastPod(pc) ==> PodDone(cfg, st.pods, a))
    && (PolicyDone(pc) ==> PolicyName(a.name) in st.policies)
    && (ServiceDone(pc) ==> ServiceName(a.name) in st.services)
  }

  predicate OnCourse(cfg: Config, pc: Pc, a: Agent, st: Store) {
    RightlyDoomed(st.pods, a) && Coherent(pc, a, st.pods) && Passed(cfg, pc, a, st)
  }

  /** The pods after a served request. */
  function PodsServed(cfg: Config, pods: map<string, Pod>, pc: Pc, a: Agent): map<string, Pod> {
    if pc.PodCreate? || pc.PodRecreate? then
      (if PodName(a.name) in pods then pods else pods[PodName(a.name) := Admit(cfg, BuildPod(cfg, a))])
    else if pc.PodDelete? || pc.StopDelete? then Terminate(pods, PodName(a.name))
    else pods
  }

  lemma Served(cfg: Config, a: Agent, pc: Pc, st: Store)
    requires !Halted(Rec(a, pc))
    ensures
      var st' := StoreAfterOp(cfg, st, NextOp(cfg, Rec(a, pc)));
      && st'.pvcs == (if pc.PvcCreate? then WithPvc(cfg, st.pvcs, a) else st.pvcs)
      && st'.policies == (if pc.PolicyCreate? then WithPolicy(cfg, st.policies, a) else st.policies)
      && st'.services == (if pc.ServiceCreate? then WithService(cfg, st.services, a) else st.services)
      && st'.pods == PodsServed(cfg, st.pods, pc, a)
      && st'.agents.Keys == st.agents.Keys
  {
    NextOpKind(cfg, Rec(a, pc));
  }

  /** When a write fails. */
  lemma ServedWrite(cfg: Config, a: Agent, pc: Pc, st: Store)
    requires Writes(pc)
    ensures
      var resp := Answer(st, NextOp(cfg, Rec(a, pc)));
      resp.Failed? <==>
      match pc
      case PvcCreate => PvcName(a.name) in st.pvcs
      case PolicyCreate => PolicyName(a.name) in st.policies
      case ServiceCreate => ServiceName(a.name) in st.services
      case PodCreate => PodName(a.name) in st.pods
      case PodRecreate => PodName(a.name) in st.pods
      case _ => PodName(a.name) !in st.pods
  {
  }

  /** A deleted pod going changes nothing of this. */
  lemma GoneKeepsPod(cfg: Config, gone: bool, pc: Pc, a: Agent, pods: map<string, Pod>)
    requires RightlyDoomed(pods, a) && Coherent(pc, a, pods)
    ensures
      var pods' := Settle(gone, pods, PodName(a.name));
      && RightlyDoomed(pods', a) && Coherent(pc, a, pods')
      && WithPod(cfg, pods', a) == WithPod(cfg, pods, a)
      && (PodDone(cfg, pods, a) ==> PodDone(cfg, pods', a))
  {
    hide PodNeedsUpdate, BuildPod, Admit, PodName;
  }

  lemma GoneKeepsCourse(cfg: Config, gone: bool, pc: Pc, a: Agent, st: Store)
    requires OnCourse(cfg, pc, a, st)
    ensures OnCourse(cfg, pc, a, SettleStore(gone, st, a))
    ensures Target(cfg, SettleStore(gone, st, a), a) == Target(cfg, st, a)
  {
    hide PodDone, RightlyDoomed, Coherent, WithPod, Settle;
    GoneKeepsPod(cfg, gone, pc, a, st.pods);
  }

  /** The pod part of a served request. */
  lemma PodStep(cfg: Config, a: Agent, pc: Pc, pods: map<string, Pod>)
    requires RightlyDoomed(pods, a) && Coherent(pc, a, pods)
    ensures
      var pods' := PodsServed(cfg, pods, pc, a);
      && RightlyDoomed(pods', a)
      && WithPod(cfg, pods', a) == WithPod(cfg, pods, a)
      && (pc.PodDelete? || pc.StopDelete? || pc.PodCreate? || pc.PodRecreate? || pods' == pods)
      && (pc.StopDelete? ==> PodDone(cfg, pods', a))
      && ((pc.PodCreate? || pc.PodRecreate?) && PodName(a.name) !in pods ==> PodDone(cfg, pods', a))
  {
    hide PvcName, PolicyName, ServiceName;
    TerminationKeepsDrift(cfg, a, pods);
  }

  lemma TerminationKeepsDrift(cfg: Config, a: Agent, pods: map<string, Pod>)
    ensures
      PodName(a.name) in pods ==>
        PodNeedsUpdate(Terminate(pods, PodName(a.name))[PodName(a.name)], a) == PodNeedsUpdate(pods[PodName(a.name)], a)
  {
  }

  lemma StepKeepsTarget(cfg: Config, a: Agent, pc: Pc, st: Store, reply: Reply)
    requires !Halted(Rec(a, pc)) && OnCourse(cfg, pc, a, st)
    ensures
      var st' := Step(cfg, Rec(a, pc), st, reply).1;
      && RightlyDoomed(st'.pods, a)
      && Target(cfg, st', a) == Target(cfg, st, a)
  {
    hide NextOp, StoreAfterOp, Answer, PodNeedsUpdate, Admit, BuildPod, BuildPvc, BuildNetworkPolicy, BuildService;
    hide WithPod, RightlyDoomed;
    Served(cfg, a, pc, st);
    PodStep(cfg, a, pc, st.pods);
  }

  /** A pod that is read and left alone is done. */
  lemma LeftAloneIsDone(cfg: Config, a: Agent, pods: map<string, Pod>)
    requires RightlyDoomed(pods, a)
    ensures
      if a.spec.state.Stopped? then PodName(a.name) !in pods ==> PodDone(cfg, pods, a)
      else PodName(a.name) in pods && !PodNeedsUpdate(pods[PodName(a.name)], a) ==> PodDone(cfg, pods, a)
  {
  }

  lemma StaysCoherent(cfg: Config, a: Agent, pc: Pc, st: Store, reply: Reply)
    requires !Halted(Rec(a, pc)) && OnCourse(cfg, pc, a, st)
    ensures
      var (rec', st') := Step(cfg, Rec(a, pc), st, reply);
      rec'.agent == a && Coherent(rec'.pc, a, st'.pods)
  {
    hide NextOp, StoreAfterOp, Answer, PodNeedsUpdate, Admit, BuildPod, BuildPvc, BuildNetworkPolicy, BuildService;
    hide PodsServed, RightlyDoomed, PodDone, DeriveStatusFromPod, WithNodePorts;
    hide WithPvc, WithPolicy, WithService, Passed, PodName, PvcName, PolicyName, ServiceName;
    Served(cfg, a, pc, st);
    PodStep(cfg, a, pc, st.pods);
    if !Writes(pc) && !pc.StatusPatch? {
      ServedRead(cfg, a, pc, st);
    }
  }

  lemma StaysPassed(cfg: Config, a: Agent, pc: Pc, st: Store, reply: Reply)
    requires !Halted(Rec(a, pc)) && OnCourse(cfg, pc, a, st)
    ensures
      var (rec', st') := Step(cfg, Rec(a, pc), st, reply);
      Passed(cfg, rec'.pc, a, st')
  {
    hide NextOp, StoreAfterOp, Answer, PodNeedsUpdate, Admit, BuildPod, BuildPvc, BuildNetworkPolicy, BuildService;
    hide PodsServed, RightlyDoomed, PodDone, DeriveStatusFromPod, WithNodePorts;
    hide PodName, PvcName, PolicyName, ServiceName;
    Served(cfg, a, pc, st);
    PodStep(cfg, a, pc, st.pods);
    LeftAloneIsDone(cfg, a, st.pods);
    if Writes(pc) {
      ServedWrite(cfg, a, pc, st);
    } else if !pc.StatusPatch? {
      ServedRead(cfg, a, pc, st);
    }
  }

  lemma BeatStaysOnCourse(cfg: Config, rec: Rec, st: Store, beat: Beat)
    requires OnCourse(cfg, rec.pc, rec.agent, st)
    ensures
      var (rec', st') := BeatStep(cfg, rec, st, beat);
      && rec'.agent == rec.agent && OnCourse(cfg, rec'.pc, rec.agent, st')
      && Target(cfg, st', rec.agent) == Target(cfg, st, rec.agent)
  {
    hide RightlyDoomed, Coherent, Passed, Target, NextOp, StoreAfterOp, Answer, SettleStore;
    GoneKeepsCourse(cfg, beat.gone, rec.pc, rec.agent, st);
    if !Halted(rec) {
      StepKeepsTarget(cfg, rec.agent, rec.pc, SettleStore(beat.gone, st, rec.agent), beat.reply);
      StaysCoherent(cfg, rec.agent, rec.pc, SettleStore(beat.gone, st, rec.agent), beat.reply);
      StaysPassed(cfg, rec.agent, rec.pc, SettleStore(beat.gone, st, rec.agent), beat.reply);
    }
  }

  lemma {:induction false} BeatsStayOnCourse(cfg: Config, rec: Rec, st: Store, beats: seq<Beat>)
    requires OnCourse(cfg, rec.pc, rec.agent, st)
    ensures
      var (rec', st') := RunBeats(cfg, rec, st, beats);
      && rec'.agent == rec.agent && OnCourse(cfg, rec'.pc, rec.agent, st')
      && Target(cfg, st', rec.agent) == Target(cfg, st, rec.agent)
    decreases |beats|
  {
    hide OnCourse, Target, BeatStep;
    if beats != [] {
      BeatStaysOnCourse(cfg, rec, st, beats[0]);
      var (rec', st') := BeatStep(cfg, rec, st, beats[0]);
      BeatsStayOnCourse(cfg, rec', st', beats[1..]);
    }
  }

  lemma StartsOnCourse(cfg: Config, a: Agent, st: Store)
    requires RightlyDoomed(st.pods, a)
    ensures OnCourse(cfg, Start(a).pc, a, st)
  {
  }

  lemma {:induction false} AttemptsKeepTarget(cfg: Config, a: Agent, st: Store, attempts: seq<seq<Beat>>)
    requires RightlyDoomed(st.pods, a)
    ensures
      var st' := Attempts(cfg, a, st, attempts);
      RightlyDoomed(st'.pods, a) && Target(cfg, st', a) == Target(cfg, st, a)
    decreases |attempts|
  {
    hide Target, RunBeats, RightlyDoomed;
    if attempts != [] {
      StartsOnCourse(cfg, a, st);
      BeatsStayOnCourse(cfg, Start(a), st, attempts[0]);
      AttemptsKeepTarget(cfg, a, RunBeats(cfg, Start(a), st, attempts[0]).1, attempts[1..]);
    }
  }

  lemma CompletedAtTarget(cfg: Config, a: Agent, st: Store)
    requires OnCourse(cfg, Completed, a, st)
    ensures Outcome(st, a) == Target(cfg, st, a)
  {
    hide PodNeedsUpdate, BuildPod, Admit;
  }

  /** However often a reconcile was interrupted before, wherever each attempt
      stopped and whenever deleted pods went, within attempts or between them: a
      run that completes leaves the objects that the store it all began with
      determines, whatever the API server does to the agent's limits. */
  lemma InterruptionsDoNotMatter(cfg: Config, a: Agent, st: Store, attempts: seq<seq<Beat>>, last: seq<Beat>)
    requires RightlyDoomed(st.pods, a)
    requires RunBeats(cfg, Start(a), Attempts(cfg, a, st, attempts), last).0.pc.Completed?
    ensures Outcome(RunBeats(cfg, Start(a), Attempts(cfg, a, st, attempts), last).1, a) == Target(cfg, st, a)
  {
    hide Target, RunBeats, Attempts, RightlyDoomed, OnCourse, Outcome;
    AttemptsKeepTarget(cfg, a, st, attempts);
    var mid := Attempts(cfg, a, st, attempts);
    StartsOnCourse(cfg, a, mid);
    BeatsStayOnCourse(cfg, Start(a), mid, last);
    CompletedAtTarget(cfg, a, RunBeats(cfg, Start(a), mid, last).1);
  }

  // ---------------------------------------------------------------------
  // Which runs complete
  // ---------------------------------------------------------------------

  predicate AllServed(beats: seq<Beat>) {
    forall i | 0 <= i < |beats| :: beats[i].reply.Delivered?
  }

  /** No pod goes before this request. */
  predicate Calm(beat: Beat, pods: map<string, Pod>, a: Agent) {
    Settle(beat.gone, pods, PodName(a.name)) == pods
  }

  /** Past the pod a served program of a stored agent cannot fail. */
  predicate Smooth(pc: Pc, a: Agent, st: Store) {
    && PastPod(pc)
    && a.name in st.agents
    && (pc.PolicyCreate? ==> PolicyName(a.name) !in st.policies)
    && (pc.ServiceCreate? ==> ServiceName(a.name) !in st.services)
  }

  lemma SmoothStep(cfg: Config, a: Agent, pc: Pc, st: Store, beat: Beat)
    requires Smooth(pc, a, st) && !pc.Completed? && beat.reply.Delivered?
    ensures
      var (rec', st') := BeatStep(cfg, Rec(a, pc), st, beat);
      && rec'.agent == a && Smooth(rec'.pc, a, st') && Remaining(rec'.pc) < Remaining(pc)
      && st'.pods == Settle(beat.gone, st.pods, PodName(a.name))
  {
    hide NextOp, StoreAfterOp, Answer, PodNeedsUpdate, Admit, BuildPod, BuildPvc, BuildNetworkPolicy, BuildService;
    hide DeriveStatusFromPod, WithNodePorts, PodName, PvcName, PolicyName, ServiceName, Settle;
    var st0 := SettleStore(beat.gone, st, a);
    Served(cfg, a, pc, st0);
    if Writes(pc) {
      ServedWrite(cfg, a, pc, st0);
    } else {
      ServedRead(cfg, a, pc, st0);
    }
  }

  lemma CompletedStays(cfg: Config, rec: Rec, st: Store, beat: Beat)
    requires Halted(rec)
    ensures BeatStep(cfg, rec, st, beat) == (rec, SettleStore(beat.gone, st, rec.agent))
  {
  }

  lemma {:induction false} SmoothRunCompletes(cfg: Config, a: Agent, pc: Pc, st: Store, beats: seq<Beat>)
    requires Smooth(pc, a, st) && AllServed(beats) && |beats| >= Remaining(pc)
    ensures RunBeats(cfg, Rec(a, pc), st, beats).0 == Rec(a, Completed)
    ensures Outcome(RunBeats(cfg, Rec(a, pc), st, beats).1, a).pods == Outcome(st, a).pods
    decreases |beats|
  {
    hide BeatStep, Smooth;
    if beats == [] {
      OnlyCompletedRemainsZero(pc, a, st);
    } else {
      if pc.Completed? {
        CompletedStays(cfg, Rec(a, pc), st, beats[0]);
        SettledStaysSmooth(a, st, beats[0].gone);
      } else {
        SmoothStep(cfg, a, pc, st, beats[0]);
      }
      var (rec', st') := BeatStep(cfg, Rec(a, pc), st, beats[0]);
      SmoothRunCompletes(cfg, a, rec'.pc, st', beats[1..]);
    }
  }

  lemma OnlyCompletedRemainsZero(pc: Pc, a: Agent, st: Store)
    requires Smooth(pc, a, st) && Remaining(pc) == 0
    ensures pc.Completed?
  {
  }

  lemma SettledStaysSmooth(a: Agent, st: Store, gone: bool)
    requires Smooth(Completed, a, st)
    ensures Smooth(Completed, a, SettleStore(gone, st, a))
  {
  }

  /** Which request reads the pod: the second, or the third after a new claim. */
  function PodReadAt(st: Store, a: Agent): nat {
    if PvcName(a.name) in st.pvcs then 1 else 2
  }

  lemma ClaimIsRead(cfg: Config, a: Agent, st: Store, beat: Beat)
    requires beat.reply.Delivered? && Calm(beat, st.pods, a)
    ensures
      BeatStep(cfg, Start(a), st, beat)
      == (Rec(a, if PvcName(a.name) in st.pvcs then AfterPvc(a) else PvcCreate), st)
  {
  }

  lemma ClaimIsCreated(cfg: Config, a: Agent, st: Store, beat: Beat)
    requires beat.reply.Delivered? && Calm(beat, st.pods, a) && PvcName(a.name) !in st.pvcs
    ensures BeatStep(cfg, Rec(a, PvcCreate), st, beat) == (Rec(a, AfterPvc(a)), st.(pvcs := WithPvc(cfg, st.pvcs, a)))
  {
    hide BuildPod, BuildNetworkPolicy, BuildService;
  }

  lemma NextBeat(cfg: Config, rec: Rec, st: Store, beats: seq<Beat>, k: nat)
    requires k < |beats|
    ensures
      var (rec', st') := BeatStep(cfg, rec, st, beats[k]);
      RunBeats(cfg, rec, st, beats[k..]) == RunBeats(cfg, rec', st', beats[k + 1..])
  {
    hide BeatStep;
    assert beats[k..][1..] == beats[k + 1..];
  }

  lemma UpToThePod(cfg: Config, a: Agent, st: Store, beats: seq<Beat>)
    requires AllServed(beats) && |beats| >= 2 && Calm(beats[0], st.pods, a) && Calm(beats[1], st.pods, a)
    ensures
      RunBeats(cfg, Start(a), st, beats)
      == RunBeats(cfg, Rec(a, AfterPvc(a)), st.(pvcs := WithPvc(cfg, st.pvcs, a)), beats[PodReadAt(st, a)..])
  {
    hide BeatStep, Calm, RunBeats, BuildPvc, PvcName;
    assert beats[0..] == beats;
    ClaimIsRead(cfg, a, st, beats[0]);
    NextBeat(cfg, Start(a), st, beats, 0);
    if PvcName(a.name) in st.pvcs {
      assert st.(pvcs := WithPvc(cfg, st.pvcs, a)) == st;
    } else {
      ClaimIsCreated(cfg, a, st, beats[1]);
      NextBeat(cfg, Rec(a, PvcCreate), st, beats, 1);
    }
  }

  predicate Drifted(pods: map<string, Pod>, a: Agent) {
    a.spec.state.Running? && PodName(a.name) in pods && PodNeedsUpdate(pods[PodName(a.name)], a)
  }

  lemma PodIsRead(cfg: Config, a: Agent, st: Store, beat: Beat)
    requires beat.reply.Delivered? && Calm(beat, st.pods, a)
    ensures
      BeatStep(cfg, Rec(a, AfterPvc(a)), st, beat)
      == (Rec(a, if a.spec.state.Stopped? then (if PodName(a.name) in st.pods then StopDelete else PolicyGet)
                 else if PodName(a.name) !in st.pods then PodCreate
                 else if Drifted(st.pods, a) then PodDelete
                 else PolicyGet), st)
  {
  }

  lemma PodIsWritten(cfg: Config, a: Agent, pc: Pc, st: Store, beat: Beat)
    requires beat.reply.Delivered? && Calm(beat, st.pods, a)
    requires
      || ((pc.StopDelete? || pc.PodDelete?) && PodName(a.name) in st.pods)
      || (pc.PodCreate? && PodName(a.name) !in st.pods)
    ensures
      BeatStep(cfg, Rec(a, pc), st, beat)
      == (Rec(a, if pc.PodDelete? then PodRecreate else PolicyGet), st.(pods := PodsServed(cfg, st.pods, pc, a)))
  {
    hide BuildPvc, BuildNetworkPolicy, BuildService;
  }

  /** Two seconds after deleting a pod, its replacement can be created iff the pod
      is gone. */
  lemma PodIsReplaced(cfg: Config, a: Agent, st: Store, beat: Beat)
    requires beat.reply.Delivered? && PodName(a.name) in st.pods && st.pods[PodName(a.name)].terminating
    ensures
      BeatStep(cfg, Rec(a, PodRecreate), st, beat)
      == if beat.gone
         then (Rec(a, PolicyGet),
               st.(pods := (st.pods - {PodName(a.name)})[PodName(a.name) := Admit(cfg, BuildPod(cfg, a))]))
         else (Rec(a, Aborted), st)
  {
    hide BuildPvc, BuildNetworkPolicy, BuildService;
  }

  /** The rest of a served run after the pod was read, if nothing blocks it. */
  lemma UnblockedRun(cfg: Config, a: Agent, st: Store, beats: seq<Beat>, k: nat)
    requires AllServed(beats) && a.name in st.agents && |beats| >= k + 10
    requires forall i | k <= i < |beats| :: Calm(beats[i], st.pods, a)
    requires !Drifted(st.pods, a)
    ensures RunBeats(cfg, Rec(a, AfterPvc(a)), st, beats[k..]).0 == Rec(a, Completed)
  {
    hide BeatStep, Calm, RunBeats, PodName, PodsServed;
    PodIsRead(cfg, a, st, beats[k]);
    NextBeat(cfg, Rec(a, AfterPvc(a)), st, beats, k);
    var (rec', st') := BeatStep(cfg, Rec(a, AfterPvc(a)), st, beats[k]);
    if rec'.pc.PolicyGet? {
      SmoothRunCompletes(cfg, a, PolicyGet, st, beats[k + 1..]);
    } else {
      PodIsWritten(cfg, a, rec'.pc, st, beats[k + 1]);
      NextBeat(cfg, rec', st, beats, k + 1);
      SmoothRunCompletes(cfg, a, PolicyGet, st.(pods := PodsServed(cfg, st.pods, rec'.pc, a)), beats[k + 2..]);
    }
  }

  lemma {:induction false} AbortedRun(cfg: Config, a: Agent, st: Store, beats: seq<Beat>)
    ensures
      var (rec', st') := RunBeats(cfg, Rec(a, Aborted), st, beats);
      rec'.pc.Aborted? && st'.pvcs == st.pvcs && st'.policies == st.policies && st'.services == st.services
    decreases |beats|
  {
    hide BeatStep;
    if beats != [] {
      CompletedStays(cfg, Rec(a, Aborted), st, beats[0]);
      AbortedRun(cfg, a, SettleStore(beats[0].gone, st, a), beats[1..]);
    }
  }

  /** The same when the pod has to be replaced. */
  lemma ReplacingRun(cfg: Config, a: Agent, st: Store, beats: seq<Beat>, k: nat)
    requires AllServed(beats) && a.name in st.agents && |beats| >= k + 10
    requires Calm(beats[k], st.pods, a) && Calm(beats[k + 1], st.pods, a)
    requires Drifted(st.pods, a)
    ensures
      var (rec', st') := RunBeats(cfg, Rec(a, AfterPvc(a)), st, beats[k..]);
      if beats[k + 2].gone then rec'.pc.Completed?
      else rec'.pc.Aborted? && st'.pvcs == st.pvcs && st'.policies == st.policies && st'.services == st.services
  {
    hide BeatStep, Calm, RunBeats, PodName, Admit, BuildPod;
    PodIsRead(cfg, a, st, beats[k]);
    NextBeat(cfg, Rec(a, AfterPvc(a)), st, beats, k);
    PodIsWritten(cfg, a, PodDelete, st, beats[k + 1]);
    NextBeat(cfg, Rec(a, PodDelete), st, beats, k + 1);
    var st1 := st.(pods := PodsServed(cfg, st.pods, PodDelete, a));
    PodIsReplaced(cfg, a, st1, beats[k + 2]);
    NextBeat(cfg, Rec(a, PodRecreate), st1, beats, k + 2);
    var (_, st2) := BeatStep(cfg, Rec(a, PodRecreate), st1, beats[k + 2]);
    if beats[k + 2].gone {
      SmoothRunCompletes(cfg, a, PolicyGet, st2, beats[k + 3..]);
    } else {
      AbortedRun(cfg, a, st2, beats[k + 3..]);
    }
  }

  /** One served run of a stored agent whose pod is not already on its way out
      completes unless it finds that pod drifted and the pod is still there when
      its replacement is created, two requests later. Then the run gives up with
      the claim in place and policy and service untouched. */
  lemma ServedRunIsBlockedIff(cfg: Config, a: Agent, st: Store, beats: seq<Beat>)
    requires a.name in st.agents && AllServed(beats) && |beats| >= 12
    requires PodName(a.name) in st.pods ==> !st.pods[PodName(a.name)].terminating
    ensures
      var (rec', st') := RunBeats(cfg, Start(a), st, beats);
      if Drifted(st.pods, a) && !beats[PodReadAt(st, a) + 2].gone then
        && rec'.pc.Aborted?
        && st'.pvcs == WithPvc(cfg, st.pvcs, a) && st'.policies == st.policies && st'.services == st.services
      else rec'.pc.Completed? && Outcome(st', a) == Target(cfg, st, a)
  {
    hide RunBeats, PodName, BuildPvc, Outcome, Target;
    var k := PodReadAt(st, a);
    UpToThePod(cfg, a, st, beats);
    var st1 := st.(pvcs := WithPvc(cfg, st.pvcs, a));
    if Drifted(st.pods, a) {
      ReplacingRun(cfg, a, st1, beats, k);
    } else {
      UnblockedRun(cfg, a, st1, beats, k);
    }
    if RunBeats(cfg, Start(a), st, beats).0.pc.Completed? {
      assert Attempts(cfg, a, st, []) == st;
      InterruptionsDoNotMatter(cfg, a, st, [], beats);
    }
  }

  lemma BlindClaimRead(cfg: Config, a: Agent, st: Store, beat: Beat)
    ensures
      var (rec', st') := BeatStep(cfg, Rec(a, PvcGet), st, beat);
      BeatStep(cfg, Rec(a, PvcGet), SettleStore(true, st, a), beat) == (rec', SettleStore(true, st', a))
  {
    hide BuildPod, BuildNetworkPolicy, BuildService, Admit, PvcName, PodName, AdmitPvc;
  }

  lemma BlindClaimCreation(cfg: Config, a: Agent, st: Store, beat: Beat)
    ensures
      var (rec', st') := BeatStep(cfg, Rec(a, PvcCreate), st, beat);
      BeatStep(cfg, Rec(a, PvcCreate), SettleStore(true, st, a), beat) == (rec', SettleStore(true, st', a))
  {
    hide BuildPod, BuildNetworkPolicy, BuildService, Admit, PvcName, PodName, AdmitPvc;
  }

  /** Before it reads the pod a program does not notice whether a deleted pod has
      gone. */
  lemma BlindToThePod(cfg: Config, a: Agent, pc: Pc, st: Store, beat: Beat)
    requires pc.PvcGet? || pc.PvcCreate?
    ensures
      var (rec', st') := BeatStep(cfg, Rec(a, pc), st, beat);
      BeatStep(cfg, Rec(a, pc), SettleStore(true, st, a), beat) == (rec', SettleStore(true, st', a))
  {
    hide BeatStep, SettleStore;
    if pc.PvcGet? {
      BlindClaimRead(cfg, a, st, beat);
    } else {
      BlindClaimCreation(cfg, a, st, beat);
    }
  }

  lemma GoneAnyway(cfg: Config, rec: Rec, st: Store, beat: Beat)
    requires beat.gone
    ensures BeatStep(cfg, rec, SettleStore(true, st, rec.agent), beat) == BeatStep(cfg, rec, st, beat)
  {
    hide Step;
  }

  lemma {:induction false} GoneInTime(cfg: Config, a: Agent, pc: Pc, st: Store, beats: seq<Beat>, k: nat)
    requires k < |beats| && beats[k].gone
    requires pc.PvcGet? ==> k <= PodReadAt(st, a)
    requires pc.PvcCreate? ==> k <= 1
    requires !pc.PvcGet? && !pc.PvcCreate? ==> k == 0
    requires pc.PvcCreate? ==> PvcName(a.name) !in st.pvcs
    requires AllServed(beats)
    ensures RunBeats(cfg, Rec(a, pc), SettleStore(true, st, a), beats) == RunBeats(cfg, Rec(a, pc), st, beats)
    decreases k
  {
    hide BeatStep, RunBeats, PvcName, PodName;
    assert beats[0..] == beats;
    NextBeat(cfg, Rec(a, pc), st, beats, 0);
    NextBeat(cfg, Rec(a, pc), SettleStore(true, st, a), beats, 0);
    if k == 0 {
      GoneAnyway(cfg, Rec(a, pc), st, beats[0]);
    } else {
      BlindToThePod(cfg, a, pc, st, beats[0]);
      ClaimPhase(cfg, a, pc, st, beats[0]);
      var (rec', st') := BeatStep(cfg, Rec(a, pc), st, beats[0]);
      GoneInTime(cfg, a, rec'.pc, st', beats[1..], k - 1);
    }
  }

  lemma ClaimPhase(cfg: Config, a: Agent, pc: Pc, st: Store, beat: Beat)
    requires pc.PvcGet? || (pc.PvcCreate? && PvcName(a.name) !in st.pvcs)
    requires beat.reply.Delivered?
    ensures
      var (rec', st') := BeatStep(cfg, Rec(a, pc), st, beat);
      && rec'.agent == a && !rec'.pc.PvcGet?
      && (rec'.pc.PvcCreate? <==> pc.PvcGet? && PodReadAt(st, a) == 2)
      && (rec'.pc.PvcCreate? ==> PvcName(a.name) !in st'.pvcs)
  {
    hide BuildPod, BuildNetworkPolicy, BuildService, Admit, PvcName, PodName;
  }

  /** The deletion fails on a pod that has just gone. */
  lemma DeletionComesLate(cfg: Config, a: Agent, pc: Pc, st: Store, beat: Beat)
    requires pc.PodDelete? || pc.StopDelete?
    requires beat.reply.Delivered? && beat.gone && PodName(a.name) in st.pods && st.pods[PodName(a.name)].terminating
    ensures
      var (rec', st') := BeatStep(cfg, Rec(a, pc), st, beat);
      && rec' == Rec(a, Aborted)
      && st'.pvcs == st.pvcs && st'.policies == st.policies && st'.services == st.services
  {
  }

  /** The rest of a served run that reads an up-to-date pod, or no pod of a stopped
      agent: whatever goes later, it completes. */
  lemma ReadAndLeft(cfg: Config, a: Agent, st: Store, beats: seq<Beat>, k: nat)
    requires AllServed(beats) && a.name in st.agents && |beats| >= k + 10 && Calm(beats[k], st.pods, a)
    requires if a.spec.state.Stopped? then PodName(a.name) !in st.pods
             else PodName(a.name) in st.pods && !Drifted(st.pods, a)
    ensures
      var (rec', st') := RunBeats(cfg, Rec(a, AfterPvc(a)), st, beats[k..]);
      rec' == Rec(a, Completed) && Outcome(st', a).pods == Outcome(st, a).pods
  {
    hide BeatStep, Calm, RunBeats, PodName, PodsServed;
    PodIsRead(cfg, a, st, beats[k]);
    NextBeat(cfg, Rec(a, AfterPvc(a)), st, beats, k);
    SmoothRunCompletes(cfg, a, PolicyGet, st, beats[k + 1..]);
  }

  /** The rest of a served run of a stopped agent that finds a pod on its way out. */
  lemma StoppingRun(cfg: Config, a: Agent, st: Store, beats: seq<Beat>, k: nat)
    requires AllServed(beats) && a.name in st.agents && |beats| >= k + 10 && Calm(beats[k], st.pods, a)
    requires a.spec.state.Stopped? && PodName(a.name) in st.pods && st.pods[PodName(a.name)].terminating
    ensures
      var (rec', st') := RunBeats(cfg, Rec(a, AfterPvc(a)), st, beats[k..]);
      if !beats[k + 1].gone then rec'.pc.Completed?
      else rec'.pc.Aborted? && st'.pvcs == st.pvcs && st'.policies == st.policies && st'.services == st.services
  {
    hide BeatStep, RunBeats, PodName, PodsServed;
    PodIsRead(cfg, a, st, beats[k]);
    NextBeat(cfg, Rec(a, AfterPvc(a)), st, beats, k);
    NextBeat(cfg, Rec(a, StopDelete), st, beats, k + 1);
    if beats[k + 1].gone {
      DeletionComesLate(cfg, a, StopDelete, st, beats[k + 1]);
      AbortedRun(cfg, a, BeatStep(cfg, Rec(a, StopDelete), st, beats[k + 1]).1, beats[k + 2..]);
    } else {
      PodIsWritten(cfg, a, StopDelete, st, beats[k + 1]);
      SmoothRunCompletes(cfg, a, PolicyGet, st.(pods := PodsServed(cfg, st.pods, StopDelete, a)), beats[k + 2..]);
    }
  }

  /** The rest of a served run of a running agent that finds a drifted pod on its
      way out. */
  lemma LateReplacingRun(cfg: Config, a: Agent, st: Store, beats: seq<Beat>, k: nat)
    requires AllServed(beats) && a.name in st.agents && |beats| >= k + 10 && Calm(beats[k], st.pods, a)
    requires Drifted(st.pods, a) && st.pods[PodName(a.name)].terminating
    ensures
      var (rec', st') := RunBeats(cfg, Rec(a, AfterPvc(a)), st, beats[k..]);
      if !beats[k + 1].gone && beats[k + 2].gone then rec'.pc.Completed?
      else rec'.pc.Aborted? && st'.pvcs == st.pvcs && st'.policies == st.policies && st'.services == st.services
  {
    hide BeatStep, RunBeats, PodName, PodNeedsUpdate;
    if beats[k + 1].gone {
      PodIsRead(cfg, a, st, beats[k]);
      NextBeat(cfg, Rec(a, AfterPvc(a)), st, beats, k);
      NextBeat(cfg, Rec(a, PodDelete), st, beats, k + 1);
      DeletionComesLate(cfg, a, PodDelete, st, beats[k + 1]);
      AbortedRun(cfg, a, BeatStep(cfg, Rec(a, PodDelete), st, beats[k + 1]).1, beats[k + 2..]);
    } else {
      ReplacingRun(cfg, a, st, beats, k);
    }
  }

  /** Whether a served run gets through, by when the agent's old pod goes. `k` is
      the request that reads the pod. A pod that is there then and has to be deleted
      must still be there for that, and a running agent's must be gone right after. */
  predicate GetsThrough(st: Store, a: Agent, beats: seq<Beat>)
    requires |beats| >= 12
  {
    var k := PodReadAt(st, a);
    var dying := PodName(a.name) in st.pods && st.pods[PodName(a.name)].terminating;
    var found := PodName(a.name) in st.pods && !(dying && exists i | 0 <= i <= k :: beats[i].gone);
    var deletable := !(dying && beats[k + 1].gone);
    if !found then true
    else if a.spec.state.Stopped? then deletable
    else Drifted(st.pods, a) ==> deletable && beats[k + 2].gone
  }

  /** A served run that finds the agent's pod. */
  lemma FindingRun(cfg: Config, a: Agent, st: Store, beats: seq<Beat>)
    requires a.name in st.agents && AllServed(beats) && |beats| >= 12
    requires PodName(a.name) in st.pods && st.pods[PodName(a.name)].terminating
    requires forall i | 0 <= i <= PodReadAt(st, a) :: !beats[i].gone
    ensures
      var (rec', st') := RunBeats(cfg, Start(a), st, beats);
      if GetsThrough(st, a, beats) then rec'.pc.Completed?
      else
        && rec'.pc.Aborted? && st'.pvcs == WithPvc(cfg, st.pvcs, a)
        && st'.policies == st.policies && st'.services == st.services
  {
    hide RunBeats, PodName, BuildPvc, PodNeedsUpdate, BeatStep;
    var k := PodReadAt(st, a);
    assert forall i | 0 <= i <= k :: Calm(beats[i], st.pods, a);
    UpToThePod(cfg, a, st, beats);
    var st1 := st.(pvcs := WithPvc(cfg, st.pvcs, a));
    if a.spec.state.Stopped? {
      StoppingRun(cfg, a, st1, beats, k);
    } else if Drifted(st.pods, a) {
      LateReplacingRun(cfg, a, st1, beats, k);
    } else {
      ReadAndLeft(cfg, a, st1, beats, k);
    }
  }

  /** One served run of a stored agent, from any store and with its old pod going at
      any time: exactly when it completes, where that leads, and what a run that
      gives up leaves behind. */
  lemma ServedRunCompletesIff(cfg: Config, a: Agent, st: Store, beats: seq<Beat>)
    requires a.name in st.agents && AllServed(beats) && |beats| >= 12
    ensures
      var (rec', st') := RunBeats(cfg, Start(a), st, beats);
      if GetsThrough(st, a, beats) then
        rec'.pc.Completed? && (RightlyDoomed(st.pods, a) ==> Outcome(st', a) == Target(cfg, st, a))
      else
        && rec'.pc.Aborted? && st'.pvcs == WithPvc(cfg, st.pvcs, a)
        && st'.policies == st.policies && st'.services == st.services
  {
    hide RunBeats, PodName, BuildPvc, Outcome, Target, PodNeedsUpdate, RightlyDoomed;
    if PodName(a.name) in st.pods && st.pods[PodName(a.name)].terminating {
      if i :| 0 <= i <= PodReadAt(st, a) && beats[i].gone {
        GoneInTime(cfg, a, PvcGet, st, beats, i);
        ServedRunIsBlockedIff(cfg, a, SettleStore(true, st, a), beats);
      } else {
        FindingRun(cfg, a, st, beats);
      }
    } else {
      ServedRunIsBlockedIff(cfg, a, st, beats);
    }
    if RunBeats(cfg, Start(a), st, beats).0.pc.Completed? && RightlyDoomed(st.pods, a) {
      assert Attempts(cfg, a, st, []) == st;
      InterruptionsDoNotMatter(cfg, a, st, [], beats);
    }
  }

  /** The rerun after an attempt that stopped between deleting a drifted pod and
      creating the next one: when served, it completes iff the old pod goes before
      the pod is read, or else exactly between the second deletion and the creation;
      going before the second deletion makes that fail. */
  lemma RerunAfterDeletion(cfg: Config, a: Agent, st: Store, beats: seq<Beat>)
    requires a.name in st.agents && AllServed(beats) && |beats| >= 12
    requires Drifted(st.pods, a) && st.pods[PodName(a.name)].terminating
    ensures
      var k := PodReadAt(st, a);
      var (rec', st') := RunBeats(cfg, Start(a), st, beats);
      && (rec'.pc.Completed?
          <==> (exists i | 0 <= i <= k :: beats[i].gone) || (!beats[k + 1].gone && beats[k + 2].gone))
      && (rec'.pc.Completed? ==> Outcome(st', a) == Target(cfg, st, a))
  {
    hide RunBeats, PodName, Outcome, Target;
    ServedRunCompletesIff(cfg, a, st, beats);
  }

  function QuietBeats(n: nat): (beats: seq<Beat>)
    ensures |beats| == n && forall i | 0 <= i < n :: beats[i] == Beat(false, Delivered)
  {
    seq(n, _ => Beat(false, Delivered))
  }

  /** A pod on its way out that looks up to date does not stop a served run, but is
      missing in the end unless it goes before the pod is read. */
  lemma DoomedPodIsMissed(cfg: Config, a: Agent, st: Store, beats: seq<Beat>)
    requires a.name in st.agents && AllServed(beats) && |beats| >= 12 && !RightlyDoomed(st.pods, a)
    ensures
      var (rec', st') := RunBeats(cfg, Start(a), st, beats);
      && rec'.pc.Completed?
      && (PodName(a.name) in Outcome(st', a).pods <==> exists i | 0 <= i <= PodReadAt(st, a) :: beats[i].gone)
  {
    hide RunBeats, PodName, BuildPvc, PodNeedsUpdate, BeatStep;
    var k := PodReadAt(st, a);
    if i :| 0 <= i <= k && beats[i].gone {
      GoneInTime(cfg, a, PvcGet, st, beats, i);
      ServedRunIsBlockedIff(cfg, a, SettleStore(true, st, a), beats);
    } else {
      assert forall i | 0 <= i <= k :: Calm(beats[i], st.pods, a);
      UpToThePod(cfg, a, st, beats);
      ReadAndLeft(cfg, a, st.(pvcs := WithPvc(cfg, st.pvcs, a)), beats, k);
    }
  }

  /** Recovery, exactly: every history of interrupted attempts, with any replies and
      with deleted pods going at any time, that ends in a completed run leads a
      stored agent to its target iff no pod it takes for up to date was on its way
      out at the start. */
  lemma RecoversIff(cfg: Config, a: Agent, st: Store)
    requires a.name in st.agents
    ensures
      (forall attempts, last | RunBeats(cfg, Start(a), Attempts(cfg, a, st, attempts), last).0.pc.Completed? ::
         Outcome(RunBeats(cfg, Start(a), Attempts(cfg, a, st, attempts), last).1, a) == Target(cfg, st, a))
      <==> RightlyDoomed(st.pods, a)
  {
    hide RunBeats, Outcome, PodName, RightlyDoomed;
    if RightlyDoomed(st.pods, a) {
      forall attempts, last | RunBeats(cfg, Start(a), Attempts(cfg, a, st, attempts), last).0.pc.Completed?
        ensures Outcome(RunBeats(cfg, Start(a), Attempts(cfg, a, st, attempts), last).1, a) == Target(cfg, st, a)
      {
        InterruptionsDoNotMatter(cfg, a, st, attempts, last);
      }
    } else {
      DoomedPodIsMissed(cfg, a, st, QuietBeats(12));
      DoomedTargetHasPod(cfg, a, st);
      assert Attempts(cfg, a, st, []) == st;
      assert RunBeats(cfg, Start(a), Attempts(cfg, a, st, []), QuietBeats(12)).0.pc.Completed?;
    }
  }

  lemma DoomedTargetHasPod(cfg: Config, a: Agent, st: Store)
    requires !RightlyDoomed(st.pods, a)
    ensures PodName(a.name) in Target(cfg, st, a).pods
  {
    hide PodNeedsUpdate;
  }

  // ---------------------------------------------------------------------
  // When the API server rewrites a limit
  // ---------------------------------------------------------------------

  /** Nothing of the agent exists but the claim. */
  predicate OnlyClaim(st: Store, a: Agent) {
    && a.name in st.agents && PvcName(a.name) in st.pvcs
    && PodName(a.name) !in st.pods && PolicyName(a.name) !in st.policies
  }

  /** An attempt that stops right after creating the pod, while a limit is being
      rewritten: the next run wants to replace the new pod and, unless that goes
      within the two seconds, gives up before the policy that the first attempt
      would have gone on to create. */
  lemma Interrupted(cfg: Config, a: Agent, st: Store, beats: seq<Beat>)
    requires OnlyClaim(st, a) && a.spec.state.Running? && !KeepsLimits(cfg, a.spec)
    requires AllServed(beats) && |beats| >= 12 && !beats[3].gone
    ensures
      var mid := RunBeats(cfg, Start(a), st, QuietBeats(3)).1;
      && mid == st.(pods := st.pods[PodName(a.name) := Admit(cfg, BuildPod(cfg, a))])
      && RunBeats(cfg, Start(a), mid, beats).0.pc.Aborted?
      && PolicyName(a.name) !in RunBeats(cfg, Start(a), mid, beats).1.policies
    ensures PolicyName(a.name) in RunBeats(cfg, Start(a), st, beats).1.policies
  {
    hide RunBeats, PodName, PvcName, PolicyName, BuildPod, Outcome, PodNeedsUpdate, BeatStep;
    var three := QuietBeats(3);
    assert three[0..] == three && three[3..] == [];
    ClaimIsRead(cfg, a, st, three[0]);
    NextBeat(cfg, Start(a), st, three, 0);
    PodIsRead(cfg, a, st, three[1]);
    NextBeat(cfg, Rec(a, PodGet), st, three, 1);
    PodIsWritten(cfg, a, PodCreate, st, three[2]);
    NextBeat(cfg, Rec(a, PodCreate), st, three, 2);
    var mid := st.(pods := st.pods[PodName(a.name) := Admit(cfg, BuildPod(cfg, a))]);
    NoBeats(cfg, Rec(a, PolicyGet), mid);
    DriftIff(cfg, a, mid.pods[PodName(a.name)]);
    BuiltNotTerminating(cfg, a);
    ServedRunIsBlockedIff(cfg, a, mid, beats);
    ServedRunIsBlockedIff(cfg, a, st, beats);
    assert PolicyName(a.name) in Target(cfg, st, a).policies;
    SamePolicies(RunBeats(cfg, Start(a), st, beats).1, a);
  }

  lemma NoBeats(cfg: Config, rec: Rec, st: Store)
    ensures RunBeats(cfg, rec, st, []) == (rec, st)
  {
  }

  lemma BuiltNotTerminating(cfg: Config, a: Agent)
    ensures !Admit(cfg, BuildPod(cfg, a)).terminating
  {
  }

  lemma SamePolicies(st: Store, a: Agent)
    ensures Outcome(st, a).policies == st.policies
  {
  }
}
