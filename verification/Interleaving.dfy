/** Reconciles of different agents do not get in each other's way: any interleaving
    of them comes to the same as running them one after the other, in any order,
    and leaves the objects of all other agents alone. */
module Interleaving {
  import opened Wrappers
  import opened Crd
  import opened Resources
  import opened ApiServer
  import opened Reconciler

  // ---------------------------------------------------------------------
  // What belongs to an agent's name
  // ---------------------------------------------------------------------

  /** Everything the store holds under the names of one agent. */
  datatype Slice = Slice(
    agent: Option<Stored>,
    pod: Option<Pod>,
    pvc: Option<Pvc>,
    policy: Option<NetworkPolicy>,
    service: Option<Service>)

  function SliceOf(st: Store, n: string): Slice {
    Slice(
      Lookup(st.agents, n),
      Lookup(st.pods, PodName(n)),
      Lookup(st.pvcs, PvcName(n)),
      Lookup(st.policies, PolicyName(n)),
      Lookup(st.services, ServiceName(n)))
  }

  /** The stores differ at most in what they hold under `n`'s names. */
  predicate SameOutside(st: Store, st': Store, n: string) {
    && st'.agents - {n} == st.agents - {n}
    && st'.pods - {PodName(n)} == st.pods - {PodName(n)}
    && st'.pvcs - {PvcName(n)} == st.pvcs - {PvcName(n)}
    && st'.policies - {PolicyName(n)} == st.policies - {PolicyName(n)}
    && st'.services - {ServiceName(n)} == st.services - {ServiceName(n)}
    && st'.nextUid == st.nextUid
  }

  lemma OthersUntouched(st: Store, st': Store, n: string, other: string)
    requires SameOutside(st, st', n) && n != other
    ensures SliceOf(st', other) == SliceOf(st, other)
  {
    NamesInjective(n, other);
    LookupOutside(st.agents, st'.agents, n, other);
    LookupOutside(st.pods, st'.pods, PodName(n), PodName(other));
    LookupOutside(st.pvcs, st'.pvcs, PvcName(n), PvcName(other));
    LookupOutside(st.policies, st'.policies, PolicyName(n), PolicyName(other));
    LookupOutside(st.services, st'.services, ServiceName(n), ServiceName(other));
  }

  lemma LookupOutside<V>(m: map<string, V>, m': map<string, V>, k: string, other: string)
    requires m' - {k} == m - {k} && k != other
    ensures Lookup(m', other) == Lookup(m, other)
  {
    assert other in m <==> other in m - {k};
    assert other in m' <==> other in m' - {k};
    if other in m {
      assert (m - {k})[other] == m[other] && (m' - {k})[other] == m'[other];
    }
  }

  // ---------------------------------------------------------------------
  // A step writes and reads its own agent's part only
  // ---------------------------------------------------------------------

  /** A request a reconcile of `n` may make. */
  predicate Concerns(op: Op, n: string) {
    match op
    case GetPvc(k) => k == PvcName(n)
    case CreatePvc(pvc) => pvc.meta.name == PvcName(n)
    case GetPod(k) => k == PodName(n)
    case CreatePod(pod) => pod.meta.name == PodName(n)
    case DeletePod(k) => k == PodName(n)
    case GetPolicy(k) => k == PolicyName(n)
    case CreatePolicy(np) => np.meta.name == PolicyName(n)
    case GetService(k) => k == ServiceName(n)
    case CreateService(svc) => svc.meta.name == ServiceName(n)
    case PatchStatus(m, _) => m == n
    case _ => false
  }

  lemma RequestsConcernTheAgent(cfg: Config, rec: Rec)
    requires !Halted(rec)
    ensures Concerns(NextOp(cfg, rec), rec.agent.name)
  {
    hide PodName, PvcName, PolicyName, ServiceName;
  }

  lemma RequestIsLocal(cfg: Config, st: Store, op: Op, n: string)
    requires Concerns(op, n)
    ensures SameOutside(st, StoreAfterOp(cfg, st, op), n)
  {
    hide PodName, PvcName, PolicyName, ServiceName, Admit, EncodeStatus;
  }

  lemma RequestReadsItsOwn(cfg: Config, st: Store, other: Store, op: Op, n: string)
    requires Concerns(op, n) && SliceOf(st, n) == SliceOf(other, n)
    ensures Answer(st, op) == Answer(other, op)
    ensures SliceOf(StoreAfterOp(cfg, st, op), n) == SliceOf(StoreAfterOp(cfg, other, op), n)
  {
    hide PodName, PvcName, PolicyName, ServiceName, Admit, EncodeStatus;
  }

  lemma StepIsLocal(cfg: Config, rec: Rec, st: Store, reply: Reply)
    ensures SameOutside(st, Step(cfg, rec, st, reply).1, rec.agent.name)
    ensures Step(cfg, rec, st, reply).0.agent == rec.agent
  {
    hide NextOp, StoreAfterOp, Answer, NextPc, PodName, PvcName, PolicyName, ServiceName;
    if !Halted(rec) {
      RequestsConcernTheAgent(cfg, rec);
      RequestIsLocal(cfg, st, NextOp(cfg, rec), rec.agent.name);
    }
  }

  lemma StepReadsItsOwn(cfg: Config, rec: Rec, st: Store, other: Store, reply: Reply)
    requires SliceOf(st, rec.agent.name) == SliceOf(other, rec.agent.name)
    ensures Step(cfg, rec, st, reply).0 == Step(cfg, rec, other, reply).0
    ensures
      SliceOf(Step(cfg, rec, st, reply).1, rec.agent.name) == SliceOf(Step(cfg, rec, other, reply).1, rec.agent.name)
  {
    hide NextOp, StoreAfterOp, Answer, NextPc, SliceOf;
    if !Halted(rec) {
      RequestsConcernTheAgent(cfg, rec);
      RequestReadsItsOwn(cfg, st, other, NextOp(cfg, rec), rec.agent.name);
    }
  }

  // ---------------------------------------------------------------------
  // Steps of different agents commute
  // ---------------------------------------------------------------------

  lemma MapsAgree<V>(m: map<string, V>, one: map<string, V>, two: map<string, V>,
                     oneTwo: map<string, V>, twoOne: map<string, V>, k: string, l: string)
    requires k != l
    requires one - {k} == m - {k} && oneTwo - {l} == one - {l}
    requires two - {l} == m - {l} && twoOne - {k} == two - {k}
    requires Lookup(twoOne, k) == Lookup(one, k) && Lookup(oneTwo, l) == Lookup(two, l)
    ensures oneTwo == twoOne
  {
    LookupOutside(one, oneTwo, l, k);
    LookupOutside(two, twoOne, k, l);
    forall x | x != k && x != l
      ensures Lookup(oneTwo, x) == Lookup(twoOne, x)
    {
      LookupOutside(m, one, k, x);
      LookupOutside(one, oneTwo, l, x);
      LookupOutside(m, two, l, x);
      LookupOutside(two, twoOne, k, x);
    }
    SameLookups(oneTwo, twoOne);
  }

  lemma SameLookups<V>(m: map<string, V>, m': map<string, V>)
    requires forall x :: Lookup(m, x) == Lookup(m', x)
    ensures m == m'
  {
    forall x: string
      ensures x in m <==> x in m'
      ensures x in m ==> m[x] == m'[x]
    {
      assert Lookup(m, x) == Lookup(m', x);
    }
  }

  lemma StoresAgree(st: Store, one: Store, two: Store, oneTwo: Store, twoOne: Store, n: string, o: string)
    requires n != o
    requires SameOutside(st, one, n) && SameOutside(one, oneTwo, o)
    requires SameOutside(st, two, o) && SameOutside(two, twoOne, n)
    requires SliceOf(twoOne, n) == SliceOf(one, n) && SliceOf(oneTwo, o) == SliceOf(two, o)
    ensures oneTwo == twoOne
  {
    hide PodName, PvcName, PolicyName, ServiceName;
    NamesInjective(n, o);
    MapsAgree(st.agents, one.agents, two.agents, oneTwo.agents, twoOne.agents, n, o);
    MapsAgree(st.pods, one.pods, two.pods, oneTwo.pods, twoOne.pods, PodName(n), PodName(o));
    MapsAgree(st.pvcs, one.pvcs, two.pvcs, oneTwo.pvcs, twoOne.pvcs, PvcName(n), PvcName(o));
    MapsAgree(st.policies, one.policies, two.policies, oneTwo.policies, twoOne.policies, PolicyName(n), PolicyName(o));
    MapsAgree(st.services, one.services, two.services, oneTwo.services, twoOne.services,
              ServiceName(n), ServiceName(o));
  }

  lemma StepsCommute(cfg: Config, rec: Rec, other: Rec, st: Store, reply: Reply, reply': Reply)
    requires rec.agent.name != other.agent.name
    ensures
      var (rec1, st1) := Step(cfg, rec, st, reply);
      var (other1, st2) := Step(cfg, other, st, reply');
      && Step(cfg, other, st1, reply').0 == other1
      && Step(cfg, rec, st2, reply).0 == rec1
      && Step(cfg, other, st1, reply').1 == Step(cfg, rec, st2, reply).1
  {
    hide Step, SameOutside, SliceOf;
    var n, o := rec.agent.name, other.agent.name;
    var st1, st2 := Step(cfg, rec, st, reply).1, Step(cfg, other, st, reply').1;
    var st12, st21 := Step(cfg, other, st1, reply').1, Step(cfg, rec, st2, reply).1;
    StepIsLocal(cfg, rec, st, reply);
    StepIsLocal(cfg, other, st, reply');
    StepIsLocal(cfg, other, st1, reply');
    StepIsLocal(cfg, rec, st2, reply);
    OthersUntouched(st, st1, n, o);
    OthersUntouched(st, st2, o, n);
    StepReadsItsOwn(cfg, other, st, st1, reply');
    StepReadsItsOwn(cfg, rec, st, st2, reply);
    StoresAgree(st, st1, st2, st12, st21, n, o);
  }

  // ---------------------------------------------------------------------
  // Whole interleavings
  // ---------------------------------------------------------------------

  /** One request of the reconcile `id`, and how it is answered. */
  datatype Turn = Turn(id: nat, reply: Reply)

  /** Reconciles in flight over a store. */
  datatype Team = Team(recs: map<nat, Rec>, store: Store)

  function TurnTeam(cfg: Config, t: Team, turn: Turn): Team {
    if turn.id in t.recs then
      var (rec, st) := Step(cfg, t.recs[turn.id], t.store, turn.reply);
      Team(t.recs[turn.id := rec], st)
    else t
  }

  function RunTeam(cfg: Config, t: Team, turns: seq<Turn>): Team
    decreases |turns|, 1
  {
    if turns == [] then t else RunRest(cfg, t, turns)
  }

  function RunRest(cfg: Config, t: Team, turns: seq<Turn>): Team
    requires turns != []
    decreases |turns|, 0
  {
    RunTeam(cfg, TurnTeam(cfg, t, turns[0]), turns[1..])
  }

  /** The reconciles work on different agents. */
  ghost predicate Distinct(recs: map<nat, Rec>) {
    forall i, j | i in recs && j in recs && recs[i].agent.name == recs[j].agent.name :: i == j
  }

  lemma TurnKeepsDistinct(cfg: Config, t: Team, turn: Turn)
    requires Distinct(t.recs)
    ensures Distinct(TurnTeam(cfg, t, turn).recs)
  {
    hide Step;
    if turn.id in t.recs {
      StepIsLocal(cfg, t.recs[turn.id], t.store, turn.reply);
    }
  }

  lemma TurnsCommute(cfg: Config, t: Team, one: Turn, two: Turn)
    requires Distinct(t.recs) && one.id != two.id
    ensures TurnTeam(cfg, TurnTeam(cfg, t, one), two) == TurnTeam(cfg, TurnTeam(cfg, t, two), one)
  {
    hide Step;
    if one.id in t.recs && two.id in t.recs {
      StepsCommute(cfg, t.recs[one.id], t.recs[two.id], t.store, one.reply, two.reply);
      SwapUpdates(t.recs, one.id, Step(cfg, t.recs[one.id], t.store, one.reply).0,
                  two.id, Step(cfg, t.recs[two.id], t.store, two.reply).0);
    }
  }

  lemma SwapUpdates(recs: map<nat, Rec>, i: nat, x: Rec, j: nat, y: Rec)
    requires i != j
    ensures recs[i := x][j := y] == recs[j := y][i := x]
  {
  }

  function Only(turns: seq<Turn>, id: nat): seq<Turn> {
    if turns == [] then [] else (if turns[0].id == id then [turns[0]] else []) + Only(turns[1..], id)
  }

  function Without(turns: seq<Turn>, id: nat): seq<Turn> {
    if turns == [] then [] else (if turns[0].id == id then [] else [turns[0]]) + Without(turns[1..], id)
  }

  lemma {:induction false} RunTeamConcat(cfg: Config, t: Team, turns: seq<Turn>, more: seq<Turn>)
    ensures RunTeam(cfg, t, turns + more) == RunTeam(cfg, RunTeam(cfg, t, turns), more)
    decreases |turns|
  {
    hide TurnTeam;
    if turns == [] {
      assert turns + more == more;
    } else {
      assert (turns + more)[0] == turns[0] && (turns + more)[1..] == turns[1..] + more;
      RunTeamConcat(cfg, TurnTeam(cfg, t, turns[0]), turns[1..], more);
    }
  }

  /** A turn moves past any turns of another reconcile. */
  lemma {:induction false} MovesPast(cfg: Config, t: Team, turn: Turn, turns: seq<Turn>)
    requires Distinct(t.recs) && forall i | 0 <= i < |turns| :: turns[i].id != turn.id
    ensures RunTeam(cfg, TurnTeam(cfg, t, turn), turns) == TurnTeam(cfg, RunTeam(cfg, t, turns), turn)
    decreases |turns|
  {
    hide TurnTeam, Distinct;
    if turns != [] {
      TurnsCommute(cfg, t, turn, turns[0]);
      TurnKeepsDistinct(cfg, t, turns[0]);
      MovesPast(cfg, TurnTeam(cfg, t, turns[0]), turn, turns[1..]);
    }
  }

  lemma {:induction false} OnlyIsOnly(turns: seq<Turn>, id: nat)
    ensures forall i | 0 <= i < |Only(turns, id)| :: Only(turns, id)[i].id == id
  {
    if turns != [] {
      OnlyIsOnly(turns[1..], id);
    }
  }

  /** Any one reconcile may as well have run first. */
  lemma {:induction false} RunsFirst(cfg: Config, t: Team, turns: seq<Turn>, id: nat)
    requires Distinct(t.recs)
    ensures RunTeam(cfg, t, turns) == RunTeam(cfg, RunTeam(cfg, t, Only(turns, id)), Without(turns, id))
    decreases |turns|
  {
    hide TurnTeam, Distinct;
    if turns != [] {
      var t1 := TurnTeam(cfg, t, turns[0]);
      TurnKeepsDistinct(cfg, t, turns[0]);
      RunsFirst(cfg, t1, turns[1..], id);
      if turns[0].id != id {
        OnlyIsOnly(turns[1..], id);
        MovesPast(cfg, t, turns[0], Only(turns[1..], id));
        assert Only(turns, id) == Only(turns[1..], id);
        assert Without(turns, id)[1..] == Without(turns[1..], id);
      } else {
        assert Only(turns, id)[1..] == Only(turns[1..], id);
        assert Without(turns, id) == Without(turns[1..], id);
      }
    }
  }

  /** The reconciles one after the other, in the given order. */
  function Serial(turns: seq<Turn>, order: seq<nat>): seq<Turn>
    decreases |order|
  {
    if order == [] then [] else Only(turns, order[0]) + Serial(turns, order[1..])
  }

  predicate Covers(order: seq<nat>, turns: seq<Turn>) {
    && (forall i | 0 <= i < |turns| :: turns[i].id in order)
    && (forall i, j | 0 <= i < j < |order| :: order[i] != order[j])
  }

  lemma {:induction false} RunTeamKeepsDistinct(cfg: Config, t: Team, turns: seq<Turn>)
    requires Distinct(t.recs)
    ensures Distinct(RunTeam(cfg, t, turns).recs)
    decreases |turns|
  {
    hide TurnTeam, Distinct;
    if turns != [] {
      TurnKeepsDistinct(cfg, t, turns[0]);
      RunTeamKeepsDistinct(cfg, TurnTeam(cfg, t, turns[0]), turns[1..]);
    }
  }

  lemma {:induction false} OnlyOfOthers(turns: seq<Turn>, id: nat, other: nat)
    requires id != other
    ensures Only(Without(turns, id), other) == Only(turns, other)
  {
    if turns != [] {
      OnlyOfOthers(turns[1..], id, other);
      if turns[0].id != id {
        assert Without(turns, id)[1..] == Without(turns[1..], id);
        assert Without(turns, id)[0] == turns[0];
      } else {
        assert Without(turns, id) == Without(turns[1..], id);
        assert Only(turns, other) == Only(turns[1..], other);
      }
    }
  }

  lemma {:induction false} SerialOfOthers(turns: seq<Turn>, id: nat, order: seq<nat>)
    requires id !in order
    ensures Serial(Without(turns, id), order) == Serial(turns, order)
    decreases |order|
  {
    if order != [] {
      OnlyOfOthers(turns, id, order[0]);
      SerialOfOthers(turns, id, order[1..]);
    }
  }

  lemma {:induction false} WithoutIsWithout(turns: seq<Turn>, id: nat)
    ensures forall i | 0 <= i < |Without(turns, id)| :: Without(turns, id)[i].id != id && Without(turns, id)[i] in turns
  {
    if turns != [] {
      WithoutIsWithout(turns[1..], id);
    }
  }

  lemma RestIsCovered(turns: seq<Turn>, order: seq<nat>)
    requires order != [] && Covers(order, turns)
    ensures Covers(order[1..], Without(turns, order[0])) && order[0] !in order[1..]
  {
    var rest := Without(turns, order[0]);
    WithoutIsWithout(turns, order[0]);
    forall i | 0 <= i < |rest|
      ensures rest[i].id in order[1..]
    {
      assert rest[i] in turns && rest[i].id in order;
    }
  }

  /** Any interleaving of reconciles of different agents, with any failures, ends in
      the same programs and the same store as running them one after the other, in
      whichever order. */
  lemma {:induction false} InterleavingsAreSerial(cfg: Config, t: Team, turns: seq<Turn>, order: seq<nat>)
    requires Distinct(t.recs) && Covers(order, turns)
    ensures RunTeam(cfg, t, turns) == RunTeam(cfg, t, Serial(turns, order))
    decreases |order|
  {
    hide TurnTeam, Distinct;
    if order != [] {
      var id := order[0];
      var t1 := RunTeam(cfg, t, Only(turns, id));
      RunsFirst(cfg, t, turns, id);
      RunTeamKeepsDistinct(cfg, t, Only(turns, id));
      RestIsCovered(turns, order);
      InterleavingsAreSerial(cfg, t1, Without(turns, id), order[1..]);
      SerialOfOthers(turns, id, order[1..]);
      RunTeamConcat(cfg, t, Only(turns, id), Serial(turns, order[1..]));
    }
  }

  /** An agent none of them works on keeps its objects and its status. */
  lemma {:induction false} ThirdPartiesUntouched(cfg: Config, t: Team, turns: seq<Turn>, n: string)
    requires forall id | id in t.recs :: t.recs[id].agent.name != n
    ensures SliceOf(RunTeam(cfg, t, turns).store, n) == SliceOf(t.store, n)
    decreases |turns|
  {
    hide Step, SliceOf, SameOutside;
    if turns != [] {
      if turns[0].id in t.recs {
        var rec := t.recs[turns[0].id];
        StepIsLocal(cfg, rec, t.store, turns[0].reply);
        OthersUntouched(t.store, Step(cfg, rec, t.store, turns[0].reply).1, rec.agent.name, n);
      }
      ThirdPartiesUntouched(cfg, TurnTeam(cfg, t, turns[0]), turns[1..], n);
    }
  }
}
