/** Where every job of a cluster is. */
module Jobs {
  // Where every job of a krio-parallel cluster is, over whole runs.
  //
  // The deques and the injector are the sequences that DequeSteps justifies: a push, pop or
  // steal takes effect at one step, a steal may come back empty-handed at any time. Agents go
  // through `drive_once`; outsiders spawn and wake. The wake registry's two operations are the
  // functions of the module Parked, one step each.

  import P = Parked
  import D = DequeSteps

  type Id = nat

  const IDS: nat := 0x1_0000_0000_0000_0000

  /** An agent between two steps of `drive_once`; the job it holds, if any, is in its hand. */
  datatype Agent =
    | Away                       // outside a pass, or leaving one
    | PopOwn
    | PopInjector
    | Stealing
    | Got(id: Id)                // about to step
    | Running(id: Id)            // inside Task::step
    | Parking(id: Id)            // the step returned Pending, about to park
    | Requeue(id: Id)            // about to push onto its own deque
    | Spilling(id: Id)           // deque full, about to push to the injector

  /** A thread that spawns or wakes. */
  datatype Outsider =
    | Resting
    | Spawning(id: Id)           // id minted, about to push to the injector
    | Woke(id: Id)               // took a parked job, about to push it to the injector

  /** `live` is history: ids minted and not completed. `owed` is history too: ids woken
      since their last step began. */
  datatype State = State(
    injector: seq<Id>, deques: seq<seq<Id>>, cap: nat,
    registry: P.Registry<Id>,
    agents: seq<Agent>, outsiders: seq<Outsider>,
    nextId: nat, minted: nat, live: set<Id>, owed: set<Id>)

  /** What the environment decides. */
  datatype Choice =
    | Leave                      // stop, barrier or deadline: end the pass here
    | Go                         // the ordinary next step; a task completes
    | Yield
    | Pending
    | Victim(v: nat)
    | SpawnHere                  // spawn_on this agent

  datatype Actor =
    | AgentActs(i: nat, c: Choice)
    | Spawn(j: nat)
    | Wake(j: nat, id: Id)
    | Push(j: nat)

  // ── Steps ────────────────────────────────────────────────────────────

  function Minted(s: State): State {
    s.(nextId := (s.nextId + 1) % IDS, minted := s.minted + 1, live := s.live + {s.nextId})
  }

  function AgentStep(s: State, i: nat, c: Choice): State
    requires i < |s.agents| == |s.deques|
  {
    match s.agents[i]
    case Away =>
      if c.SpawnHere? then Minted(s).(agents := s.agents[i := Requeue(s.nextId)])
      else s.(agents := s.agents[i := PopOwn])
    case PopOwn =>
      var d := s.deques[i];
      if d != [] then s.(deques := s.deques[i := d[..|d| - 1]], agents := s.agents[i := Got(d[|d| - 1])])
      else s.(agents := s.agents[i := PopInjector])
    case PopInjector =>
      if s.injector != [] then s.(injector := s.injector[1..], agents := s.agents[i := Got(s.injector[0])])
      else s.(agents := s.agents[i := Stealing])
    case Stealing =>
      if c.Victim? && c.v < |s.deques| && c.v != i && s.deques[c.v] != []
      then s.(deques := s.deques[c.v := s.deques[c.v][1..]], agents := s.agents[i := Got(s.deques[c.v][0])])
      else if c.Leave? then s.(agents := s.agents[i := Away])
      else s
    case Got(id) => s.(agents := s.agents[i := Running(id)], owed := s.owed - {id})
    case Running(id) =>
      (match c
       case Pending => s.(agents := s.agents[i := Parking(id)])
       case Yield => s.(agents := s.agents[i := Requeue(id)])
       case Go => s.(agents := s.agents[i := Away], live := s.live - {id})
       case _ => s)
    case Parking(id) =>
      var (r, back) := P.ParkIn(s.registry, id, id);
      s.(registry := r, agents := s.agents[i := if back.Some? then Requeue(back.value) else Away])
    case Requeue(id) =>
      if |s.deques[i]| < s.cap then s.(deques := s.deques[i := s.deques[i] + [id]], agents := s.agents[i := Away])
      else s.(agents := s.agents[i := Spilling(id)])
    case Spilling(id) => s.(injector := s.injector + [id], agents := s.agents[i := Away])
  }

  function Step(s: State, a: Actor): State
    requires |s.agents| == |s.deques|
  {
    match a
    case AgentActs(i, c) => if i < |s.agents| then AgentStep(s, i, c) else s
    case Spawn(j) =>
      if j < |s.outsiders| && s.outsiders[j].Resting?
      then Minted(s).(outsiders := s.outsiders[j := Spawning(s.nextId)]) else s
    case Wake(j, id) =>
      if j < |s.outsiders| && s.outsiders[j].Resting? then
        var (r, job) := P.WakeIn(s.registry, id);
        s.(registry := r, owed := s.owed + {id},
           outsiders := if job.Some? then s.outsiders[j := Woke(job.value)] else s.outsiders)
      else s
    case Push(j) =>
      if j < |s.outsiders| && !s.outsiders[j].Resting?
      then s.(injector := s.injector + [s.outsiders[j].id], outsiders := s.outsiders[j := Resting]) else s
  }

  ghost predicate Init(s: State) {
    && |s.agents| == |s.deques|
    && s.injector == [] && (forall i :: 0 <= i < |s.deques| ==> s.deques[i] == [])
    && s.registry == P.Registry(map[], {}, 0)
    && (forall i :: 0 <= i < |s.agents| ==> s.agents[i] == Away)
    && (forall j :: 0 <= j < |s.outsiders| ==> s.outsiders[j] == Resting)
    && s.nextId == 1 && s.minted == 0 && s.live == {} && s.owed == {}
  }

  // ── All the places a job can be ──────────────────────────────────────

  /** How often `id` stands in a queue. */
  function In(q: seq<Id>, id: Id): nat { multiset(q)[id] }

  function Total(bags: seq<seq<Id>>, id: Id): nat {
    if |bags| == 0 then 0 else Total(bags[..|bags| - 1], id) + In(bags[|bags| - 1], id)
  }

  function Hand(a: Agent): seq<Id> {
    match a
    case Got(id) => [id]
    case Running(id) => [id]
    case Parking(id) => [id]
    case Requeue(id) => [id]
    case Spilling(id) => [id]
    case _ => []
  }

  function OutsideHand(o: Outsider): seq<Id> {
    match o
    case Resting => []
    case Spawning(id) => [id]
    case Woke(id) => [id]
  }

  function Hands(agents: seq<Agent>): (r: seq<seq<Id>>)
    ensures |r| == |agents| && forall i :: 0 <= i < |r| ==> r[i] == Hand(agents[i])
  {
    seq(|agents|, i requires 0 <= i < |agents| => Hand(agents[i]))
  }

  function OutsideHands(outsiders: seq<Outsider>): (r: seq<seq<Id>>)
    ensures |r| == |outsiders| && forall j :: 0 <= j < |r| ==> r[j] == OutsideHand(outsiders[j])
  {
    seq(|outsiders|, j requires 0 <= j < |outsiders| => OutsideHand(outsiders[j]))
  }

  /** How many places of the cluster hold `id`. */
  function Places(s: State, id: Id): nat {
    Total(s.deques, id) + In(s.injector, id) + (if id in s.registry.tasks then 1 else 0)
    + Total(Hands(s.agents), id) + Total(OutsideHands(s.outsiders), id)
  }

  lemma {:induction false} TotalUpdate(bags: seq<seq<Id>>, i: nat, b: seq<Id>, id: Id)
    requires i < |bags|
    ensures In(bags[i], id) <= Total(bags, id)
    ensures Total(bags[i := b], id) == Total(bags, id) - In(bags[i], id) + In(b, id)
  {
    hide In;
    var n := |bags| - 1;
    if i == n {
      assert bags[i := b][..n] == bags[..n];
    } else {
      assert bags[i := b][..n] == bags[..n][i := b];
      TotalUpdate(bags[..n], i, b, id);
    }
  }

  lemma HandsUpdate(agents: seq<Agent>, i: nat, a: Agent, id: Id)
    requires i < |agents|
    ensures In(Hand(agents[i]), id) <= Total(Hands(agents), id)
    ensures Total(Hands(agents[i := a]), id)
         == Total(Hands(agents), id) - In(Hand(agents[i]), id) + In(Hand(a), id)
  {
    TotalUpdate(Hands(agents), i, Hand(a), id);
    assert Hands(agents[i := a]) == Hands(agents)[i := Hand(a)];
  }

  lemma OutsideHandsUpdate(outsiders: seq<Outsider>, j: nat, o: Outsider, id: Id)
    requires j < |outsiders|
    ensures In(OutsideHand(outsiders[j]), id) <= Total(OutsideHands(outsiders), id)
    ensures Total(OutsideHands(outsiders[j := o]), id)
         == Total(OutsideHands(outsiders), id) - In(OutsideHand(outsiders[j]), id) + In(OutsideHand(o), id)
  {
    TotalUpdate(OutsideHands(outsiders), j, OutsideHand(o), id);
    assert OutsideHands(outsiders[j := o]) == OutsideHands(outsiders)[j := OutsideHand(o)];
  }

  function One(b: bool): nat { if b then 1 else 0 }

  lemma InSingle(x: Id, id: Id)
    ensures In([x], id) == One(x == id) && In([], id) == 0
  {
  }

  lemma InPushed(q: seq<Id>, x: Id, id: Id)
    ensures In(q + [x], id) == In(q, id) + One(x == id)
  {
  }

  lemma InPopped(q: seq<Id>, id: Id)
    requires q != []
    ensures In(q[..|q| - 1], id) + One(q[|q| - 1] == id) == In(q, id)
    ensures In(q[1..], id) + One(q[0] == id) == In(q, id)
  {
    assert q == q[..|q| - 1] + [q[|q| - 1]];
    assert q == [q[0]] + q[1..];
  }

  // ── The invariant ────────────────────────────────────────────────────

  /** Every live job is in exactly one place, and nothing else is anywhere. */
  ghost predicate Conserved(s: State) {
    forall id :: Places(s, id) == One(id in s.live)
  }

  ghost predicate IdsOk(s: State) {
    && s.nextId == (s.minted + 1) % IDS
    && (forall id :: id in s.live ==> 1 <= id <= s.minted)
  }

  ghost predicate RegistryOk(s: State) {
    && s.registry.Valid()
    && (forall id :: id in s.registry.tasks ==> s.registry.tasks[id] == id)
  }

  /** A job that is stepping, or stepped and about to park. */
  ghost predicate MidStep(a: Agent, id: Id) {
    a == Running(id) || a == Parking(id)
  }

  /** A wake not yet followed by a step never finds its task parked; if the task is being
      stepped, the wake is on record for its next park. */
  ghost predicate WakesOk(s: State) {
    && (forall id :: id in s.owed ==> id !in s.registry.tasks)
    && (forall i, id :: 0 <= i < |s.agents| && id in s.owed && MidStep(s.agents[i], id) ==> id in s.registry.early)
  }

  ghost predicate Inv(s: State) {
    |s.agents| == |s.deques| && Conserved(s) && IdsOk(s) && RegistryOk(s) && WakesOk(s)
  }

  lemma {:induction false} TotalOfEmpties(bags: seq<seq<Id>>, id: Id)
    requires forall i :: 0 <= i < |bags| ==> bags[i] == []
    ensures Total(bags, id) == 0
  {
    if |bags| > 0 {
      TotalOfEmpties(bags[..|bags| - 1], id);
    }
  }

  lemma InitInv(s: State)
    requires Init(s)
    ensures Inv(s)
  {
    forall id
      ensures Places(s, id) == 0
    {
      TotalOfEmpties(s.deques, id);
      TotalOfEmpties(Hands(s.agents), id);
      TotalOfEmpties(OutsideHands(s.outsiders), id);
    }
  }

  // ── Conservation, step by step ───────────────────────────────────────

  /** A fresh id is held by nobody. */
  lemma FreshId(s: State)
    requires IdsOk(s) && s.minted < IDS - 1
    ensures s.nextId == s.minted + 1 && s.nextId !in s.live
  {
  }

  /** Whether a hand is of `id`, for the places that hold at most one. */
  lemma InHand(a: Agent, id: Id)
    ensures In(Hand(a), id) == One(Hand(a) == [id])
  {
    InSingle(if |Hand(a)| == 1 then Hand(a)[0] else 0, id);
  }

  lemma InOutsideHand(o: Outsider, id: Id)
    ensures In(OutsideHand(o), id) == One(OutsideHand(o) == [id])
  {
    InSingle(if |OutsideHand(o)| == 1 then OutsideHand(o)[0] else 0, id);
  }

  /** An agent's hand changes, and the rest of the cluster makes up for it. */
  lemma AgentMoves(s: State, i: nat, s': State, id: Id)
    requires i < |s.agents| == |s.deques| && |s'.agents| == |s.agents| && |s'.deques| == |s.deques|
    requires s'.agents == s.agents[i := s'.agents[i]] && s'.outsiders == s.outsiders
    ensures Places(s', id) - Total(s'.deques, id) - In(s'.injector, id) - One(id in s'.registry.tasks)
         == Places(s, id) - Total(s.deques, id) - In(s.injector, id) - One(id in s.registry.tasks)
            + One(Hand(s'.agents[i]) == [id]) - One(Hand(s.agents[i]) == [id])
    ensures One(Hand(s.agents[i]) == [id]) <= Total(Hands(s.agents), id)
  {
    hide In;
    hide Total;
    HandsUpdate(s.agents, i, s'.agents[i], id);
    InHand(s.agents[i], id);
    InHand(s'.agents[i], id);
  }

  lemma TakesFromOwn(s: State, i: nat, c: Choice, id: Id)
    requires |s.agents| == |s.deques| && i < |s.agents| && s.agents[i].PopOwn?
    ensures Places(AgentStep(s, i, c), id) == Places(s, id)
  {
    hide In;
    hide Total;
    hide Places;
    var s' := AgentStep(s, i, c);
    AgentMoves(s, i, s', id);
    if s.deques[i] != [] {
      InPopped(s.deques[i], id);
      TotalUpdate(s.deques, i, s'.deques[i], id);
    }
  }

  lemma TakesFromInjector(s: State, i: nat, c: Choice, id: Id)
    requires |s.agents| == |s.deques| && i < |s.agents| && s.agents[i].PopInjector?
    ensures Places(AgentStep(s, i, c), id) == Places(s, id)
  {
    hide In;
    hide Total;
    hide Places;
    AgentMoves(s, i, AgentStep(s, i, c), id);
    if s.injector != [] {
      InPopped(s.injector, id);
    }
  }

  lemma Steals(s: State, i: nat, c: Choice, id: Id)
    requires |s.agents| == |s.deques| && i < |s.agents| && s.agents[i].Stealing?
    ensures Places(AgentStep(s, i, c), id) == Places(s, id)
  {
    hide In;
    hide Total;
    hide Places;
    var s' := AgentStep(s, i, c);
    AgentMoves(s, i, s', id);
    if c.Victim? && c.v < |s.deques| && c.v != i && s.deques[c.v] != [] {
      InPopped(s.deques[c.v], id);
      TotalUpdate(s.deques, c.v, s'.deques[c.v], id);
    }
  }

  lemma Requeues(s: State, i: nat, c: Choice, id: Id)
    requires |s.agents| == |s.deques| && i < |s.agents| && (s.agents[i].Requeue? || s.agents[i].Spilling?)
    ensures Places(AgentStep(s, i, c), id) == Places(s, id)
  {
    hide In;
    hide Total;
    hide Places;
    var s' := AgentStep(s, i, c);
    AgentMoves(s, i, s', id);
    InPushed(s.deques[i], s.agents[i].id, id);
    InPushed(s.injector, s.agents[i].id, id);
    TotalUpdate(s.deques, i, s.deques[i] + [s.agents[i].id], id);
  }

  /** What an agent holds is not parked as well. */
  lemma HeldNotParked(s: State, i: nat, id: Id)
    requires Conserved(s) && |s.agents| == |s.deques| && i < |s.agents| && Hand(s.agents[i]) == [id]
    ensures id !in s.registry.tasks
  {
    hide In;
    hide Total;
    AgentMoves(s, i, s, id);
    assert Places(s, id) == One(id in s.live);
  }

  lemma Parks(s: State, i: nat, c: Choice, id: Id)
    requires Inv(s) && i < |s.agents| && s.agents[i].Parking?
    ensures Places(AgentStep(s, i, c), id) == Places(s, id)
  {
    HeldNotParked(s, i, s.agents[i].id);
    hide In;
    hide Total;
    hide Places;
    AgentMoves(s, i, AgentStep(s, i, c), id);
  }

  lemma Moves(s: State, i: nat, c: Choice, id: Id)
    requires |s.agents| == |s.deques| && i < |s.agents|
    requires s.agents[i].Got? || (s.agents[i].Running? && !c.Go?) || (s.agents[i].Away? && !c.SpawnHere?)
    ensures Places(AgentStep(s, i, c), id) == Places(s, id)
  {
    hide In;
    hide Total;
    hide Places;
    AgentMoves(s, i, AgentStep(s, i, c), id);
  }

  lemma Completes(s: State, i: nat, id: Id)
    requires Inv(s) && i < |s.agents| && s.agents[i].Running?
    ensures Places(AgentStep(s, i, Go), id) == One(id in AgentStep(s, i, Go).live)
  {
    hide In;
    hide Total;
    AgentMoves(s, i, AgentStep(s, i, Go), id);
    assert Places(s, id) == One(id in s.live);
  }

  lemma SpawnsHere(s: State, i: nat, id: Id)
    requires Inv(s) && i < |s.agents| && s.agents[i].Away? && s.minted < IDS - 1
    ensures Places(AgentStep(s, i, SpawnHere), id) == One(id in AgentStep(s, i, SpawnHere).live)
  {
    hide In;
    hide Total;
    hide Places;
    FreshId(s);
    AgentMoves(s, i, AgentStep(s, i, SpawnHere), id);
    assert Places(s, id) == One(id in s.live);
  }

  lemma AgentConserves(s: State, i: nat, c: Choice, id: Id)
    requires Inv(s) && i < |s.agents| && s.minted < IDS - 1
    ensures Places(AgentStep(s, i, c), id) == One(id in AgentStep(s, i, c).live)
  {
    hide Places;
    hide WakesOk;
    hide RegistryOk;
    hide IdsOk;
    assert Places(s, id) == One(id in s.live);
    match s.agents[i]
    case PopOwn => TakesFromOwn(s, i, c, id);
    case PopInjector => TakesFromInjector(s, i, c, id);
    case Stealing => Steals(s, i, c, id);
    case Requeue(_) => Requeues(s, i, c, id);
    case Spilling(_) => Requeues(s, i, c, id);
    case Parking(_) => Parks(s, i, c, id);
    case Got(_) => Moves(s, i, c, id);
    case Running(_) =>
      if c.Go? {
        Completes(s, i, id);
      } else {
        Moves(s, i, c, id);
      }
    case Away =>
      if c.SpawnHere? {
        SpawnsHere(s, i, id);
      } else {
        Moves(s, i, c, id);
      }
  }

  lemma OutsiderConserves(s: State, a: Actor, id: Id)
    requires Inv(s) && !a.AgentActs? && s.minted < IDS - 1
    ensures Places(Step(s, a), id) == One(id in Step(s, a).live)
  {
    hide In;
    hide Total;
    hide WakesOk;
    var s' := Step(s, a);
    assert Places(s, id) == One(id in s.live);
    FreshId(s);
    var j := a.j;
    if j < |s.outsiders| && s'.outsiders != s.outsiders {
      OutsideHandsUpdate(s.outsiders, j, s'.outsiders[j], id);
      InOutsideHand(s.outsiders[j], id);
      InOutsideHand(s'.outsiders[j], id);
      if a.Push? {
        InPushed(s.injector, s.outsiders[j].id, id);
      }
    }
  }

  // ── Ids, registry, wakes ─────────────────────────────────────────────

  lemma IdsKept(s: State, a: Actor)
    requires Inv(s) && s.minted < IDS - 1
    ensures IdsOk(Step(s, a)) && RegistryOk(Step(s, a))
  {
    hide Places;
    FreshId(s);
  }

  /** A step begun, parked, or handed back: what happens to the wakes owed. */
  lemma AgentKeepsWakes(s: State, i: nat, c: Choice)
    requires Inv(s) && i < |s.agents|
    ensures WakesOk(AgentStep(s, i, c))
  {
    hide Places;
    hide IdsOk;
    var s' := AgentStep(s, i, c);
    assert forall j :: 0 <= j < |s'.agents| && j != i ==> s'.agents[j] == s.agents[j];
    if s.agents[i].Got? {
      assert s.agents[i].id !in s'.owed;
    } else if s.agents[i].Parking? {
      ParkKeepsWakes(s, i, c);
    } else {
      assert s'.registry == s.registry && s'.owed == s.owed;
      assert forall id :: MidStep(s'.agents[i], id) ==> MidStep(s.agents[i], id);
    }
  }

  /** No two hands hold the same job. */
  lemma HandsDiffer(s: State, i: nat, j: nat, id: Id)
    requires Conserved(s) && |s.agents| == |s.deques| && i < |s.agents| && j < |s.agents|
    requires Hand(s.agents[i]) == [id] && Hand(s.agents[j]) == [id]
    ensures i == j
  {
    hide In;
    hide Total;
    assert Places(s, id) == One(id in s.live);
    InHand(s.agents[i], id);
    InHand(s.agents[j], id);
    InHand(Away, id);
    HandsUpdate(s.agents, i, Away, id);
    if i != j {
      HandsUpdate(s.agents[i := Away], j, Away, id);
    }
  }

  lemma ParkKeepsWakes(s: State, i: nat, c: Choice)
    requires Inv(s) && i < |s.agents| && s.agents[i].Parking?
    ensures WakesOk(AgentStep(s, i, c))
  {
    hide Places;
    hide IdsOk;
    var mine := s.agents[i].id;
    var s' := AgentStep(s, i, c);
    assert MidStep(s.agents[i], mine);
    forall id | id in s'.owed
      ensures id !in s'.registry.tasks
    {
    }
    forall j, id | 0 <= j < |s'.agents| && id in s'.owed && MidStep(s'.agents[j], id)
      ensures id in s'.registry.early
    {
      assert j != i && MidStep(s.agents[j], id);
      if id == mine {
        HandsDiffer(s, i, j, id);
      }
    }
  }

  lemma WakeKeepsWakes(s: State, j: nat, id: Id)
    requires Inv(s)
    ensures WakesOk(Step(s, Wake(j, id)))
  {
    var s' := Step(s, Wake(j, id));
    forall i, k | 0 <= i < |s'.agents| && k in s'.owed && MidStep(s'.agents[i], k)
      ensures k in s'.registry.early
    {
      assert MidStep(s.agents[i], k);
      HeldNotParked(s, i, k);
    }
  }

  lemma StepConserves(s: State, a: Actor)
    requires Inv(s) && s.minted < IDS - 1
    ensures Conserved(Step(s, a))
  {
    forall id
      ensures Places(Step(s, a), id) == One(id in Step(s, a).live)
    {
      if a.AgentActs? {
        if a.i < |s.agents| {
          AgentConserves(s, a.i, a.c, id);
        } else {
          assert Places(s, id) == One(id in s.live);
        }
      } else {
        OutsiderConserves(s, a, id);
      }
    }
  }

  lemma StepKeepsInv(s: State, a: Actor)
    requires Inv(s) && s.minted < IDS - 1
    ensures Inv(Step(s, a))
  {
    IdsKept(s, a);
    StepConserves(s, a);
    hide Places;
    hide Conserved;
    hide IdsOk;
    hide RegistryOk;
    match a
    case AgentActs(i, c) =>
      if i < |s.agents| {
        AgentKeepsWakes(s, i, c);
      }
    case Wake(j, id) => WakeKeepsWakes(s, j, id);
    case _ =>
  }

  // ── Whole runs ───────────────────────────────────────────────────────

  /** Any interleaving of agents, spawners and wakers that mints fewer ids than there are. */
  ghost predicate IsRun(run: seq<State>, acts: seq<Actor>) {
    && |run| == |acts| + 1 && Init(run[0])
    && (forall k :: 0 <= k < |run| ==> |run[k].agents| == |run[k].deques| && run[k].minted < IDS - 1)
    && (forall k :: 0 <= k < |acts| ==> run[k + 1] == Step(run[k], acts[k]))
  }

  lemma {:induction false} RunInv(run: seq<State>, acts: seq<Actor>, k: nat)
    requires IsRun(run, acts) && k < |run|
    ensures Inv(run[k])
  {
    hide Inv;
    hide Init;
    hide Step;
    if k == 0 {
      InitInv(run[0]);
    } else {
      RunInv(run, acts, k - 1);
      StepKeepsInv(run[k - 1], acts[k - 1]);
    }
  }

  /** Job conservation. In every state of every run, a spawned job that has not completed
      is in exactly one place of the cluster, and no other id is anywhere; ids are nonzero. */
  lemma EveryJobInOnePlace(run: seq<State>, acts: seq<Actor>, k: nat, id: Id)
    requires IsRun(run, acts) && k < |run|
    ensures Places(run[k], id) == if id in run[k].live then 1 else 0
    ensures id in run[k].live ==> 1 <= id <= run[k].minted
  {
    RunInv(run, acts, k);
  }

  /** The registry's count mirrors its map at every unlock, and no id is both parked and
      woken early. */
  lemma RegistryStaysValid(run: seq<State>, acts: seq<Actor>, k: nat)
    requires IsRun(run, acts) && k < |run|
    ensures run[k].registry.count == |run[k].registry.tasks|
    ensures run[k].registry.tasks.Keys !! run[k].registry.early
  {
    RunInv(run, acts, k);
  }

  /** A wake is never lost. From `wake(id)` until the task's next step begins, the task is
      never left parked; and if the wake found it mid-step, its next park hands it straight
      back to be queued. */
  lemma WakeIsNeverLost(run: seq<State>, acts: seq<Actor>, k: nat, id: Id)
    requires IsRun(run, acts) && k < |run| && id in run[k].owed
    ensures id !in run[k].registry.tasks
    ensures forall i :: 0 <= i < |run[k].agents| && run[k].agents[i] == Parking(id) ==>
              Step(run[k], AgentActs(i, Go)).agents[i] == Requeue(id)
  {
    RunInv(run, acts, k);
    var s := run[k];
    forall i | 0 <= i < |s.agents| && s.agents[i] == Parking(id)
      ensures Step(s, AgentActs(i, Go)).agents[i] == Requeue(id)
    {
      assert MidStep(s.agents[i], id);
    }
  }

  /** Where a woken task is: done, on a queue, in a hand on its way to one, or in the hand
      of an agent stepping it with the wake on record. */
  lemma WhereAWokenTaskIs(run: seq<State>, acts: seq<Actor>, k: nat, id: Id)
    requires IsRun(run, acts) && k < |run| && id in run[k].owed && id in run[k].live
    ensures var s := run[k];
            || Total(s.deques, id) == 1 || In(s.injector, id) == 1
            || Total(OutsideHands(s.outsiders), id) == 1 || Total(Hands(s.agents), id) == 1
    ensures forall i :: 0 <= i < |run[k].agents| && MidStep(run[k].agents[i], id) ==> id in run[k].registry.early
  {
    RunInv(run, acts, k);
    EveryJobInOnePlace(run, acts, k, id);
  }

  // ── The deques ───────────────────────────────────────────────────────

  /** The operation of the sequential deque that a step performs on deque `d`. */
  function DequeEvent(s: State, a: Actor, d: nat): D.Event<Id>
    requires |s.agents| == |s.deques| && d < |s.deques|
  {
    if !a.AgentActs? || a.i >= |s.agents| then D.Silent
    else match s.agents[a.i]
      case PopOwn => if d == a.i && s.deques[d] != [] then D.PopBack(s.deques[d][|s.deques[d]| - 1]) else D.Silent
      case Stealing => if a.c == Victim(d) && d != a.i && s.deques[d] != [] then D.PopFront(s.deques[d][0])
        else D.Silent
      case Requeue(id) => if d == a.i && |s.deques[d]| < s.cap then D.PushBack(id) else D.Silent
      case _ => D.Silent
  }

  /** Every step is that operation, and a failed one is a failure of the sequential deque: a
      job is spilled only when the deque is full, and an agent goes to the injector only when
      its own is empty. */
  lemma DequeStep(s: State, a: Actor, d: nat)
    requires |s.agents| == |s.deques| && d < |s.deques|
    ensures Step(s, a).cap == s.cap && |Step(s, a).deques| == |s.deques|
    ensures D.SpecStep(s.cap, s.deques[d], DequeEvent(s, a, d), Step(s, a).deques[d])
    ensures a.AgentActs? && a.i < |s.agents| && s.agents[a.i].Requeue? ==>
              (Step(s, a).agents[a.i].Spilling? <==> |s.deques[a.i]| >= s.cap)
    ensures a.AgentActs? && a.i < |s.agents| && s.agents[a.i].PopOwn? ==>
              (Step(s, a).agents[a.i].PopInjector? <==> s.deques[a.i] == [])
  {
  }

  function EventsOf(run: seq<State>, acts: seq<Actor>, d: nat): (events: seq<D.Event<Id>>)
    requires |run| == |acts| + 1
    requires forall k :: 0 <= k < |acts| ==> |run[k].agents| == |run[k].deques| && d < |run[k].deques|
    ensures |events| == |acts|
  {
    seq(|acts|, k requires 0 <= k < |acts| => DequeEvent(run[k], acts[k], d))
  }

  lemma {:induction false} SameDeques(run: seq<State>, acts: seq<Actor>, k: nat)
    requires IsRun(run, acts) && k < |run|
    ensures |run[k].deques| == |run[0].deques| && run[k].cap == run[0].cap
  {
    hide Init, Step;
    if k > 0 {
      SameDeques(run, acts, k - 1);
      if |run[k - 1].deques| > 0 {
        DequeStep(run[k - 1], acts[k - 1], 0);
      } else {
        NoDeques(run[k - 1], acts[k - 1]);
      }
    }
  }

  lemma NoDeques(s: State, a: Actor)
    requires |s.agents| == |s.deques| == 0
    ensures Step(s, a).cap == s.cap && |Step(s, a).deques| == 0
  {
  }

  /** In every run each deque goes through an execution of the sequential deque, as every run of
      the deque's own accesses does. */
  lemma DequesRunTheSpec(run: seq<State>, acts: seq<Actor>, d: nat)
    requires IsRun(run, acts) && d < |run[0].deques|
    ensures forall k :: 0 <= k < |run| ==> |run[k].deques| == |run[0].deques|
    ensures D.SpecRun(run[0].cap, seq(|run|, k requires 0 <= k < |run| => run[k].deques[d]), EventsOf(run, acts, d))
  {
    forall k | 0 <= k < |run|
      ensures |run[k].deques| == |run[0].deques| && run[k].cap == run[0].cap
    {
      SameDeques(run, acts, k);
    }
    hide Step, D.SpecStep, DequeEvent;
    forall k | 0 <= k < |acts|
      ensures D.SpecStep(run[0].cap, run[k].deques[d], DequeEvent(run[k], acts[k], d), run[k + 1].deques[d])
    {
      DequeStep(run[k], acts[k], d);
    }
  }

  // ── Ids ──────────────────────────────────────────────────────────────

  /** The id of the `n`-th task ever spawned, from a counter of 64 bits. */
  function IdOf(n: nat): nat { (n + 1) % IDS }

  /** A run, however many ids it mints. */
  ghost predicate IsLongRun(run: seq<State>, acts: seq<Actor>) {
    && |run| == |acts| + 1 && Init(run[0])
    && (forall k :: 0 <= k < |run| ==> |run[k].agents| == |run[k].deques|)
    && (forall k :: 0 <= k < |acts| ==> run[k + 1] == Step(run[k], acts[k]))
  }

  /** Step `k` of the run spawns a task, whose id is then `run[k].nextId`. */
  predicate Spawns(run: seq<State>, k: nat) {
    k + 1 < |run| && run[k + 1].minted != run[k].minted
  }

  lemma {:induction false} NextIdIs(run: seq<State>, acts: seq<Actor>, k: nat)
    requires IsLongRun(run, acts) && k < |run|
    ensures run[k].nextId == IdOf(run[k].minted)
    ensures k > 0 ==> run[k].minted == run[k - 1].minted + One(Spawns(run, k - 1))
  {
    hide Init, Step;
    if k > 0 {
      NextIdIs(run, acts, k - 1);
      assert run[k - 1 + 1] == Step(run[k - 1], acts[k - 1]);
      StepMints(run[k - 1], acts[k - 1]);
    } else {
      FirstId(run[0]);
    }
  }

  ghost predicate MintsOneOrNone(s: State, s': State) {
    || (s'.nextId == s.nextId && s'.minted == s.minted)
    || (s'.nextId == (s.nextId + 1) % IDS && s'.minted == s.minted + 1)
  }

  lemma AgentMints(s: State, i: nat, c: Choice)
    requires i < |s.agents| == |s.deques|
    ensures MintsOneOrNone(s, AgentStep(s, i, c))
  {
    hide P.ParkIn;
  }

  lemma StepMints(s: State, a: Actor)
    requires |s.agents| == |s.deques| && s.nextId == IdOf(s.minted)
    ensures var s' := Step(s, a); s'.nextId == IdOf(s'.minted) && (s'.minted == s.minted || s'.minted == s.minted + 1)
  {
    hide AgentStep, P.WakeIn;
    if a.AgentActs? && a.i < |s.agents| {
      AgentMints(s, a.i, a.c);
    }
    IdFollows(s.minted);
    assert MintsOneOrNone(s, Step(s, a));
  }

  lemma IdFollows(n: nat)
    ensures (IdOf(n) + 1) % IDS == IdOf(n + 1)
  {
  }

  lemma FirstId(s: State)
    requires Init(s)
    ensures s.nextId == 1 && s.minted == 0
  {
  }

  lemma {:induction false} MintedGrows(run: seq<State>, acts: seq<Actor>, j: nat, k: nat)
    requires IsLongRun(run, acts) && j < k < |run|
    ensures run[j].minted + One(Spawns(run, j)) <= run[k].minted
    decreases k
  {
    hide Init, Step, Spawns;
    NextIdIs(run, acts, k);
    if j < k - 1 {
      MintedGrows(run, acts, j, k - 1);
    }
  }

  /** Every number below the count was once the number of the next task. */
  lemma {:induction false} SpawnNumber(run: seq<State>, acts: seq<Actor>, k: nat, m: nat) returns (j: nat)
    requires IsLongRun(run, acts) && k < |run| && m < run[k].minted
    ensures j < k && Spawns(run, j) && run[j].minted == m
    decreases k
  {
    hide Init, Step;
    NextIdIs(run, acts, k);
    if k == 0 {
      FirstId(run[0]);
    } else if run[k - 1].minted == m {
      j := k - 1;
    } else {
      j := SpawnNumber(run, acts, k - 1, m);
    }
  }

  /** In a run the tasks spawned get nonzero and pairwise different ids exactly if fewer than
      2^64 are spawned. */
  lemma IdsDistinctIff(run: seq<State>, acts: seq<Actor>)
    requires IsLongRun(run, acts)
    ensures (forall j :: 0 <= j < |run| && Spawns(run, j) ==> run[j].nextId != 0)
         && (forall j, k :: 0 <= j < k < |run| && Spawns(run, j) && Spawns(run, k) ==> run[j].nextId != run[k].nextId)
        <==> run[|run| - 1].minted <= IDS - 1
  {
    hide Init, Step;
    var last := |run| - 1;
    if run[last].minted > IDS - 1 {
      var j := SpawnNumber(run, acts, last, IDS - 1);
      NextIdIs(run, acts, j);
      assert IdOf(IDS - 1) == 0;
    } else {
      forall j | 0 <= j < |run| && Spawns(run, j)
        ensures run[j].nextId == run[j].minted + 1 && run[j].minted < run[last].minted
      {
        NextIdIs(run, acts, j);
        MintedGrows(run, acts, j, last);
      }
      forall j, k | 0 <= j < k < |run| && Spawns(run, j) && Spawns(run, k)
        ensures run[j].nextId != run[k].nextId
      {
        MintedGrows(run, acts, j, k);
      }
    }
  }
}
