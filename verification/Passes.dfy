/** What a pass does with a job. */
module Passes {
  // Conservation says that no job is lost; this is where each one goes. An agent that nobody
  // interferes with takes a job from the first of its own deque, the injector and a victim that
  // has one, steps it, and puts it where the step's outcome says. A spawned or woken job gets to
  // the injector. And in every run a job is finished only by an agent that is stepping it.

  import P = Parked
  import opened Jobs

  /** How a step of a task ends. */
  datatype Outcome = Completed | Suspended | Yielded

  function ChoiceOf(o: Outcome): Choice {
    match o
    case Completed => Go
    case Suspended => Pending
    case Yielded => Yield
  }

  // ── An agent alone ───────────────────────────────────────────────────

  /** `n` steps of agent `i` and of nobody else: steals try victim `v`, and a task that is stepped
      ends its step with `o`. */
  function Alone(s: State, i: nat, v: nat, o: Outcome, n: nat): (s': State)
    requires i < |s.agents| == |s.deques|
    ensures |s'.agents| == |s.agents| == |s'.deques|
    decreases n
  {
    if n == 0 then s
    else
      var was := Alone(s, i, v, o, n - 1);
      Step(was, AgentActs(i, if was.agents[i].Stealing? then Victim(v) else ChoiceOf(o)))
  }

  /** `id` is the next job for agent `i`, and `rest` is the cluster without it: the newest of its
      own deque, or else the oldest of the injector, or else the oldest of deque `v`. */
  ghost predicate NextJob(s: State, i: nat, v: nat, id: Id, rest: State)
    requires i < |s.agents| == |s.deques|
  {
    if s.deques[i] != []
    then exists d :: s.deques[i] == d + [id] && rest == s.(deques := s.deques[i := d])
    else if s.injector != [] then s.injector == [id] + rest.injector && rest == s.(injector := rest.injector)
    else v < |s.deques| && v != i && exists d :: s.deques[v] == [id] + d && rest == s.(deques := s.deques[v := d])
  }

  /** `id` back on agent `i`'s deque, as its newest, or in the injector if that is full. */
  ghost predicate Deposited(s: State, i: nat, id: Id, s': State)
    requires i < |s.deques|
  {
    if |s.deques[i]| < s.cap
    then s'.injector == s.injector && s'.deques == s.deques[i := s.deques[i] + [id]]
    else s'.injector == s.injector + [id] && s'.deques == s.deques
  }

  ghost predicate SameQueues(s: State, s': State) {
    s'.injector == s.injector && s'.deques == s.deques
  }

  /** A step of `id` has ended with `o`; before it, the cluster without `id` was `s`. */
  ghost predicate Disposed(s: State, i: nat, id: Id, o: Outcome, s': State)
    requires i < |s.agents| == |s.deques|
  {
    && s'.agents == s.agents[i := Away] && s'.outsiders == s.outsiders
    && s'.cap == s.cap && s'.nextId == s.nextId && s'.minted == s.minted && s'.owed == s.owed - {id}
    && match o
       case Completed => s'.live == s.live - {id} && s'.registry == s.registry && SameQueues(s, s')
       case Yielded => s'.live == s.live && s'.registry == s.registry && Deposited(s, i, id, s')
       case Suspended =>
         && s'.live == s.live && s'.registry.early == s.registry.early - {id}
         && (id in s.registry.early ==> s'.registry.tasks == s.registry.tasks && Deposited(s, i, id, s'))
         && (id !in s.registry.early ==> s'.registry.tasks == s.registry.tasks[id := id] && SameQueues(s, s'))
  }

  lemma AloneAdds(s: State, i: nat, v: nat, o: Outcome, m: nat, n: nat)
    requires i < |s.agents| == |s.deques|
    ensures Alone(s, i, v, o, m + n) == Alone(Alone(s, i, v, o, m), i, v, o, n)
  {
    hide Step;
  }

  /** Not yet back outside a pass. */
  ghost predicate StillAt(s: State, i: nat, v: nat, o: Outcome, n: nat)
    requires i < |s.agents| == |s.deques|
  {
    forall k: nat :: k < n ==> Alone(s, i, v, o, k).agents[i] != Away
  }

  lemma StillAdds(s: State, i: nat, v: nat, o: Outcome, m: nat, n: nat)
    requires i < |s.agents| == |s.deques|
    requires StillAt(s, i, v, o, m) && StillAt(Alone(s, i, v, o, m), i, v, o, n)
    ensures StillAt(s, i, v, o, m + n)
  {
    hide Step, Alone;
    forall k: nat | k < m + n
      ensures Alone(s, i, v, o, k).agents[i] != Away
    {
      if k >= m {
        AloneAdds(s, i, v, o, m, k - m);
      }
    }
  }

  /** One more step of the agent. */
  lemma Onward(s: State, i: nat, v: nat, o: Outcome, n: nat)
    requires i < |s.agents| == |s.deques| && StillAt(s, i, v, o, n) && Alone(s, i, v, o, n).agents[i] != Away
    ensures StillAt(s, i, v, o, n + 1)
    ensures var was := Alone(s, i, v, o, n);
            Alone(s, i, v, o, n + 1)
              == Step(was, AgentActs(i, if was.agents[i].Stealing? then Victim(v) else ChoiceOf(o)))
  {
    hide Step;
  }

  lemma NoStepYet(s: State, i: nat, v: nat, o: Outcome)
    requires i < |s.agents| == |s.deques|
    ensures StillAt(s, i, v, o, 0) && Alone(s, i, v, o, 0) == s
  {
  }

  /** An agent that goes looking finds the next job. */
  lemma ToHand(s: State, i: nat, v: nat, o: Outcome) returns (n: nat, id: Id, rest: State)
    requires i < |s.agents| == |s.deques| && s.agents[i] == PopOwn
    requires s.deques[i] != [] || s.injector != [] || (v < |s.deques| && v != i && s.deques[v] != [])
    ensures n <= 3 && StillAt(s, i, v, o, n) && NextJob(s, i, v, id, rest)
    ensures Alone(s, i, v, o, n) == rest.(agents := rest.agents[i := Got(id)])
  {
    hide Alone, StillAt;
    NoStepYet(s, i, v, o);
    Onward(s, i, v, o, 0);
    if s.deques[i] != [] {
      var d := s.deques[i];
      n, id, rest := 1, d[|d| - 1], s.(deques := s.deques[i := d[..|d| - 1]]);
      assert d == d[..|d| - 1] + [id];
    } else {
      Onward(s, i, v, o, 1);
      if s.injector != [] {
        n, id, rest := 2, s.injector[0], s.(injector := s.injector[1..]);
        assert s.injector == [id] + s.injector[1..];
      } else {
        Onward(s, i, v, o, 2);
        var d := s.deques[v];
        n, id, rest := 3, d[0], s.(deques := s.deques[v := d[1..]]);
        assert d == [id] + d[1..];
      }
    }
  }

  /** A job in the agent's hand is stepped, and put where the step's outcome says. */
  lemma FromHand(s: State, i: nat, v: nat, o: Outcome, id: Id) returns (n: nat)
    requires i < |s.agents| == |s.deques| && s.agents[i] == Got(id)
    ensures n <= 5 && StillAt(s, i, v, o, n) && Disposed(s, i, id, o, Alone(s, i, v, o, n))
  {
    hide Alone, StillAt;
    NoStepYet(s, i, v, o);
    Onward(s, i, v, o, 0);
    Onward(s, i, v, o, 1);
    if o.Completed? || (o.Suspended? && id !in s.registry.early) {
      if o.Suspended? {
        Onward(s, i, v, o, 2);
        n := 3;
      } else {
        n := 2;
      }
    } else {
      n := 2;
      if o.Suspended? {
        Onward(s, i, v, o, 2);
        n := 3;
      }
      Onward(s, i, v, o, n);
      if |s.deques[i]| >= s.cap {
        Onward(s, i, v, o, n + 1);
        n := n + 2;
      } else {
        n := n + 1;
      }
    }
  }

  /** A pass, nobody interfering: the agent takes the next job there is, steps it, and leaves it
      finished, with the registry, or queued, as the step's outcome says. */
  lemma OnePass(s: State, i: nat, v: nat, o: Outcome) returns (n: nat, id: Id, rest: State)
    requires i < |s.agents| == |s.deques| && s.agents[i] == PopOwn
    requires s.deques[i] != [] || s.injector != [] || (v < |s.deques| && v != i && s.deques[v] != [])
    ensures n <= 8 && StillAt(s, i, v, o, n) && NextJob(s, i, v, id, rest)
    ensures |rest.agents| == |rest.deques| == |s.agents| && Disposed(rest, i, id, o, Alone(s, i, v, o, n))
  {
    hide Alone, StillAt;
    var m;
    m, id, rest := ToHand(s, i, v, o);
    var got := Alone(s, i, v, o, m);
    n := FromHand(got, i, v, o, id);
    StillAdds(s, i, v, o, m, n);
    AloneAdds(s, i, v, o, m, n);
    n := m + n;
  }

  /** With nothing to be found a pass changes nothing: it ends when the agent has tried everyone. */
  lemma EmptyPass(s: State, i: nat)
    requires i < |s.agents| == |s.deques| && s.agents[i] == PopOwn && s.deques[i] == [] && s.injector == []
    ensures var s1 := Step(s, AgentActs(i, Go)); var s2 := Step(s1, AgentActs(i, Go));
            Step(s2, AgentActs(i, Leave)) == s.(agents := s.agents[i := Away])
  {
  }

  // ── Over runs ────────────────────────────────────────────────────────

  /** Agent `i` took up `id` in step `j`, and has been stepping it from then on, up to step `k`. */
  ghost predicate SteppedSince(run: seq<State>, acts: seq<Actor>, i: nat, id: Id, j: nat, k: nat) {
    && j < k < |run| && |run| == |acts| + 1 && acts[j].AgentActs? && acts[j].i == i
    && i < |run[j].agents| && run[j].agents[i] == Got(id)
    && forall m :: j < m <= k ==> i < |run[m].agents| && run[m].agents[i] == Running(id)
  }

  /** Only its own steps move an agent, and it runs only what it has taken up. */
  lemma RunsWhatItGot(s: State, a: Actor, i: nat, id: Id)
    requires |s.agents| == |s.deques| && i < |Step(s, a).agents| && Step(s, a).agents[i] == Running(id)
    ensures i < |s.agents| && (s.agents[i] == Running(id) || (s.agents[i] == Got(id) && a.AgentActs? && a.i == i))
  {
  }

  lemma {:induction false} SteppedFrom(run: seq<State>, acts: seq<Actor>, i: nat, id: Id, k: nat) returns (j: nat)
    requires IsLongRun(run, acts) && k < |run| && i < |run[k].agents| && run[k].agents[i] == Running(id)
    ensures SteppedSince(run, acts, i, id, j, k)
  {
    hide Step;
    NobodyRuns(run[0], id);
    assert run[k - 1 + 1] == Step(run[k - 1], acts[k - 1]);
    RunsWhatItGot(run[k - 1], acts[k - 1], i, id);
    if run[k - 1].agents[i] == Running(id) {
      j := SteppedFrom(run, acts, i, id, k - 1);
    } else {
      j := k - 1;
    }
  }

  lemma NobodyRuns(s: State, id: Id)
    requires Init(s)
    ensures forall i :: 0 <= i < |s.agents| ==> s.agents[i] != Running(id)
  {
  }

  lemma LeavesWhenDone(s: State, a: Actor, id: Id)
    requires |s.agents| == |s.deques| && id in s.live && id !in Step(s, a).live
    ensures a.AgentActs? && a.c == Go && a.i < |s.agents| && s.agents[a.i] == Running(id)
  {
  }

  /** In every run a job is done with only when an agent that took it up, and has been stepping it
      since, sees its step complete. */
  lemma DoneOnlyByItsStep(run: seq<State>, acts: seq<Actor>, k: nat, id: Id) returns (j: nat)
    requires IsLongRun(run, acts) && k < |acts| && id in run[k].live && id !in run[k + 1].live
    ensures acts[k].AgentActs? && acts[k].c == Go && SteppedSince(run, acts, acts[k].i, id, j, k)
    ensures |run[k + 1].agents| > acts[k].i && run[k + 1].agents[acts[k].i] == Away
  {
    assert run[k + 1] == Step(run[k], acts[k]);
    LeavesWhenDone(run[k], acts[k], id);
    j := SteppedFrom(run, acts, acts[k].i, id, k);
  }

  // ── Spawning and waking ──────────────────────────────────────────────

  /** A spawner that nobody interferes with mints an id and leaves its job at the injector's end. */
  lemma SpawnArrives(s: State, j: nat)
    requires |s.agents| == |s.deques| && j < |s.outsiders| && s.outsiders[j].Resting?
    ensures var s' := Step(Step(s, Spawn(j)), Push(j));
            && s' == s.(injector := s.injector + [s.nextId], live := s.live + {s.nextId}, nextId := s'.nextId,
                        minted := s.minted + 1)
  {
  }

  /** An agent that spawns onto its own deque leaves the job there as its newest, or in the
      injector if the deque is full. */
  lemma SpawnHereArrives(s: State, i: nat, v: nat, o: Outcome) returns (n: nat)
    requires i < |s.agents| == |s.deques| && s.agents[i] == Away
    ensures n <= 2
    ensures var s1 := Step(s, AgentActs(i, SpawnHere)); var s' := Alone(s1, i, v, o, n);
            && s1.agents[i] != Away && s'.agents == s.agents && s'.live == s.live + {s.nextId}
            && s'.registry == s.registry && s'.owed == s.owed && Deposited(s, i, s.nextId, s')
  {
    hide Alone, StillAt;
    var s1 := Step(s, AgentActs(i, SpawnHere));
    NoStepYet(s1, i, v, o);
    Onward(s1, i, v, o, 0);
    if |s.deques[i]| < s.cap {
      n := 1;
    } else {
      Onward(s1, i, v, o, 1);
      n := 2;
    }
  }

  /** A waker that nobody interferes with takes the parked job to the injector's end, or leaves
      word for when it parks. */
  lemma WakeArrives(s: State, j: nat, id: Id)
    requires Inv(s) && j < |s.outsiders| && s.outsiders[j].Resting?
    ensures var s1 := Step(s, Wake(j, id)); var s' := Step(s1, Push(j));
            && s'.outsiders == s.outsiders && s'.agents == s.agents && s'.deques == s.deques && s'.live == s.live
            && s'.registry.tasks == s.registry.tasks - {id}
            && (id in s.registry.tasks ==>
                  s'.injector == s.injector + [id] && s'.registry.early == s.registry.early)
            && (id !in s.registry.tasks ==>
                  s'.injector == s.injector && s'.registry.early == s.registry.early + {id})
  {
    hide Conserved, IdsOk, WakesOk;
    var s1 := Step(s, Wake(j, id));
    assert s1.registry.tasks == s.registry.tasks - {id};
  }
}
