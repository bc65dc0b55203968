/** What an awake worker does. */
module Search {
  // That somebody is awake is of use only if whoever is awake finds what there is to run. Alone,
  // a worker that looks for work is inside a task after a few accesses if there is a job on its
  // own deque, in the injector or on another deque, and asleep if there is none. In every run it
  // thinks of sleeping only after loads that found all of these empty, or lost a race.

  import opened Words
  import opened Sleep

  // ── A worker alone ───────────────────────────────────────────────────

  /** `n` accesses of worker `i` and of nobody else, each with choice `c`. */
  ghost function Alone(s: State, i: nat, c: Choice, n: nat): (s': State)
    requires Shape(s) && i < |s.pcs|
    ensures Shape(s') && |s'.pcs| == |s.pcs|
    decreases n
  {
    if n == 0 then s
    else
      var was := Alone(s, i, c, n - 1);
      WorkerShape(was, i, c);
      WorkerStep(was, i, c)
  }

  lemma AloneAdds(s: State, i: nat, c: Choice, m: nat, n: nat)
    requires Shape(s) && i < |s.pcs|
    ensures Alone(s, i, c, m + n) == Alone(Alone(s, i, c, m), i, c, n)
  {
    hide WorkerStep, Shape;
  }

  /** One access more, whose effect on the state is `s'`. */
  lemma Then(s: State, i: nat, c: Choice, n: nat, was: State, s': State)
    requires Shape(s) && i < |s.pcs| && Alone(s, i, c, n) == was
    requires Shape(was) && i < |was.pcs| && WorkerStep(was, i, c) == s'
    ensures Alone(s, i, c, n + 1) == s'
  {
    hide WorkerStep, Shape;
  }

  /** About to go looking for the next job, having stepped `ran` in this pass. */
  predicate AboutToLook(s: State, i: nat, ran: nat) {
    i < |s.pcs| && !s.stopping && (s.pcs[i] == StepEnd(ran) || (s.pcs[i] == DriveStart && ran == 0))
  }

  /** A job on its own deque is in its hands after two accesses. */
  lemma FindsItsOwn(s: State, i: nat, c: Choice, ran: nat)
    requires Shape(s) && AboutToLook(s, i, ran) && s.deques[i] > 0
    ensures Alone(s, i, c, 2) == s.(pcs := s.pcs[i := InTask(ran)], deques := s.deques[i := s.deques[i] - 1])
  {
    var s1 := s.(pcs := s.pcs[i := PopOwn(ran)]);
    Then(s, i, c, 0, s, s1);
    Then(s, i, c, 1, s1, s1.(pcs := s1.pcs[i := InTask(ran)], deques := s.deques[i := s.deques[i] - 1]));
    assert s1.pcs[i := InTask(ran)] == s.pcs[i := InTask(ran)];
  }

  lemma OwnIsEmpty(s: State, i: nat, c: Choice, ran: nat)
    requires Shape(s) && AboutToLook(s, i, ran) && s.deques[i] == 0
    ensures Alone(s, i, c, 2) == s.(pcs := s.pcs[i := PopInjector(ran)])
  {
    var s1 := s.(pcs := s.pcs[i := PopOwn(ran)]);
    Then(s, i, c, 0, s, s1);
    Then(s, i, c, 1, s1, s1.(pcs := s1.pcs[i := PopInjector(ran)]));
    assert s1.pcs[i := PopInjector(ran)] == s.pcs[i := PopInjector(ran)];
  }

  /** With an empty deque, one in the injector is in its hands after three. */
  lemma FindsInInjector(s: State, i: nat, c: Choice, ran: nat)
    requires Shape(s) && AboutToLook(s, i, ran) && s.deques[i] == 0 && s.injector > 0
    ensures Alone(s, i, c, 3) == s.(pcs := s.pcs[i := InTask(ran)], injector := s.injector - 1)
  {
    OwnIsEmpty(s, i, c, ran);
    var s2 := s.(pcs := s.pcs[i := PopInjector(ran)]);
    Then(s, i, c, 2, s2, s2.(pcs := s2.pcs[i := InTask(ran)], injector := s.injector - 1));
    assert s2.pcs[i := InTask(ran)] == s.pcs[i := InTask(ran)];
  }

  /** With that empty too, it goes round the others, from where the rotor points. */
  lemma BothAreEmpty(s: State, i: nat, c: Choice, ran: nat)
    requires Shape(s) && AboutToLook(s, i, ran) && s.deques[i] == 0 && s.injector == 0
    ensures Alone(s, i, c, 4) ==
            if |s.pcs| > 1
            then s.(pcs := s.pcs[i := Steal(ran, s.rotor, 0)], rotor := (s.rotor + 1) % 0x1_0000_0000)
            else s.(pcs := s.pcs[i := PassOver(ran)])
  {
    OwnIsEmpty(s, i, c, ran);
    var s2 := s.(pcs := s.pcs[i := PopInjector(ran)]);
    var s3 := s.(pcs := s.pcs[i := Rotor(ran)]);
    assert s2.pcs[i := Rotor(ran)] == s3.pcs;
    Then(s, i, c, 2, s2, s3);
    var s4 := if |s.pcs| > 1
      then s.(pcs := s.pcs[i := Steal(ran, s.rotor, 0)], rotor := (s.rotor + 1) % 0x1_0000_0000)
      else s.(pcs := s.pcs[i := PassOver(ran)]);
    assert s3.pcs[i := s4.pcs[i]] == s4.pcs;
    Then(s, i, c, 3, s3, s4);
  }

  /** The victim of attempt `k`, of `n` agents. */
  function Tried(start: nat, k: nat, n: nat): (v: nat)
    requires n > 0
    ensures v < n
  {
    (start + k) % n
  }

  /** Attempts `k` up to `m` find nothing. */
  ghost predicate NothingAt(s: State, i: nat, start: nat, k: nat, m: nat)
    requires Shape(s) && i < |s.pcs|
  {
    forall x :: k <= x < m ==> Tried(start, x, |s.pcs|) == i || s.deques[Tried(start, x, |s.pcs|)] == 0
  }

  /** One attempt that finds nothing, and one that finds something. */
  lemma OneAttempt(s: State, i: nat, c: Choice, ran: nat, start: nat, k: nat)
    requires Shape(s) && i < |s.pcs| && !c.Races? && k < |s.pcs| && s.pcs[i] == Steal(ran, start, k)
    ensures var v := Tried(start, k, |s.pcs|);
            WorkerStep(s, i, c) ==
            if v == i || s.deques[v] == 0 then s.(pcs := s.pcs[i := Steal(ran, start, k + 1)])
            else s.(pcs := s.pcs[i := InTask(ran)], deques := s.deques[v := s.deques[v] - 1])
  {
    assert Victim(s, i, c) == Tried(start, k, |s.pcs|);
  }

  lemma {:induction false} SkipsEmpties(s: State, i: nat, c: Choice, ran: nat, start: nat, m: nat)
    requires Shape(s) && i < |s.pcs| && !c.Races? && m <= |s.pcs|
    requires s.pcs[i] == Steal(ran, start, 0) && NothingAt(s, i, start, 0, m)
    ensures Alone(s, i, c, m) == s.(pcs := s.pcs[i := Steal(ran, start, m)])
    decreases m
  {
    hide WorkerStep, Tried;
    if m > 0 {
      SkipsEmpties(s, i, c, ran, start, m - 1);
      var was := s.(pcs := s.pcs[i := Steal(ran, start, m - 1)]);
      var s' := s.(pcs := s.pcs[i := Steal(ran, start, m)]);
      assert was.pcs[i := Steal(ran, start, m)] == s'.pcs;
      OneAttempt(was, i, c, ran, start, m - 1);
      Then(s, i, c, m - 1, was, s');
    } else {
      assert s.pcs[i := Steal(ran, start, 0)] == s.pcs;
    }
  }

  /** Every agent comes up once in a round. */
  lemma AttemptAt(start: nat, v: nat, n: nat) returns (k: nat)
    requires v < n
    ensures k < n && Tried(start, k, n) == v
  {
    var r := start % n;
    k := if v >= r then v - r else v + n - r;
    var q := start / n;
    assert start == q * n + r;
    var e := if v >= r then q else q + 1;
    assert start + k == e * n + v;
    ModUnique(start + k, e, v, n);
  }

  /** The first attempt that finds something. */
  lemma {:induction false} FirstFind(s: State, i: nat, start: nat, k: nat) returns (m: nat)
    requires Shape(s) && i < |s.pcs| && k < |s.pcs|
    requires Tried(start, k, |s.pcs|) != i && s.deques[Tried(start, k, |s.pcs|)] > 0
    ensures m <= k && NothingAt(s, i, start, 0, m)
    ensures Tried(start, m, |s.pcs|) != i && s.deques[Tried(start, m, |s.pcs|)] > 0
  {
    m := 0;
    while Tried(start, m, |s.pcs|) == i || s.deques[Tried(start, m, |s.pcs|)] == 0
      invariant m <= k && NothingAt(s, i, start, 0, m)
      decreases k - m
    {
      m := m + 1;
    }
  }

  /** With both empty, a job on another deque: it takes one from the first victim that has any, in
      the order the rotor gives. */
  lemma FindsVictim(s: State, i: nat, c: Choice, ran: nat, v: nat) returns (k: nat)
    requires Shape(s) && AboutToLook(s, i, ran) && s.deques[i] == 0 && s.injector == 0 && !c.Races?
    requires v < |s.pcs| && s.deques[v] > 0
    ensures k < |s.pcs| && NothingAt(s, i, s.rotor, 0, k)
    ensures var w := Tried(s.rotor, k, |s.pcs|);
            && w != i && s.deques[w] > 0
            && Alone(s, i, c, 5 + k) == s.(pcs := s.pcs[i := InTask(ran)], deques := s.deques[w := s.deques[w] - 1],
                                           rotor := (s.rotor + 1) % 0x1_0000_0000)
  {
    hide WorkerStep, Tried, Alone;
    var n := |s.pcs|;
    var at := AttemptAt(s.rotor, v, n);
    k := FirstFind(s, i, s.rotor, at);
    BothAreEmpty(s, i, c, ran);
    var s4 := s.(pcs := s.pcs[i := Steal(ran, s.rotor, 0)], rotor := (s.rotor + 1) % 0x1_0000_0000);
    SkipsEmpties(s4, i, c, ran, s.rotor, k);
    AloneAdds(s, i, c, 4, k);
    var was := s4.(pcs := s4.pcs[i := Steal(ran, s.rotor, k)]);
    var w := Tried(s.rotor, k, n);
    OneAttempt(was, i, c, ran, s.rotor, k);
    var s' := s.(pcs := s.pcs[i := InTask(ran)], deques := s.deques[w := s.deques[w] - 1],
                 rotor := (s.rotor + 1) % 0x1_0000_0000);
    assert was.pcs[i := InTask(ran)] == s'.pcs;
    Then(s, i, c, 4 + k, was, s');
  }

  // ── Nothing to find ──────────────────────────────────────────────────

  /** No job anywhere. */
  ghost predicate NothingQueued(s: State) {
    s.injector == 0 && forall v :: 0 <= v < |s.deques| ==> s.deques[v] == 0
  }

  /** A pass that finds nothing and has run nothing comes to the point of going to sleep. */
  lemma ComesHomeEmpty(s: State, i: nat, c: Choice) returns (n: nat, rotor: nat)
    requires Shape(s) && AboutToLook(s, i, 0) && NothingQueued(s) && !c.Races?
    ensures Alone(s, i, c, n) == s.(pcs := s.pcs[i := Publish], rotor := rotor)
  {
    hide WorkerStep, Tried, Alone;
    BothAreEmpty(s, i, c, 0);
    if |s.pcs| > 1 {
      rotor := (s.rotor + 1) % 0x1_0000_0000;
      var s4 := s.(pcs := s.pcs[i := Steal(0, s.rotor, 0)], rotor := rotor);
      var m := |s.pcs|;
      SkipsEmpties(s4, i, c, 0, s.rotor, m);
      AloneAdds(s, i, c, 4, m);
      var was := s4.(pcs := s4.pcs[i := Steal(0, s.rotor, m)]);
      var s' := s.(pcs := s.pcs[i := Publish], rotor := rotor);
      assert was.pcs[i := Publish] == s'.pcs;
      RoundOver(was, i, c, s.rotor);
      Then(s, i, c, 4 + m, was, s');
      n := 4 + m + 1;
    } else {
      n, rotor := 4, s.rotor;
    }
  }

  lemma RoundOver(s: State, i: nat, c: Choice, start: nat)
    requires Shape(s) && i < |s.pcs| && s.pcs[i] == Steal(0, start, |s.pcs|)
    ensures WorkerStep(s, i, c) == s.(pcs := s.pcs[i := Publish])
  {
    assert Victim(s, i, c) == i;
  }

  lemma LooksAgain(s: State, i: nat, c: Choice, k: nat)
    requires Shape(s) && i < |s.pcs| && s.pcs[i] == RecheckDeque(k) && NothingQueued(s)
    ensures WorkerStep(s, i, c) == s.(pcs := s.pcs[i := if k >= |s.pcs| then Park else RecheckDeque(k + 1)])
  {
  }

  lemma {:induction false} RechecksAll(s: State, i: nat, c: Choice, m: nat)
    requires Shape(s) && i < |s.pcs| && s.pcs[i] == RecheckDeque(0) && NothingQueued(s) && m <= |s.pcs|
    ensures Alone(s, i, c, m) == s.(pcs := s.pcs[i := RecheckDeque(m)])
    decreases m
  {
    hide WorkerStep;
    if m > 0 {
      RechecksAll(s, i, c, m - 1);
      var was := s.(pcs := s.pcs[i := RecheckDeque(m - 1)]);
      var s' := s.(pcs := s.pcs[i := RecheckDeque(m)]);
      assert was.pcs[i := RecheckDeque(m)] == s'.pcs;
      LooksAgain(was, i, c, m - 1);
      Then(s, i, c, m - 1, was, s');
    } else {
      assert s.pcs[i := RecheckDeque(0)] == s.pcs;
    }
  }

  /** Publishing PARKED and the loads before the deques. */
  lemma Publishes(s: State, i: nat, c: Choice)
    requires Shape(s) && i < |s.pcs| && s.pcs[i] == Publish && s.slots[i] == RUNNING && !s.stopping && s.injector == 0
    ensures Alone(s, i, c, 3) == s.(pcs := s.pcs[i := RecheckDeque(0)], slots := s.slots[i := PARKED])
  {
    NoAccess(s, i, c);
    hide Alone;
    var s1 := s.(pcs := s.pcs[i := RecheckStop], slots := s.slots[i := PARKED]);
    Then(s, i, c, 0, s, s1);
    var s2 := s1.(pcs := s.pcs[i := RecheckInjector]);
    assert s1.pcs[i := RecheckInjector] == s2.pcs;
    Then(s, i, c, 1, s1, s2);
    var s3 := s1.(pcs := s.pcs[i := RecheckDeque(0)]);
    assert s2.pcs[i := RecheckDeque(0)] == s3.pcs;
    Then(s, i, c, 2, s2, s3);
  }

  lemma Parks(s: State, i: nat, c: Choice)
    requires Shape(s) && i < |s.pcs| && s.pcs[i] == Park && s.slots[i] == PARKED
    ensures WorkerStep(s, i, c) == s.(pcs := s.pcs[i := Asleep])
  {
  }

  /** From `Publish`, with no notification pending, to sleep. */
  lemma GoesToSleep(s: State, i: nat, c: Choice) returns (n: nat)
    requires Shape(s) && i < |s.pcs| && s.pcs[i] == Publish && s.slots[i] == RUNNING && !s.stopping && NothingQueued(s)
    ensures Alone(s, i, c, n) == s.(pcs := s.pcs[i := Asleep], slots := s.slots[i := PARKED])
  {
    hide Alone, WorkerStep;
    var m := |s.pcs|;
    Publishes(s, i, c);
    var s3 := s.(pcs := s.pcs[i := RecheckDeque(0)], slots := s.slots[i := PARKED]);
    RechecksAll(s3, i, c, m);
    AloneAdds(s, i, c, 3, m);
    var s4 := s3.(pcs := s3.pcs[i := RecheckDeque(m)]);
    LooksAgain(s4, i, c, m);
    var s5 := s3.(pcs := s.pcs[i := Park]);
    assert s4.pcs[i := Park] == s5.pcs;
    Then(s, i, c, 3 + m, s4, s5);
    Parks(s5, i, c);
    assert s5.pcs[i := Asleep] == s.pcs[i := Asleep];
    Then(s, i, c, 4 + m, s5, s5.(pcs := s.pcs[i := Asleep]));
    n := 5 + m;
  }

  lemma NoAccess(s: State, i: nat, c: Choice)
    requires Shape(s) && i < |s.pcs|
    ensures Alone(s, i, c, 0) == s
  {
  }

  /** With nothing to run a worker alone falls asleep: at once, or after one more round if a
      notification was pending. */
  lemma FallsAsleep(s: State, i: nat, c: Choice) returns (n: nat, rotor: nat)
    requires Inv(s) && AboutToLook(s, i, 0) && NothingQueued(s) && !c.Races?
    ensures Alone(s, i, c, n) == s.(pcs := s.pcs[i := Asleep], slots := s.slots[i := PARKED], rotor := rotor)
  {
    hide Alone, WorkerStep, NoLostWakeup, NotifiedWake, StopOk;
    assert SlotOk(s.pcs[i], s.slots[i]);
    var m;
    m, rotor := ComesHomeEmpty(s, i, c);
    var home := s.(pcs := s.pcs[i := Publish], rotor := rotor);
    if s.slots[i] == RUNNING {
      var k := GoesToSleep(home, i, c);
      AloneAdds(s, i, c, m, k);
      assert home.pcs[i := Asleep] == s.pcs[i := Asleep];
      n := m + k;
    } else {
      var again := s.(pcs := s.pcs[i := DriveStart], slots := s.slots[i := RUNNING], rotor := rotor);
      ConsumesOne(home, i, c);
      assert home.pcs[i := DriveStart] == again.pcs;
      AloneAdds(s, i, c, m, 3);
      var k, r := ComesHomeEmpty(again, i, c);
      rotor := r;
      AloneAdds(s, i, c, m + 3, k);
      var back := again.(pcs := again.pcs[i := Publish], rotor := rotor);
      var l := GoesToSleep(back, i, c);
      AloneAdds(s, i, c, m + 3 + k, l);
      assert back.pcs[i := Asleep] == s.pcs[i := Asleep] && back.slots[i := PARKED] == s.slots[i := PARKED];
      n := m + 3 + k + l;
    }
  }

  /** A notification that came first is consumed, and the worker looks again. */
  lemma ConsumesOne(s: State, i: nat, c: Choice)
    requires Shape(s) && i < |s.pcs| && s.pcs[i] == Publish && s.slots[i] != RUNNING
    ensures Alone(s, i, c, 3) == s.(pcs := s.pcs[i := DriveStart], slots := s.slots[i := RUNNING])
  {
    NoAccess(s, i, c);
    hide Alone;
    var s1 := s.(pcs := s.pcs[i := Consume]);
    Then(s, i, c, 0, s, s1);
    var s2 := s.(pcs := s.pcs[i := Top], slots := s.slots[i := RUNNING]);
    assert s1.pcs[i := Top] == s2.pcs;
    Then(s, i, c, 1, s1, s2);
    var s3 := s2.(pcs := s.pcs[i := DriveStart]);
    assert s2.pcs[i := DriveStart] == s3.pcs;
    Then(s, i, c, 2, s2, s3);
  }

  /** So is one that woke it. */
  lemma LooksWhenWoken(s: State, i: nat, c: Choice)
    requires Shape(s) && i < |s.pcs| && s.pcs[i] == Woke && !s.stopping
    ensures Alone(s, i, c, 3) == s.(pcs := s.pcs[i := DriveStart], slots := s.slots[i := RUNNING])
  {
    NoAccess(s, i, c);
    hide Alone;
    var s1 := s.(pcs := s.pcs[i := WokeCheck], slots := s.slots[i := RUNNING]);
    Then(s, i, c, 0, s, s1);
    var s2 := s1.(pcs := s.pcs[i := Top]);
    assert s1.pcs[i := Top] == s2.pcs;
    Then(s, i, c, 1, s1, s2);
    var s3 := s1.(pcs := s.pcs[i := DriveStart]);
    assert s2.pcs[i := DriveStart] == s3.pcs;
    Then(s, i, c, 2, s2, s3);
  }

  // ── Who thinks of sleeping ───────────────────────────────────────────

  /** A run with what was done in it. */
  ghost predicate IsTrace(run: seq<State>, acts: seq<(Actor, Choice)>) {
    && |run| == |acts| + 1 && Init(run[0])
    && (forall k :: 0 <= k < |run| ==> Shape(run[k]))
    && (forall k :: 0 <= k < |acts| ==> run[k + 1] == Step(run[k], acts[k].0, acts[k].1))
  }

  /** Looking for a first job, or having found none. */
  predicate Looking(pc: Pc) {
    || pc == PopOwn(0) || pc == PopInjector(0) || pc == Rotor(0)
    || (pc.Steal? && pc.ran == 0) || pc == Publish
  }

  /** An access of worker `i` in step `e`, since when it has been looking, up to step `m`. */
  ghost predicate Looked(run: seq<State>, acts: seq<(Actor, Choice)>, i: nat, e: nat, m: nat) {
    && e < m <= |acts| < |run| && acts[e].0 == Worker(i)
    && forall x :: e <= x <= m ==> i < |run[x].pcs| && Looking(run[x].pcs[i])
  }

  ghost predicate SawOwnEmpty(run: seq<State>, acts: seq<(Actor, Choice)>, i: nat, m: nat) {
    exists e: nat :: Looked(run, acts, i, e, m) && run[e].pcs[i] == PopOwn(0) && i < |run[e].deques|
      && run[e].deques[i] == 0
  }

  ghost predicate SawInjectorEmpty(run: seq<State>, acts: seq<(Actor, Choice)>, i: nat, m: nat) {
    exists e: nat :: Looked(run, acts, i, e, m) && run[e].pcs[i] == PopInjector(0) && run[e].injector == 0
  }

  /** In step `e` it tries to steal from `v` and finds it empty, or loses a race. */
  ghost predicate TriesInVain(run: seq<State>, acts: seq<(Actor, Choice)>, i: nat, e: nat, v: nat)
    requires e < |run| && e < |acts| && i < |run[e].pcs|
  {
    && run[e].pcs[i].Steal? && run[e].pcs[i].k < |run[e].pcs|
    && v == Tried(run[e].pcs[i].start, run[e].pcs[i].k, |run[e].pcs|)
    && v < |run[e].deques| && (run[e].deques[v] == 0 || acts[e].1.Races?)
  }

  ghost predicate TriedInVain(run: seq<State>, acts: seq<(Actor, Choice)>, i: nat, m: nat, v: nat) {
    exists e: nat :: Looked(run, acts, i, e, m) && TriesInVain(run, acts, i, e, v)
  }

  /** What worker `i` has seen when it stands where it does. */
  ghost predicate HasSeen(run: seq<State>, acts: seq<(Actor, Choice)>, i: nat, m: nat)
    requires m < |run| && i < |run[m].pcs|
  {
    var n := |run[m].pcs|;
    match run[m].pcs[i]
    case PopInjector(_) => SawOwnEmpty(run, acts, i, m)
    case Rotor(_) => SawOwnEmpty(run, acts, i, m) && SawInjectorEmpty(run, acts, i, m)
    case Steal(_, start, k) =>
      && SawOwnEmpty(run, acts, i, m) && SawInjectorEmpty(run, acts, i, m)
      && forall x :: 0 <= x < k && x < n ==> Tried(start, x, n) == i || TriedInVain(run, acts, i, m, Tried(start, x, n))
    case Publish =>
      && SawOwnEmpty(run, acts, i, m) && SawInjectorEmpty(run, acts, i, m)
      && forall v :: 0 <= v < n && v != i ==> TriedInVain(run, acts, i, m, v)
    case _ => true
  }

  /** Where an access of its own takes a worker that is then looking. */
  ghost predicate LookMoves(s: State, c: Choice, i: nat, pc': Pc)
    requires Shape(s) && i < |s.pcs|
  {
    var n := |s.pcs|;
    match s.pcs[i]
    case PopOwn(_) => pc' == PopInjector(0) && s.deques[i] == 0
    case PopInjector(_) => pc' == Rotor(0) && s.injector == 0
    case Rotor(_) => if n > 1 then pc' == Steal(0, s.rotor, 0) else pc' == Publish
    case Steal(_, start, k) =>
      || (k >= n && pc' == Publish)
      || (k < n && pc' == Steal(0, start, k + 1)
          && (Tried(start, k, n) == i || s.deques[Tried(start, k, n)] == 0 || c.Races?))
    case _ => false
  }

  lemma OwnLookMoves(s: State, c: Choice, i: nat)
    requires Shape(s) && i < |s.pcs| && Looking(WorkerPc(s, i, c)) && WorkerPc(s, i, c) != PopOwn(0)
    ensures Looking(s.pcs[i]) && LookMoves(s, c, i, WorkerPc(s, i, c))
  {
    if s.pcs[i].Steal? && s.pcs[i].k < |s.pcs| && !c.Races? {
      assert Victim(s, i, c) == Tried(s.pcs[i].start, s.pcs[i].k, |s.pcs|);
    }
    hide Tried, Victim;
  }

  lemma OthersLeaveLooking(s: State, a: Actor, c: Choice, i: nat)
    requires Shape(s) && i < |s.pcs| && a != Worker(i)
    ensures |Step(s, a, c).pcs| == |s.pcs|
    ensures Step(s, a, c).pcs[i] == s.pcs[i] || !Looking(Step(s, a, c).pcs[i])
  {
    hide WorkerPc, WorkerSlots, WorkerDeques, WorkerInjector;
  }

  /** How a worker that is looking got where it is. */
  lemma GotHere(s: State, a: Actor, c: Choice, i: nat)
    requires Shape(s) && i < |Step(s, a, c).pcs| && Looking(Step(s, a, c).pcs[i])
    ensures |Step(s, a, c).pcs| == |s.pcs|
    ensures var pc, pc' := s.pcs[i], Step(s, a, c).pcs[i];
            || pc' == pc || pc' == PopOwn(0)
            || (a == Worker(i) && Looking(pc) && LookMoves(s, c, i, pc'))
  {
    hide Looking, LookMoves;
    SameSize(s, a, c);
    if a == Worker(i) {
      OthersStay(s, i, c);
      hide WorkerPc;
      if WorkerPc(s, i, c) != PopOwn(0) {
        OwnLookMoves(s, c, i);
      }
    } else {
      OthersLeaveLooking(s, a, c, i);
    }
  }

  lemma SameSize(s: State, a: Actor, c: Choice)
    requires Shape(s)
    ensures |Step(s, a, c).pcs| == |s.pcs|
  {
    hide WorkerPc, WorkerSlots, WorkerDeques, WorkerInjector;
  }

  lemma LookedOn(run: seq<State>, acts: seq<(Actor, Choice)>, i: nat, m: nat, m': nat)
    requires m < |acts| < |run| && m' == m + 1 && i < |run[m'].pcs| && Looking(run[m'].pcs[i])
    ensures SawOwnEmpty(run, acts, i, m) ==> SawOwnEmpty(run, acts, i, m')
    ensures SawInjectorEmpty(run, acts, i, m) ==> SawInjectorEmpty(run, acts, i, m')
    ensures forall v :: TriedInVain(run, acts, i, m, v) ==> TriedInVain(run, acts, i, m', v)
  {
    hide Looking, TriesInVain;
    forall e: nat | Looked(run, acts, i, e, m)
      ensures Looked(run, acts, i, e, m')
    {
    }
  }

  lemma JustLooked(run: seq<State>, acts: seq<(Actor, Choice)>, i: nat, m: nat)
    requires m < |acts| < |run| && i < |run[m].pcs| && Looking(run[m].pcs[i]) && acts[m].0 == Worker(i)
    requires i < |run[m + 1].pcs| && Looking(run[m + 1].pcs[i])
    ensures Looked(run, acts, i, m, m + 1)
  {
  }

  lemma SeesMore(run: seq<State>, acts: seq<(Actor, Choice)>, i: nat, m: nat, m': nat)
    requires IsTrace(run, acts) && m < |acts| && m' == m + 1 && i < |run[m'].pcs| && Looking(run[m'].pcs[i])
    requires i < |run[m].pcs| && (Looking(run[m].pcs[i]) ==> HasSeen(run, acts, i, m))
    ensures HasSeen(run, acts, i, m')
  {
    hide Step, Looked, Init, Tried, SawOwnEmpty, SawInjectorEmpty, TriedInVain;
    assert run[m + 1] == Step(run[m], acts[m].0, acts[m].1);
    GotHere(run[m], acts[m].0, acts[m].1, i);
    LookedOn(run, acts, i, m, m');
    hide IsTrace;
    var pc, pc' := run[m].pcs[i], run[m'].pcs[i];
    if pc' != pc && pc' != PopOwn(0) {
      JustLooked(run, acts, i, m);
      SawNow(run, acts, i, m, m');
      if pc.Steal? {
        AllTried(run, acts, i, m, m');
      }
    }
  }

  lemma AllTried(run: seq<State>, acts: seq<(Actor, Choice)>, i: nat, m: nat, m': nat)
    requires m < m' < |run| && i < |run[m].pcs| == |run[m'].pcs| && run[m].pcs[i].Steal?
    requires HasSeen(run, acts, i, m)
    requires forall v :: TriedInVain(run, acts, i, m, v) ==> TriedInVain(run, acts, i, m', v)
    ensures var pc := run[m].pcs[i]; var n := |run[m].pcs|;
            && (forall x :: 0 <= x < pc.k && x < n ==>
                  Tried(pc.start, x, n) == i || TriedInVain(run, acts, i, m', Tried(pc.start, x, n)))
            && (pc.k >= n ==> forall v :: 0 <= v < n && v != i ==> TriedInVain(run, acts, i, m', v))
  {
    hide TriedInVain, SawOwnEmpty, SawInjectorEmpty, Tried;
    var pc := run[m].pcs[i];
    var n := |run[m].pcs|;
    if pc.k >= n {
      forall v: nat | v < n && v != i
        ensures TriedInVain(run, acts, i, m', v)
      {
        var x := AttemptAt(pc.start, v, n);
        assert 0 <= x < pc.k;
      }
    }
  }

  /** What an access sees. */
  lemma SawNow(run: seq<State>, acts: seq<(Actor, Choice)>, i: nat, m: nat, m': nat)
    requires m < |acts| < |run| && m' == m + 1 && Looked(run, acts, i, m, m') && Shape(run[m]) && i < |run[m].pcs|
    ensures run[m].pcs[i] == PopOwn(0) && run[m].deques[i] == 0 ==> SawOwnEmpty(run, acts, i, m')
    ensures run[m].pcs[i] == PopInjector(0) && run[m].injector == 0 ==> SawInjectorEmpty(run, acts, i, m')
    ensures run[m].pcs[i].Steal? && run[m].pcs[i].k < |run[m].pcs| ==>
              var v := Tried(run[m].pcs[i].start, run[m].pcs[i].k, |run[m].pcs|);
              (run[m].deques[v] == 0 || acts[m].1.Races? ==> TriedInVain(run, acts, i, m', v))
  {
    hide Looked, Tried;
    if run[m].pcs[i].Steal? && run[m].pcs[i].k < |run[m].pcs| {
      var v := Tried(run[m].pcs[i].start, run[m].pcs[i].k, |run[m].pcs|);
      assert run[m].deques[v] == 0 || acts[m].1.Races? ==> TriesInVain(run, acts, i, m, v);
    }
  }

  lemma {:induction false} SeenSoFar(run: seq<State>, acts: seq<(Actor, Choice)>, i: nat, m: nat)
    requires IsTrace(run, acts) && m < |run| && i < |run[m].pcs| && Looking(run[m].pcs[i])
    ensures HasSeen(run, acts, i, m)
  {
    hide Step, HasSeen;
    NobodyLooks(run[0]);
    if m > 0 {
      assert run[m - 1 + 1] == Step(run[m - 1], acts[m - 1].0, acts[m - 1].1);
      GotHere(run[m - 1], acts[m - 1].0, acts[m - 1].1, i);
      if Looking(run[m - 1].pcs[i]) {
        SeenSoFar(run, acts, i, m - 1);
      }
      SeesMore(run, acts, i, m - 1, m);
    }
  }

  lemma NobodyLooks(s: State)
    requires Init(s)
    ensures forall i :: 0 <= i < |s.pcs| ==> !Looking(s.pcs[i])
  {
  }

  /** In every run a worker about to publish that it will sleep has, in this same pass, found its
      own deque empty, found the injector empty, and tried every other deque, each of which was
      empty then or lost to another thief. */
  lemma SleepsOnlyAfterLooking(run: seq<State>, acts: seq<(Actor, Choice)>, i: nat, m: nat)
    requires IsTrace(run, acts) && m < |run| && i < |run[m].pcs| && run[m].pcs[i] == Publish
    ensures SawOwnEmpty(run, acts, i, m) && SawInjectorEmpty(run, acts, i, m)
    ensures forall v :: 0 <= v < |run[m].pcs| && v != i ==> TriedInVain(run, acts, i, m, v)
  {
    SeenSoFar(run, acts, i, m);
  }
}
