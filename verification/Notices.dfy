/** Who is woken, what becomes of jobs, how `run` ends. */
module Notices {
  // A notifier that nobody interferes with wakes the first agent that has gone to sleep. Whatever
  // a worker does, no job gets lost on the way between queues and hands. And after a shutdown a
  // worker is out of `run` after a bounded number of its own accesses.

  import opened Sleep
  import opened Search

  // ── Who is woken ─────────────────────────────────────────────────────

  /** Nobody below `k` has published PARKED. */
  ghost predicate NoneParked(s: State, k: nat) {
    forall x :: 0 <= x < k && x < |s.slots| ==> s.slots[x] != PARKED
  }

  /** The first agent that has published PARKED is notified, and woken if it sleeps; the others stay
      as they are, but for the place of agent `but`. */
  ghost predicate NotifiesFirst(s: State, s': State, but: int) {
    && |s'.pcs| == |s.pcs| == |s.slots|
    && s' == s.(pcs := s'.pcs, slots := s'.slots, notifiers := s'.notifiers)
    && (NoneParked(s, |s.slots|) ==>
          s'.slots == s.slots && forall x :: 0 <= x < |s.pcs| && x != but ==> s'.pcs[x] == s.pcs[x])
    && (forall k :: 0 <= k < |s.slots| && s.slots[k] == PARKED && NoneParked(s, k) ==>
          && s'.slots == s.slots[k := NOTIFIED]
          && forall x :: 0 <= x < |s.pcs| && x != but ==>
               s'.pcs[x] == if x == k && s.pcs[k] == Asleep then Woke else s.pcs[x])
  }

  /** The first agent that has published PARKED, or the number of agents. */
  lemma FirstParked(s: State) returns (k: nat)
    requires Shape(s)
    ensures k <= |s.slots| && NoneParked(s, k) && (k < |s.slots| ==> s.slots[k] == PARKED)
  {
    k := 0;
    while k < |s.slots| && s.slots[k] != PARKED
      invariant k <= |s.slots| && NoneParked(s, k)
    {
      k := k + 1;
    }
  }

  lemma OneScan(s: State, i: nat, c: Choice, ran: nat, mid: bool, k: nat)
    requires Shape(s) && i < |s.pcs| && s.pcs[i] == Scan(ran, k, mid)
    ensures WorkerStep(s, i, c) ==
            if k >= |s.pcs| then s.(pcs := s.pcs[i := Notified(ran, mid)])
            else if s.slots[k] == PARKED
            then s.(pcs := s.pcs[i := Unpark(ran, k, mid)], slots := s.slots[k := NOTIFIED])
            else s.(pcs := s.pcs[i := Scan(ran, k + 1, mid)])
  {
  }

  lemma {:induction false} ScansUpTo(s: State, i: nat, c: Choice, ran: nat, mid: bool, k: nat)
    requires Shape(s) && i < |s.pcs| && s.pcs[i] == Scan(ran, 0, mid) && k <= |s.pcs| && NoneParked(s, k)
    ensures Alone(s, i, c, k) == s.(pcs := s.pcs[i := Scan(ran, k, mid)])
    decreases k
  {
    hide WorkerStep;
    if k > 0 {
      ScansUpTo(s, i, c, ran, mid, k - 1);
      var was := s.(pcs := s.pcs[i := Scan(ran, k - 1, mid)]);
      var s' := s.(pcs := s.pcs[i := Scan(ran, k, mid)]);
      assert was.pcs[i := Scan(ran, k, mid)] == s'.pcs;
      OneScan(was, i, c, ran, mid, k - 1);
      Then(s, i, c, k - 1, was, s');
    } else {
      assert s.pcs[i := Scan(ran, 0, mid)] == s.pcs;
    }
  }

  lemma OneUnpark(s: State, i: nat, c: Choice, ran: nat, mid: bool, k: nat)
    requires Shape(s) && i < |s.pcs| && s.pcs[i] == Unpark(ran, k, mid) && k < |s.pcs| && k != i
    ensures WorkerStep(s, i, c) ==
            s.(pcs := s.pcs[i := Notified(ran, mid)][k := if s.pcs[k] == Asleep then Woke else s.pcs[k]])
  {
    var pcs := s.pcs[i := Notified(ran, mid)];
    assert pcs[k] == s.pcs[k];
    assert pcs[k := s.pcs[k]] == pcs;
  }

  lemma NotifiesNobody(s: State, i: nat, c: Choice, ran: nat, mid: bool)
    requires Shape(s) && i < |s.pcs| && s.pcs[i] == Scan(ran, 0, mid) && NoneParked(s, |s.slots|)
    ensures Alone(s, i, c, |s.pcs| + 1) == s.(pcs := s.pcs[i := Notified(ran, mid)])
  {
    hide Alone, WorkerStep;
    var k := |s.pcs|;
    ScansUpTo(s, i, c, ran, mid, k);
    var s1 := s.(pcs := s.pcs[i := Scan(ran, k, mid)]);
    OneScan(s1, i, c, ran, mid, k);
    var s2 := s.(pcs := s.pcs[i := Notified(ran, mid)]);
    assert s1.pcs[i := Notified(ran, mid)] == s2.pcs;
    Then(s, i, c, k, s1, s2);
  }

  lemma NotifiesOne(s: State, i: nat, c: Choice, ran: nat, mid: bool, k: nat)
    requires Shape(s) && i < |s.pcs| && s.pcs[i] == Scan(ran, 0, mid) && NoneParked(s, k)
    requires k < |s.pcs| == |s.slots| && s.slots[k] == PARKED && i != k
    ensures Alone(s, i, c, k + 2) ==
            s.(pcs := s.pcs[i := Notified(ran, mid)][k := if s.pcs[k] == Asleep then Woke else s.pcs[k]],
               slots := s.slots[k := NOTIFIED])
  {
    hide Alone, WorkerStep, Shape, NoneParked;
    ScansUpTo(s, i, c, ran, mid, k);
    var s1 := s.(pcs := s.pcs[i := Scan(ran, k, mid)]);
    OneScan(s1, i, c, ran, mid, k);
    var s2 := s.(pcs := s.pcs[i := Unpark(ran, k, mid)], slots := s.slots[k := NOTIFIED]);
    assert s1.pcs[i := Unpark(ran, k, mid)] == s2.pcs;
    Then(s, i, c, k, s1, s2);
    OneUnpark(s2, i, c, ran, mid, k);
    assert s2.pcs[i := Notified(ran, mid)] == s.pcs[i := Notified(ran, mid)];
    var s3 := s2.(pcs := s2.pcs[i := Notified(ran, mid)][k := if s.pcs[k] == Asleep then Woke else s.pcs[k]]);
    Then(s, i, c, k + 1, s2, s3);
  }

  /** A worker that notifies, and is not interfered with, wakes the first that has gone to sleep. */
  lemma WorkerNotifies(s: State, i: nat, c: Choice, ran: nat, mid: bool) returns (n: nat)
    requires Inv(s) && i < |s.pcs| && s.pcs[i] == Scan(ran, 0, mid)
    ensures var s' := Alone(s, i, c, n); NotifiesFirst(s, s', i) && s'.pcs[i] == Notified(ran, mid)
    ensures Alone(s, i, c, n).notifiers == s.notifiers
  {
    hide *;
    OwnNotParked(s, i);
    var k := FirstParked(s);
    if k == |s.pcs| {
      NotifiesNobody(s, i, c, ran, mid);
      NobodyIsFirst(s, s.(pcs := s.pcs[i := Notified(ran, mid)]), i);
      n := k + 1;
    } else {
      NotifiesOne(s, i, c, ran, mid, k);
      var pcs := s.pcs[i := Notified(ran, mid)][k := if s.pcs[k] == Asleep then Woke else s.pcs[k]];
      OneIsFirst(s, s.(pcs := pcs, slots := s.slots[k := NOTIFIED]), i, k);
      n := k + 2;
    }
  }

  lemma OwnNotParked(s: State, i: nat)
    requires Inv(s) && i < |s.pcs| && s.pcs[i].Scan?
    ensures Shape(s) && |s.slots| == |s.pcs| && s.slots[i] != PARKED
  {
    hide NoLostWakeup, NotifiedWake, StopOk;
    assert SlotOk(s.pcs[i], s.slots[i]);
  }

  lemma NobodyIsFirst(s: State, s': State, but: int)
    requires |s.pcs| == |s.slots| == |s'.pcs| && NoneParked(s, |s.slots|)
    requires s' == s.(pcs := s'.pcs, notifiers := s'.notifiers)
    requires forall x :: 0 <= x < |s.pcs| && x != but ==> s'.pcs[x] == s.pcs[x]
    ensures NotifiesFirst(s, s', but)
  {
  }

  lemma OneIsFirst(s: State, s': State, but: int, k: nat)
    requires |s.pcs| == |s.slots| == |s'.pcs| && k < |s.slots| && s.slots[k] == PARKED && NoneParked(s, k)
    requires s' == s.(pcs := s'.pcs, notifiers := s'.notifiers, slots := s.slots[k := NOTIFIED])
    requires forall x :: 0 <= x < |s.pcs| && x != but ==>
               s'.pcs[x] == if x == k && s.pcs[k] == Asleep then Woke else s.pcs[x]
    ensures NotifiesFirst(s, s', but)
  {
    OnlyOneFirst(s, k);
  }

  lemma OnlyOneFirst(s: State, k: nat)
    requires k < |s.slots| && s.slots[k] == PARKED && NoneParked(s, k)
    ensures !NoneParked(s, |s.slots|)
    ensures forall x :: 0 <= x < |s.slots| && s.slots[x] == PARKED && NoneParked(s, x) ==> x == k
  {
  }

  lemma NotifierShape(s: State, j: nat)
    requires Shape(s) && j < |s.notifiers|
    ensures Shape(NotifierStep(s, j))
  {
    assert NotifierInRange(s.notifiers[j], |s.pcs|);
  }

  /** `n` accesses of notifier `j` and of nobody else. */
  ghost function NotifierAlone(s: State, j: nat, n: nat): (s': State)
    requires Shape(s) && j < |s.notifiers|
    ensures Shape(s') && |s'.pcs| == |s.pcs| && |s'.notifiers| == |s.notifiers|
    decreases n
  {
    if n == 0 then s
    else
      var was := NotifierAlone(s, j, n - 1);
      NotifierShape(was, j);
      NotifierStep(was, j)
  }

  lemma ThenNotifier(s: State, j: nat, n: nat, was: State, s': State)
    requires Shape(s) && j < |s.notifiers| && NotifierAlone(s, j, n) == was && NotifierStep(was, j) == s'
    ensures NotifierAlone(s, j, n + 1) == s'
  {
    hide NotifierStep, Shape;
  }

  lemma OneNotifierScan(s: State, j: nat, k: nat)
    requires Shape(s) && j < |s.notifiers| && s.notifiers[j] == Scanning(k)
    ensures NotifierStep(s, j) ==
            if k == |s.pcs| then s.(notifiers := s.notifiers[j := Resting])
            else if s.slots[k] == PARKED
            then s.(slots := s.slots[k := NOTIFIED], notifiers := s.notifiers[j := Unparking(k)])
            else s.(notifiers := s.notifiers[j := Scanning(k + 1)])
  {
    assert NotifierInRange(s.notifiers[j], |s.pcs|);
  }

  /** A job pushed, and `k` slots passed. */
  lemma {:induction false} NotifierScansUpTo(s: State, j: nat, k: nat)
    requires Shape(s) && j < |s.notifiers| && s.notifiers[j] == Resting && k <= |s.pcs| && NoneParked(s, k)
    ensures NotifierAlone(s, j, k + 1) ==
            s.(injector := s.injector + 1, notifiers := s.notifiers[j := Scanning(k)])
    decreases k
  {
    var s' := s.(injector := s.injector + 1, notifiers := s.notifiers[j := Scanning(k)]);
    if k > 0 {
      hide NotifierStep;
      NotifierScansUpTo(s, j, k - 1);
      var was := s.(injector := s.injector + 1, notifiers := s.notifiers[j := Scanning(k - 1)]);
      assert was.notifiers[j := Scanning(k)] == s'.notifiers;
      OneNotifierScan(was, j, k - 1);
      ThenNotifier(s, j, k, was, s');
    } else {
      assert NotifierAlone(s, j, 0) == s;
      ThenNotifier(s, j, 0, s, s');
    }
  }

  lemma NotifierFindsOne(s: State, j: nat, k: nat)
    requires Shape(s) && j < |s.notifiers| && s.notifiers[j] == Resting && k < |s.pcs| == |s.slots|
    requires NoneParked(s, k) && s.slots[k] == PARKED
    ensures NotifierAlone(s, j, k + 3) ==
            s.(injector := s.injector + 1, slots := s.slots[k := NOTIFIED],
               pcs := s.pcs[k := if s.pcs[k] == Asleep then Woke else s.pcs[k]])
  {
    hide NotifierAlone, NotifierStep, Shape, NoneParked;
    NotifierScansUpTo(s, j, k);
    var s1 := s.(injector := s.injector + 1, notifiers := s.notifiers[j := Scanning(k)]);
    OneNotifierScan(s1, j, k);
    var s2 := s1.(slots := s.slots[k := NOTIFIED], notifiers := s.notifiers[j := Unparking(k)]);
    assert s1.notifiers[j := Unparking(k)] == s2.notifiers;
    ThenNotifier(s, j, k + 1, s1, s2);
    var s3 := s2.(notifiers := s.notifiers, pcs := s.pcs[k := if s.pcs[k] == Asleep then Woke else s.pcs[k]]);
    UnparksNow(s2, j, k);
    assert s2.notifiers[j := Resting] == s3.notifiers;
    ThenNotifier(s, j, k + 2, s2, s3);
  }

  /** A spawner or waker that is not interfered with leaves one more job in the injector and wakes
      the first that has gone to sleep. */
  lemma NotifierNotifies(s: State, j: nat) returns (n: nat)
    requires Shape(s) && j < |s.notifiers| && s.notifiers[j] == Resting
    ensures var s' := NotifierAlone(s, j, n);
            NotifiesFirst(s.(injector := s.injector + 1), s', |s.pcs|) && s'.notifiers == s.notifiers
  {
    hide *;
    Sizes(s);
    var k := FirstParked(s);
    var pushed := s.(injector := s.injector + 1);
    SameParked(s, pushed, k);
    if k == |s.pcs| {
      NotifierScansUpTo(s, j, k);
      var s1 := s.(injector := s.injector + 1, notifiers := s.notifiers[j := Scanning(k)]);
      OneNotifierScan(s1, j, k);
      assert s1.notifiers[j := Resting] == s.notifiers;
      ThenNotifier(s, j, k + 1, s1, pushed);
      NobodyIsFirst(pushed, pushed, |s.pcs|);
      n := k + 2;
    } else {
      NotifierFindsOne(s, j, k);
      OneIsFirst(pushed, NotifierAlone(s, j, k + 3), |s.pcs|, k);
      n := k + 3;
    }
  }

  lemma Sizes(s: State)
    requires Shape(s)
    ensures |s.slots| == |s.pcs| == |s.deques|
  {
  }

  lemma SameParked(s: State, s': State, k: nat)
    requires NoneParked(s, k) && s'.slots == s.slots
    ensures NoneParked(s', k)
  {
  }

  lemma UnparksNow(s: State, j: nat, k: nat)
    requires Shape(s) && j < |s.notifiers| && s.notifiers[j] == Unparking(k) && k < |s.pcs|
    ensures NotifierStep(s, j) == s.(notifiers := s.notifiers[j := Resting],
                                     pcs := s.pcs[k := if s.pcs[k] == Asleep then Woke else s.pcs[k]])
  {
    assert s.pcs[k := s.pcs[k]] == s.pcs;
  }

  // ── After a step ─────────────────────────────────────────────────────

  /** A step that completes or blocks leaves the queues alone, and the worker looks on. */
  lemma StepEnds(s: State, i: nat, c: Choice, ran: nat)
    requires Shape(s) && i < |s.pcs| && s.pcs[i] == InTask(ran) && (c.Completes? || c.Blocks?)
    ensures WorkerStep(s, i, c) == s.(pcs := s.pcs[i := StepEnd(ran + 1)])
  {
  }

  lemma YieldsNow(s: State, i: nat, ran: nat)
    requires Shape(s) && i < |s.pcs| && s.pcs[i] == InTask(ran)
    ensures WorkerStep(s, i, Yields) == s.(pcs := s.pcs[i := Deposit(ran + 1, true)])
  {
  }

  lemma DepositsNow(s: State, i: nat, ran: nat)
    requires Shape(s) && i < |s.pcs| && s.pcs[i] == Deposit(ran, true)
    ensures WorkerStep(s, i, Yields) == s.(pcs := s.pcs[i := Surplus(ran)], deques := s.deques[i := s.deques[i] + 1])
  {
  }

  lemma SurplusNow(s: State, i: nat, ran: nat)
    requires Shape(s) && i < |s.pcs| && s.pcs[i] == Surplus(ran)
    ensures WorkerStep(s, i, Yields)
         == s.(pcs := s.pcs[i := if s.deques[i] > 1 then Scan(ran, 0, false) else StepEnd(ran)])
  {
  }

  lemma PutsBack(s: State, i: nat, ran: nat)
    requires Shape(s) && i < |s.pcs| && s.pcs[i] == InTask(ran)
    ensures Alone(s, i, Yields, 3) ==
            s.(pcs := s.pcs[i := if s.deques[i] > 0 then Scan(ran + 1, 0, false) else StepEnd(ran + 1)],
               deques := s.deques[i := s.deques[i] + 1])
  {
    NoAccess(s, i, Yields);
    hide Alone, WorkerStep;
    var s1 := s.(pcs := s.pcs[i := Deposit(ran + 1, true)]);
    YieldsNow(s, i, ran);
    Then(s, i, Yields, 0, s, s1);
    var s2 := s.(pcs := s.pcs[i := Surplus(ran + 1)], deques := s.deques[i := s.deques[i] + 1]);
    assert s1.pcs[i := Surplus(ran + 1)] == s2.pcs;
    DepositsNow(s1, i, ran + 1);
    Then(s, i, Yields, 1, s1, s2);
    var s3 := s2.(pcs := s.pcs[i := if s.deques[i] > 0 then Scan(ran + 1, 0, false) else StepEnd(ran + 1)]);
    assert s2.pcs[i := s3.pcs[i]] == s3.pcs;
    SurplusNow(s2, i, ran + 1);
    Then(s, i, Yields, 2, s2, s3);
  }

  /** A step that yields puts the job back on the worker's own deque, and if that leaves more than
      one there, somebody asleep is woken to steal. */
  lemma StepYields(s: State, i: nat, ran: nat) returns (n: nat)
    requires Inv(s) && i < |s.pcs| && s.pcs[i] == InTask(ran)
    ensures var s' := Alone(s, i, Yields, n); var back := s.(deques := s.deques[i := s.deques[i] + 1]);
            && s'.pcs[i] == StepEnd(ran + 1)
            && if s.deques[i] > 0 then NotifiesFirst(back, s', i) else s' == back.(pcs := s.pcs[i := StepEnd(ran + 1)])
  {
    hide Alone, WorkerStep, NoLostWakeup, NotifiedWake, StopOk, SlotsOk;
    PutsBack(s, i, ran);
    if s.deques[i] > 0 {
      var s3 := Alone(s, i, Yields, 3);
      ThreeKeep(s, i, s3);
      n := WorkerNotifies(s3, i, Yields, ran + 1, false);
      AloneAdds(s, i, Yields, 3, n);
      SameNotice(s.(deques := s3.deques), s3, Alone(s3, i, Yields, n), i);
      n := 3 + n;
    } else {
      n := 3;
    }
  }

  lemma SameNotice(back: State, s: State, s': State, i: nat)
    requires NotifiesFirst(s, s', i) && i < |s.pcs| == |back.pcs| && s == back.(pcs := s.pcs)
    requires forall x :: 0 <= x < |s.pcs| && x != i ==> s.pcs[x] == back.pcs[x]
    ensures NotifiesFirst(back, s', i)
  {
    forall k | 0 <= k < |s.slots|
      ensures NoneParked(s, k) <==> NoneParked(back, k)
    {
    }
  }

  lemma ThreeKeep(s: State, i: nat, s3: State)
    requires Inv(s) && i < |s.pcs| && Alone(s, i, Yields, 3) == s3
    ensures Inv(s3)
  {
    AloneKeeps(s, i, Yields, 3);
  }

  lemma {:induction false} AloneKeeps(s: State, i: nat, c: Choice, n: nat)
    requires Inv(s) && i < |s.pcs|
    ensures Inv(Alone(s, i, c, n))
    decreases n
  {
    hide Inv, WorkerStep;
    InvShape(s);
    if n > 0 {
      AloneKeeps(s, i, c, n - 1);
      StepKeepsInv(Alone(s, i, c, n - 1), Worker(i), c);
    }
  }

  lemma InvShape(s: State)
    requires Inv(s)
    ensures Shape(s)
  {
  }

  // ── No job is lost ───────────────────────────────────────────────────

  /** The jobs a worker has in its hands: the one it steps or puts away, and one it has just
      spawned and not yet queued. */
  function Held(pc: Pc): nat {
    match pc
    case InTask(_) => 1
    case Deposit(_, _) => 1
    case Spill(_, _) => 1
    case SpawnSpill(_) => 2
    case Scan(_, _, mid) => if mid then 1 else 0
    case Unpark(_, _, mid) => if mid then 1 else 0
    case _ => 0
  }

  function SumOf(a: seq<nat>): nat {
    if |a| == 0 then 0 else SumOf(a[..|a| - 1]) + a[|a| - 1]
  }

  function HeldBy(pcs: seq<Pc>): (r: seq<nat>)
    ensures |r| == |pcs| && forall i :: 0 <= i < |r| ==> r[i] == Held(pcs[i])
  {
    seq(|pcs|, i requires 0 <= i < |pcs| => Held(pcs[i]))
  }

  /** All jobs in queues and in workers' hands. */
  function Stock(s: State): nat {
    s.injector + SumOf(s.deques) + SumOf(HeldBy(s.pcs))
  }

  lemma {:induction false} SumUpdate(a: seq<nat>, i: nat, x: nat)
    requires i < |a|
    ensures SumOf(a[i := x]) == SumOf(a) - a[i] + x && a[i] <= SumOf(a)
  {
    var n := |a| - 1;
    if i == n {
      assert a[i := x][..n] == a[..n];
    } else {
      assert a[i := x][..n] == a[..n][i := x];
      SumUpdate(a[..n], i, x);
    }
  }

  /** The jobs that come into being and go out of the cluster in an access of worker `i`: those of
      the step of a task that ends in it, or that spawns. */
  function Made(pc: Pc, c: Choice): int {
    if !pc.InTask? then 0
    else match c
      case Completes => -1
      case Blocks => -1
      case Spawns => 1
      case SpawnsFull => 1
      case _ => 0
  }

  lemma WorkerHolds(s: State, i: nat, c: Choice)
    requires Shape(s) && i < |s.pcs|
    ensures SumOf(HeldBy(WorkerStep(s, i, c).pcs)) == SumOf(HeldBy(s.pcs)) - Held(s.pcs[i]) + Held(WorkerPc(s, i, c))
  {
    OthersStay(s, i, c);
    var s' := WorkerStep(s, i, c);
    hide WorkerStep, WorkerPc, SumOf;
    var h, h' := HeldBy(s.pcs), HeldBy(s'.pcs);
    assert h' == h[i := h'[i]];
    SumUpdate(h, i, h'[i]);
  }

  lemma DequesChange(s: State, i: nat, c: Choice)
    requires Shape(s) && i < |s.pcs|
    ensures var d := WorkerDeques(s, i, c); var v := Victim(s, i, c);
            SumOf(d) == SumOf(s.deques) +
              match s.pcs[i]
              case PopOwn(_) => if s.deques[i] > 0 then -1 else 0
              case Steal(_, _, _) => if v != i && s.deques[v] > 0 then -1 else 0
              case Deposit(_, _) => if c.Races? then 0 else 1
              case InTask(_) => if c.Spawns? then 1 else 0
              case _ => 0
  {
    var v := Victim(s, i, c);
    SumUpdate(s.deques, i, s.deques[i] + 1);
    if s.deques[i] > 0 {
      SumUpdate(s.deques, i, s.deques[i] - 1);
    }
    if s.deques[v] > 0 {
      SumUpdate(s.deques, v, s.deques[v] - 1);
    }
    hide SumOf, Victim;
  }

  /** What leaves the queues is in the worker's hands, and what leaves those is in a queue. */
  lemma OneForOne(s: State, i: nat, c: Choice)
    requires Shape(s) && i < |s.pcs|
    ensures SumOf(WorkerDeques(s, i, c)) + WorkerInjector(s, i) + Held(WorkerPc(s, i, c))
         == SumOf(s.deques) + s.injector + Held(s.pcs[i]) + Made(s.pcs[i], c)
  {
    DequesChange(s, i, c);
    hide SumOf, Shape, Victim, WorkerDeques;
  }

  /** Every access of a worker moves jobs about, and makes or loses none: one comes in only when a
      task spawns it, and goes out only when its step completes or blocks. */
  lemma WorkerKeepsStock(s: State, i: nat, c: Choice)
    requires Shape(s) && i < |s.pcs|
    ensures Stock(WorkerStep(s, i, c)) == Stock(s) + Made(s.pcs[i], c)
  {
    WorkerHolds(s, i, c);
    OneForOne(s, i, c);
    TakesEffect(s, i, c);
    hide WorkerStep, WorkerPc, WorkerDeques, WorkerInjector, SumOf, Held, Made;
  }

  lemma TakesEffect(s: State, i: nat, c: Choice)
    requires Shape(s) && i < |s.pcs|
    ensures WorkerStep(s, i, c).deques == WorkerDeques(s, i, c)
    ensures WorkerStep(s, i, c).injector == WorkerInjector(s, i)
  {
    hide WorkerPc, WorkerDeques, WorkerInjector, WorkerSlots;
  }

  // ── Shutdown ─────────────────────────────────────────────────────────

  lemma StopperShape(s: State)
    requires Shape(s) && (s.stopper.Storing? ==> s.stopper.k <= |s.pcs|)
    ensures Shape(StopperStep(s))
  {
  }

  /** `n` accesses of the thread that shuts down, and of nobody else. */
  ghost function StopperAlone(s: State, n: nat): (s': State)
    requires Shape(s)
    ensures Shape(s') && |s'.pcs| == |s.pcs|
    decreases n
  {
    if n == 0 then s
    else
      var was := StopperAlone(s, n - 1);
      StopperShape(was);
      StopperStep(was)
  }

  /** The first `k` agents have been told to stop, and none of them sleeps. */
  ghost predicate Told(s: State, s': State, k: nat) {
    && |s'.pcs| == |s.pcs| == |s.slots| == |s'.slots| && k <= |s.pcs|
    && s' == s.(pcs := s'.pcs, slots := s'.slots, stopping := true, stopper := s'.stopper)
    && forall x :: 0 <= x < |s.pcs| ==>
         && s'.pcs[x] == (if x < k && s.pcs[x] == Asleep then Woke else s.pcs[x])
         && s'.slots[x] == (if x < k then NOTIFIED else s.slots[x])
  }

  lemma {:induction false} StopperTells(s: State, k: nat)
    requires Shape(s) && s.stopper == NotYet && k <= |s.pcs|
    ensures Told(s, StopperAlone(s, 2 + 2 * k), k) && StopperAlone(s, 2 + 2 * k).stopper == Storing(k)
    decreases k
  {
    if k == 0 {
      assert StopperAlone(s, 0) == s;
      assert StopperAlone(s, 1) == StopperStep(s);
    } else {
      StopperTells(s, k - 1);
      var was := StopperAlone(s, 2 * k);
      assert 2 + 2 * (k - 1) == 2 * k;
      assert StopperAlone(s, 2 * k + 1) == StopperStep(was);
      assert StopperAlone(s, 2 * k + 2) == StopperStep(StopperStep(was));
      hide *;
      TellsOne(s, was, k - 1);
    }
  }

  lemma TellsOne(s: State, was: State, k: nat)
    requires Shape(was) && Told(s, was, k) && was.stopper == Storing(k) && k < |s.pcs| && Shape(StopperStep(was))
    ensures var s' := StopperStep(StopperStep(was)); Told(s, s', k + 1) && s'.stopper == Storing(k + 1)
  {
  }

  /** `shutdown` tells everybody, wakes every sleeper, and is over after a bounded number of
      accesses. */
  lemma ShutdownTellsAll(s: State)
    requires Shape(s) && s.stopper == NotYet
    ensures var s' := StopperAlone(s, 3 + 2 * |s.pcs|); s'.stopper == Finished && Told(s, s', |s.pcs|)
  {
    StopperTells(s, |s.pcs|);
    assert StopperAlone(s, 3 + 2 * |s.pcs|) == StopperStep(StopperAlone(s, 2 + 2 * |s.pcs|));
  }

  /** How many accesses a worker still makes in `run` once shutdown is over, at most, if its tasks
      spawn nothing more onto its own deque. */
  function ToGo(pc: Pc, n: nat): int {
    match pc
    case Out => 0
    case StepEnd(_) => 1
    case DriveStart => 1
    case Undone => 1
    case WokeCheck => 1
    case Top => 2
    case Undo => 2
    case Woke => 2
    case Unpark(_, _, mid) => if mid then 8 + n else 2
    case Consume => 3
    case RecheckStop => 3
    case Park => 3
    case Asleep => 3
    case Publish => 4
    case RecheckDeque(k) => 4 + n - k
    case RecheckInjector => 5 + n
    case Scan(_, k, mid) => (if mid then 9 + n else 3) + n - k
    case Surplus(_) => 4 + n
    case Spill(_, _) => 5 + n
    case Deposit(_, _) => 6 + n
    case InTask(_) => 7 + n
    case Steal(_, _, k) => 8 + n + n - k
    case Rotor(_) => 9 + 2 * n
    case PopInjector(_) => 10 + 2 * n
    case PopOwn(_) => 11 + 2 * n
    case SpawnSpill(_) => 10 + 2 * n
  }

  /** What a worker's place says once shutdown is over. */
  lemma AfterShutdown(s: State, i: nat)
    requires Inv(s) && s.stopper.Finished? && i < |s.pcs|
    ensures Shape(s) && s.stopping && PcInRange(s.pcs[i], |s.pcs|) && !s.pcs[i].Asleep?
    ensures s.pcs[i].Park? || s.pcs[i].RecheckDeque? || s.pcs[i].RecheckInjector? ==> s.slots[i] == NOTIFIED
  {
    hide NoLostWakeup, NotifiedWake, SlotsOk;
  }

  predicate Working(pc: Pc) {
    || pc.InTask? || pc.Deposit? || pc.Spill? || pc.Surplus? || pc.SpawnSpill? || pc.Scan? || pc.Unpark?
    || pc.StepEnd?
  }

  predicate Searching(pc: Pc) {
    pc.Top? || pc.DriveStart? || pc.PopOwn? || pc.PopInjector? || pc.Rotor? || pc.Steal?
  }

  lemma WorkEnds(s: State, i: nat, c: Choice)
    requires Shape(s) && s.stopping && i < |s.pcs| && Working(s.pcs[i]) && PcInRange(s.pcs[i], |s.pcs|)
    requires s.pcs[i].InTask? ==> !c.Spawns? && !c.SpawnsFull?
    ensures 0 <= ToGo(WorkerPc(s, i, c), |s.pcs|) < ToGo(s.pcs[i], |s.pcs|) <= 11 + 2 * |s.pcs|
  {
    hide Shape, Victim;
  }

  lemma SearchEnds(s: State, i: nat, c: Choice)
    requires Shape(s) && s.stopping && i < |s.pcs| && Searching(s.pcs[i]) && PcInRange(s.pcs[i], |s.pcs|)
    ensures 0 <= ToGo(WorkerPc(s, i, c), |s.pcs|) < ToGo(s.pcs[i], |s.pcs|) <= 11 + 2 * |s.pcs|
  {
    hide Shape, Victim;
  }

  lemma SleepEnds(s: State, i: nat, c: Choice)
    requires Shape(s) && s.stopping && i < |s.pcs| && !Searching(s.pcs[i]) && !Working(s.pcs[i])
    requires PcInRange(s.pcs[i], |s.pcs|) && !s.pcs[i].Out? && !s.pcs[i].Asleep?
    requires s.pcs[i].Park? ==> s.slots[i] == NOTIFIED
    ensures 0 <= ToGo(WorkerPc(s, i, c), |s.pcs|) < ToGo(s.pcs[i], |s.pcs|) <= 11 + 2 * |s.pcs|
  {
    hide Shape, Victim;
  }

  lemma DrainsOn(s: State, i: nat, c: Choice)
    requires Inv(s) && s.stopper.Finished? && i < |s.pcs| && !s.pcs[i].Out?
    requires s.pcs[i].InTask? ==> !c.Spawns? && !c.SpawnsFull?
    ensures 0 <= ToGo(WorkerPc(s, i, c), |s.pcs|) < ToGo(s.pcs[i], |s.pcs|) <= 11 + 2 * |s.pcs|
  {
    AfterShutdown(s, i);
    hide *;
    if Working(s.pcs[i]) {
      WorkEnds(s, i, c);
    } else if Searching(s.pcs[i]) {
      SearchEnds(s, i, c);
    } else {
      SleepEnds(s, i, c);
    }
  }

  /** How often worker `i` acts in steps `lo..hi`. */
  ghost function Count(acts: seq<(Actor, Choice)>, i: nat, lo: nat, hi: nat): nat
    requires lo <= hi <= |acts|
  {
    if lo == hi then 0 else Count(acts, i, lo, hi - 1) + if acts[hi - 1].0 == Worker(i) then 1 else 0
  }

  lemma TraceInv(run: seq<State>, acts: seq<(Actor, Choice)>, k: nat)
    requires IsTrace(run, acts) && k < |run|
    ensures Inv(run[k])
  {
    hide Step, Init, Inv, Shape;
    forall x | 0 <= x < |run| - 1
      ensures Next(run[x], run[x + 1])
    {
      assert run[x + 1] == Step(run[x], acts[x].0, acts[x].1);
    }
    RunInv(run, k);
  }

  /** Others do not keep a worker that has not left. */
  lemma OthersDoNotDelay(s: State, a: Actor, c: Choice, i: nat)
    requires Inv(s) && s.stopper.Finished? && i < |s.pcs| && a != Worker(i) && !s.pcs[i].Out?
    ensures Step(s, a, c).stopper.Finished? && |Step(s, a, c).pcs| == |s.pcs|
    ensures Step(s, a, c).pcs[i] == s.pcs[i]
  {
    AfterShutdown(s, i);
    hide Inv, WorkerPc, WorkerSlots, WorkerDeques, WorkerInjector;
  }

  /** Once shutdown is over a worker is out of `run` after fewer than `12 + 2 * n` accesses of its
      own, whatever the others do, if its tasks do not spawn. */
  lemma {:induction false} RunIsLeft(run: seq<State>, acts: seq<(Actor, Choice)>, i: nat, j: nat, m: nat)
    requires IsTrace(run, acts) && j <= m < |run| && run[j].stopper.Finished? && i < |run[j].pcs|
    requires forall k :: j <= k <= m ==> i < |run[k].pcs| && !run[k].pcs[i].Out?
    requires forall k :: j <= k < m && acts[k].0 == Worker(i) && run[k].pcs[i].InTask? ==>
               !acts[k].1.Spawns? && !acts[k].1.SpawnsFull?
    ensures run[m].stopper.Finished? && |run[m].pcs| == |run[j].pcs|
    ensures Count(acts, i, j, m) + ToGo(run[m].pcs[i], |run[m].pcs|) <= ToGo(run[j].pcs[i], |run[j].pcs|)
    ensures Count(acts, i, j, m) < 12 + 2 * |run[j].pcs|
    decreases m
  {
    hide Inv, Step, Init, Shape, ToGo, WorkerPc;
    TraceInv(run, acts, m);
    TraceInv(run, acts, j);
    NotLong(run[j], i);
    NotLong(run[m], i);
    if m > j {
      RunIsLeft(run, acts, i, j, m - 1);
      TraceInv(run, acts, m - 1);
      OneStepOn(run[m - 1], acts[m - 1].0, acts[m - 1].1, i);
      assert run[m - 1 + 1] == Step(run[m - 1], acts[m - 1].0, acts[m - 1].1);
    }
  }

  lemma NotLong(s: State, i: nat)
    requires Inv(s) && i < |s.pcs|
    ensures 0 <= ToGo(s.pcs[i], |s.pcs|) <= 11 + 2 * |s.pcs|
  {
    hide NoLostWakeup, NotifiedWake, SlotsOk, StopOk;
    assert PcInRange(s.pcs[i], |s.pcs|);
  }

  lemma OneStepOn(s: State, a: Actor, c: Choice, i: nat)
    requires Inv(s) && s.stopper.Finished? && i < |s.pcs| && !s.pcs[i].Out?
    requires a == Worker(i) && s.pcs[i].InTask? ==> !c.Spawns? && !c.SpawnsFull?
    ensures Shape(s) && Step(s, a, c).stopper.Finished? && |Step(s, a, c).pcs| == |s.pcs|
    ensures ToGo(Step(s, a, c).pcs[i], |s.pcs|) + (if a == Worker(i) then 1 else 0) <= ToGo(s.pcs[i], |s.pcs|)
  {
    AfterShutdown(s, i);
    if a == Worker(i) {
      DrainsOn(s, i, c);
      OthersStay(s, i, c);
    } else {
      OthersDoNotDelay(s, a, c, i);
    }
    hide Inv, WorkerPc, WorkerSlots, WorkerDeques, WorkerInjector, ToGo;
  }
}
