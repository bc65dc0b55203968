/** A deadlock that is never reported. */
module MixedToy {
  // Two coroutines: the first ends at once, the second waits for a channel that nobody will
  // ever send on. The loop of the original and that of the output go round for ever, report
  // or no report.

  import opened Options
  import opened Cfg
  import opened Coroutines
  import opened Regions
  import opened Machines
  import opened Executors
  import opened Guards
  import opened Cooperative
  import opened Deadlocks
  import opened Outline
  import opened Nesting

  const MIXED: Blocks := [
    Block([RegionBegin, CoroutineBegin(None), User(1), CoroutineEnd], Goto(1)),
    Block([CoroutineBegin(None), GuardedRecv(0)], Goto(2)),
    Block([CoroutineEnd], Goto(3)),
    Block([RegionEnd], Goto(4)),
    Block([], Return)]

  const ENDS := Coroutine((0, 1), (0, 3), None)
  const WAITS := Coroutine((1, 0), (2, 0), None)
  const PAIR := Region((0, 0), (3, 0), [ENDS, WAITS])

  const GROUNDS: seq<set<BlockId>> := [{0}, {1, 2}]

  // ── It is well formed ────────────────────────────────────────────────

  lemma EndsGrounded()
    ensures Grounded(MIXED, PAIR, ENDS, {0})
  {
    assert SitesIn(MIXED, ENDS, {0}) == {};
    hide SitesIn;
  }

  lemma WaitsGrounded()
    ensures Grounded(MIXED, PAIR, WAITS, {1, 2})
  {
    assert SitesIn(MIXED, WAITS, {1, 2}) == {(1, 1)};
    hide SitesIn;
  }

  lemma MixedIsSound()
    ensures Sound(MIXED, PAIR, GROUNDS)
  {
    hide Grounded, EnteredAtBegin;
    EndsGrounded();
    WaitsGrounded();
    MixedEntered();
    assert PAIR.coroutines == [ENDS, WAITS] && GROUNDS[0] == {0} && GROUNDS[1] == {1, 2};
  }

  lemma MixedEntered()
    ensures EnteredAtBegin(MIXED, PAIR, GROUNDS)
  {
    forall b: nat
      ensures OnGround(GROUNDS, b) <==> b < 3
    {
      assert b == 0 ==> b in GROUNDS[0];
      assert b in {1, 2} ==> b in GROUNDS[1];
    }
    hide OnGround;
  }

  lemma MixedIsWellFormed(base: nat)
    ensures RegionOk(MIXED, base, PAIR) && IsOutside(MIXED, PAIR, 0)
  {
    MixedIsSound();
    MixedIsMarked();
    MixedIsUsers(base);
    hide Sound, Marked, InSequence, SourceOk;
    assert |GROUNDS| == 2;
    SoundIsOk(MIXED, base, PAIR, GROUNDS);
    hide RegionOk, OutsideSet;
    var code := CodeOutside(MIXED, base, PAIR, GROUNDS);
    assert 0 in code;
  }

  lemma MixedIsMarked()
    ensures Marked(MIXED, PAIR) && InSequence(PAIR)
  {
  }

  lemma MixedIsUsers(base: nat)
    ensures SourceOk(MIXED, base)
  {
  }

  // ── It gets stuck ────────────────────────────────────────────────────

  /** The world once the first coroutine has ended. */
  function After<U>(sem: Sem<U>, w: World<U>): World<U> {
    World(sem.exec(1, w.u), w.trace + [Ran(1)])
  }

  lemma EntersPair<U>(sem: Sem<U>, w: World<U>)
    ensures OutsideStep(sem, MIXED, PAIR, SourceStart(0, w), FIRST_TURN, 0)
         == Ref(Deciding, [At(0, 1), At(1, 0)], false, FIRST_TURN, w)
  {
    assert MIXED[0].stmts[..1] == [RegionBegin];
    assert DoAll(sem, [RegionBegin], w) == DoAll(sem, [], w);
  }

  lemma FirstEnds<U>(sem: Sem<U>, r: Coop<U>)
    requires |r.pos| == 2
    ensures RunFrom(sem, MIXED, ENDS, r, 0, 0, 1)
            == r.(ctl := Polled(0, Completed), pos := r.pos[0 := Done], w := After(sem, r.w))
  {
    var stmts: seq<Stmt> := [CoroutineBegin(None), User(1), CoroutineEnd];
    assert MIXED[0].stmts[1..] == stmts;
    assert stmts[1..] == [User(1), CoroutineEnd] && [User(1), CoroutineEnd][1..] == [CoroutineEnd]
           && [CoroutineEnd][1..] == [];
    assert DoAll(sem, [CoroutineEnd], After(sem, r.w)) == DoAll(sem, [], After(sem, r.w));
    assert DoAll(sem, [User(1), CoroutineEnd], r.w) == DoAll(sem, [CoroutineEnd], After(sem, r.w));
    assert DoAll(sem, stmts, r.w) == DoAll(sem, [User(1), CoroutineEnd], r.w);
  }

  lemma SecondWaits<U>(sem: Sem<U>, r: Coop<U>)
    requires |r.pos| == 2 && !sem.ready(0, r.w.u)
    ensures RunFrom(sem, MIXED, WAITS, r, 1, 1, 0) == r.(ctl := Polled(1, Blocked), pos := r.pos[1 := At(1, 1)])
  {
    assert MIXED[1].stmts[0..1] == [CoroutineBegin(None)];
    assert DoAll(sem, [CoroutineBegin(None)], r.w) == DoAll(sem, [], r.w);
  }

  lemma Onward<U>(sem: Sem<U>, report: bool, r: Coop<U>, n: nat)
    ensures CoopRun(sem, MIXED, PAIR, report, r, n + 1)
            == CoopStep(sem, MIXED, PAIR, report, CoopRun(sem, MIXED, PAIR, report, r, n))
  {
    hide CoopStep;
    var r1 := CoopRun(sem, MIXED, PAIR, report, r, n);
    CoopRunAdds(sem, MIXED, PAIR, report, r, n, 1);
    assert CoopRun(sem, MIXED, PAIR, report, r1, 1)
           == CoopRun(sem, MIXED, PAIR, report, CoopStep(sem, MIXED, PAIR, report, r1), 0);
  }

  lemma FirstTurn<U>(sem: Sem<U>, report: bool, w: World<U>)
    ensures CoopRun(sem, MIXED, PAIR, report, SourceStart(0, w), 5)
            == Ref(Deciding, [Done, At(1, 0)], true, Turn(1, true), After(sem, w))
  {
    hide CoopRun, RunFrom, OutsideStep;
    var w1 := After(sem, w);
    EntersPair(sem, w);
    var r0 := Ref(Deciding, [At(0, 1), At(1, 0)], false, FIRST_TURN, w);
    FirstEnds(sem, r0.(ctl := Inside(0, 0, 1)));
    hide After;
    var states := [SourceStart(0, w), r0, r0.(ctl := Polling(0)), r0.(ctl := Inside(0, 0, 1)),
                   r0.(ctl := Polled(0, Completed), pos := [Done, At(1, 0)], w := w1),
                   Ref(Deciding, [Done, At(1, 0)], true, Turn(1, true), w1)];
    Chained(sem, report, states);
  }

  lemma SecondTurn<U>(sem: Sem<U>, report: bool, w: World<U>)
    requires !sem.ready(0, w.u)
    ensures CoopRun(sem, MIXED, PAIR, report, Ref(Deciding, [Done, At(1, 0)], true, Turn(1, true), w), 4)
         == Ref(Deciding, [Done, At(1, 1)], true, Turn(2, false), w)
  {
    hide CoopRun, RunFrom, OutsideStep;
    var r1 := Ref(Deciding, [Done, At(1, 0)], true, Turn(1, true), w);
    SecondWaits(sem, r1.(ctl := Inside(1, 1, 0)));
    var states :=
      [r1, r1.(ctl := Polling(1)), r1.(ctl := Inside(1, 1, 0)), r1.(ctl := Polled(1, Blocked), pos := [Done, At(1, 1)]),
                   Ref(Deciding, [Done, At(1, 1)], true, Turn(2, false), w)];
    Chained(sem, report, states);
  }

  /** After one pass the first coroutine has ended and the second stands at its guard. */
  lemma FirstPass<U>(sem: Sem<U>, report: bool, w: World<U>)
    requires !sem.ready(0, After(sem, w).u)
    ensures CoopRun(sem, MIXED, PAIR, report, SourceStart(0, w), 9)
         == Ref(Deciding, [Done, At(1, 1)], true, Turn(2, false), After(sem, w))
  {
    hide CoopRun, After;
    FirstTurn(sem, report, w);
    SecondTurn(sem, report, After(sem, w));
    CoopRunAdds(sem, MIXED, PAIR, report, SourceStart(0, w), 5, 4);
  }

  lemma {:induction false} Chained<U>(sem: Sem<U>, report: bool, states: seq<Coop<U>>)
    requires |states| > 0 && forall i :: 0 <= i < |states| - 1 ==>
               CoopStep(sem, MIXED, PAIR, report, states[i]) == states[i + 1]
    ensures CoopRun(sem, MIXED, PAIR, report, states[0], |states| - 1) == states[|states| - 1]
  {
    hide CoopStep;
    var n := |states| - 1;
    if n > 0 {
      Chained(sem, report, states[..n]);
      assert states[..n][0] == states[0] && states[..n][n - 1] == states[n - 1];
      Onward(sem, report, states[0], n - 1);
    }
  }

  /** Where the second pass begins. */
  function StuckAt<U>(sem: Sem<U>, w: World<U>): Coop<U> {
    Ref(Deciding, [Done, At(1, 1)], true, Turn(0, false), After(sem, w))
  }

  lemma SecondPass<U>(sem: Sem<U>, report: bool, w: World<U>)
    requires !sem.ready(0, After(sem, w).u)
    ensures CoopRun(sem, MIXED, PAIR, report, SourceStart(0, w), 10) == StuckAt(sem, w)
    ensures AtPassStart(PAIR, StuckAt(sem, w)) && SomeEnded(StuckAt(sem, w).pos)
    ensures Stuck(sem, MIXED, StuckAt(sem, w).pos, StuckAt(sem, w).w.u)
  {
    FirstPass(sem, report, w);
    Onward(sem, report, SourceStart(0, w), 9);
    hide CoopRun, After;
    assert StuckAt(sem, w).pos[0].Done? && StuckAt(sem, w).pos[1] == At(1, 1);
  }

  /** A run that gets stuck with one coroutine ended: a pass begins in which the other one
      stands at a shut guard, and nothing is ever reported, left or run again. */
  lemma MixedIsNeverReported<U>(sem: Sem<U>, report: bool, w: World<U>, n: nat)
    requires !sem.ready(0, sem.exec(1, w.u))
    ensures AtPassStart(PAIR, StuckAt(sem, w)) && SomeEnded(StuckAt(sem, w).pos)
    ensures Stuck(sem, MIXED, StuckAt(sem, w).pos, StuckAt(sem, w).w.u)
    ensures CoopRun(sem, MIXED, PAIR, report, SourceStart(0, w), 10) == StuckAt(sem, w)
    ensures var r := CoopRun(sem, MIXED, PAIR, report, SourceStart(0, w), 10 + n);
            !r.ctl.Halted? && r.pos == StuckAt(sem, w).pos && r.w.trace == w.trace + [Ran(1)]
  {
    var start := SourceStart(0, w);
    SecondPass(sem, report, w);
    EndedRun(sem, MIXED, PAIR, report, start, 10);
    hide CoopRun, Stuck, EndedIsProgress;
    var stuck := StuckAt(sem, w);
    StuckGoesRound(sem, MIXED, PAIR, report, stuck.pos, stuck.w, stuck, n);
    CoopRunAdds(sem, MIXED, PAIR, report, start, 10, n);
  }

  lemma {:induction false} HaltedForGood<U>(sem: Sem<U>, report: bool, r: Coop<U>, n: nat)
    requires r.ctl.Halted?
    ensures CoopRun(sem, MIXED, PAIR, report, r, n) == r
    decreases n
  {
    if n > 0 {
      HaltedForGood(sem, report, r, n - 1);
    }
  }

  /** Nor does whatever the transform makes of it ever stop. */
  lemma MixedOutputNeverStops<U>(sem: Sem<U>, out: Blocks, ms: seq<Machine>, report: bool, lifted: BlockId, lay: Loop,
                                 w: World<U>, sys: map<LocalId, int>, m: nat)
    requires CoopShape(MIXED, out, sem.base, PAIR, report, ms, lifted, lay)
    requires !sem.ready(0, sem.exec(1, w.u))
    ensures Run(sem, out, Entering(0, Store(w, sys)), m).Entering?
  {
    hide CoopShape, Run, CoopRun, Stuck, AtPassStart;
    MixedIsWellFormed(sem.base);
    NothingElseHappens(sem, MIXED, out, PAIR, ms, report, lifted, lay, 0, w, sys, m);
    var n :| (var r, c := CoopRun(sem, MIXED, PAIR, report, SourceStart(0, w), n),
              Run(sem, out, Entering(0, Store(w, sys)), m);
              c.st.w.trace <= r.w.trace && (c.Stopped? ==> SameOutcome(r, c)));
    var r := CoopRun(sem, MIXED, PAIR, report, SourceStart(0, w), n);
    MixedIsNeverReported(sem, report, w, n);
    CoopRunAdds(sem, MIXED, PAIR, report, SourceStart(0, w), n, 10);
    if r.ctl.Halted? {
      HaltedForGood(sem, report, r, 10);
    }
  }
}
