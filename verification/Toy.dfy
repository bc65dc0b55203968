/** The adapter test's body, end to end.

A check that the contracts can be met and that the theorems say what one expects of them.
*/
module Toy {
  import opened Options
  import opened Cfg
  import opened Coroutines
  import opened Regions
  import opened Footprint
  import opened Machines
  import opened Executors
  import opened Cooperative
  import opened Discovery
  import opened Outline
  import opened Nesting
  import opened Rounds

  const C1_S1: nat := 11
  const C1_S2: nat := 12
  const C2_S1: nat := 21
  const POST: nat := 31

  /** Two coroutines, a yield in the first, and a statement after the region. */
  const TOY: Blocks := [
    Block([RegionBegin, CoroutineBegin(None)], Goto(1)),
    Block([User(C1_S1), YieldMark], Goto(2)),
    Block([User(C1_S2), CoroutineEnd], Goto(3)),
    Block([CoroutineBegin(None)], Goto(4)),
    Block([User(C2_S1), CoroutineEnd], Goto(5)),
    Block([RegionEnd], Goto(6)),
    Block([User(POST)], Return)]

  const FIRST := Coroutine((0, 1), (2, 1), None)
  const SECOND := Coroutine((3, 0), (4, 1), None)
  const REGION := Region((0, 0), (5, 0), [FIRST, SECOND])

  /** The blocks of its two coroutines. */
  const PLAN: Plan := map[REGION := [{0, 1, 2}, {3, 4}]]

  // ── It is well formed ────────────────────────────────────────────────

  lemma FirstGrounded()
    ensures Grounded(TOY, REGION, FIRST, {0, 1, 2})
  {
    assert SitesIn(TOY, FIRST, {0, 1, 2}) == {(1, 1)};
  }

  lemma SecondGrounded()
    ensures Grounded(TOY, REGION, SECOND, {3, 4})
  {
    assert SitesIn(TOY, SECOND, {3, 4}) == {};
  }

  lemma ToyIsSound()
    ensures Sound(TOY, REGION, PLAN[REGION])
  {
    hide Grounded;
    FirstGrounded();
    SecondGrounded();
    assert REGION.coroutines == [FIRST, SECOND];
    assert PLAN[REGION][0] == {0, 1, 2} && PLAN[REGION][1] == {3, 4};
    ToyEntered();
    hide EnteredAtBegin;
  }

  lemma ToyEntered()
    ensures EnteredAtBegin(TOY, REGION, PLAN[REGION])
  {
    var grounds := PLAN[REGION];
    assert grounds[0] == {0, 1, 2} && grounds[1] == {3, 4} && |grounds| == 2;
    forall b: nat
      ensures OnGround(grounds, b) <==> b < 5
    {
      assert b in {0, 1, 2} ==> b in grounds[0];
      assert b in {3, 4} ==> b in grounds[1];
    }
    hide OnGround;
  }

  lemma ToyOutline()
    ensures Outlined(TOY, {REGION})
  {
    assert REGION.coroutines == [FIRST, SECOND];
    assert Marks(REGION, FIRST.begin) && Marks(REGION, FIRST.end) by {
      assert REGION.coroutines[0] == FIRST;
    }
    assert Marks(REGION, SECOND.begin) && Marks(REGION, SECOND.end) by {
      assert REGION.coroutines[1] == SECOND;
    }
    hide Marks;
    forall b: nat, i: nat | HasMarker(TOY, b, i)
      ensures Marks(REGION, (b, i))
    {
      assert (b, i) in {REGION.begin, FIRST.begin, FIRST.end, SECOND.begin, SECOND.end, REGION.end};
      BoundsMark(REGION);
    }
  }

  lemma BoundsMark(region: Region)
    ensures Marks(region, region.begin) && Marks(region, region.end)
  {
  }

  /** So the run over its regions may begin, however many locals there are. */
  lemma ToyIsNested(base: nat)
    ensures Nested(TOY, base, PLAN)
  {
    hide Sound, Outlined, Related;
    ToyIsSound();
    ToyOutline();
    assert PLAN.Keys == {REGION};
  }

  lemma ToyIsWellFormed(base: nat)
    ensures RegionOk(TOY, base, REGION) && IsOutside(TOY, REGION, 0)
  {
    hide Sound, Outlined, Related, Marked, InSequence;
    ToyIsNested(base);
    ToyIsMarked();
    ToyPlanned();
    SoundIsOk(TOY, base, REGION, PLAN[REGION]);
    hide RegionOk, OutsideSet;
    var code := CodeOutside(TOY, base, REGION, PLAN[REGION]);
    assert 0 in code;
  }

  lemma ToyPlanned()
    ensures REGION in PLAN && |PLAN[REGION]| == 2
  {
  }

  lemma ToyIsMarked()
    ensures Marked(TOY, REGION) && InSequence(REGION)
  {
    ToyOutline();
    hide Marked, InSequence;
  }

  // ── It is found ──────────────────────────────────────────────────────

  lemma ToyIsFound()
    ensures NextRegion(TOY) == Some(REGION)
  {
    ToyOutline();
    FindsExactly(TOY, {REGION});
    FirstIs(Scanned(TextOf(TOY)).regions);
    hide Outlined;
    assert Innermost({REGION}, REGION);
    assert REGION in Scanned(TextOf(TOY)).regions;
  }

  // ── It runs as expected ──────────────────────────────────────────────

  function Ended<U>(sem: Sem<U>, id: nat, w: World<U>): World<U> {
    World(sem.exec(id, w.u), w.trace + [Ran(id)])
  }

  lemma DoUser<U>(sem: Sem<U>, id: nat, s: Stmt, w: World<U>)
    requires s.CoroutineEnd? || s.YieldMark?
    ensures DoAll(sem, [User(id)], w) == Ended(sem, id, w)
    ensures DoAll(sem, [User(id), s], w) == Ended(sem, id, w)
  {
    assert [User(id)][1..] == [] && [User(id), s][1..] == [s] && [s][1..] == [];
    var w1 := Do(sem, User(id), w);
    assert DoAll(sem, [s], w1) == DoAll(sem, [], Do(sem, s, w1));
  }

  /** One more step of a run. */
  lemma Onward<U>(sem: Sem<U>, report: bool, r: Coop<U>, n: nat, r1: Coop<U>, r2: Coop<U>)
    requires CoopRun(sem, TOY, REGION, report, r, n) == r1 && CoopStep(sem, TOY, REGION, report, r1) == r2
    ensures CoopRun(sem, TOY, REGION, report, r, n + 1) == r2
    decreases n
  {
    hide CoopStep;
    if n > 0 {
      Onward(sem, report, CoopStep(sem, TOY, REGION, report, r), n - 1, r1, r2);
    }
  }

  /** Stretches of the two coroutines, up to the end of a block or to the yield. */
  lemma Stretches<U>(sem: Sem<U>, r: Coop<U>)
    requires |r.pos| == 2
    ensures RunFrom(sem, TOY, FIRST, r, 0, 0, 1) == r.(ctl := Inside(0, 1, 0))
    ensures RunFrom(sem, TOY, FIRST, r, 0, 1, 0)
         == r.(ctl := Polled(0, Yielded), pos := r.pos[0 := At(1, 2)], w := Ended(sem, C1_S1, r.w))
    ensures RunFrom(sem, TOY, FIRST, r, 0, 1, 2) == r.(ctl := Inside(0, 2, 0))
  {
    DoUser(sem, C1_S1, YieldMark, r.w);
    assert TOY[0].stmts[1..] == [CoroutineBegin(None)] && TOY[1].stmts[0..1] == [User(C1_S1)]
           && TOY[1].stmts[2..] == [];
    assert DoAll(sem, [CoroutineBegin(None)], r.w) == DoAll(sem, [], r.w);
  }

  lemma Endings<U>(sem: Sem<U>, r: Coop<U>)
    requires |r.pos| == 2
    ensures RunFrom(sem, TOY, FIRST, r, 0, 2, 0)
         == r.(ctl := Polled(0, Completed), pos := r.pos[0 := Done], w := Ended(sem, C1_S2, r.w))
    ensures RunFrom(sem, TOY, SECOND, r, 1, 3, 0) == r.(ctl := Inside(1, 4, 0))
    ensures RunFrom(sem, TOY, SECOND, r, 1, 4, 0)
         == r.(ctl := Polled(1, Completed), pos := r.pos[1 := Done], w := Ended(sem, C2_S1, r.w))
  {
    DoUser(sem, C1_S2, CoroutineEnd, r.w);
    DoUser(sem, C2_S1, CoroutineEnd, r.w);
    assert TOY[2].stmts[0..] == TOY[2].stmts && TOY[3].stmts[0..] == [CoroutineBegin(None)]
           && TOY[4].stmts[0..] == TOY[4].stmts;
    assert DoAll(sem, [CoroutineBegin(None)], r.w) == DoAll(sem, [], r.w);
  }

  lemma Around<U>(sem: Sem<U>, w: World<U>)
    ensures OutsideStep(sem, TOY, REGION, SourceStart(0, w), FIRST_TURN, 0)
         == Ref(Deciding, [At(0, 1), At(3, 0)], false, FIRST_TURN, w)
  {
    assert TOY[0].stmts[..1] == [RegionBegin];
    assert DoAll(sem, [RegionBegin], w) == DoAll(sem, [], w);
  }

  lemma Beyond<U>(sem: Sem<U>, r: Coop<U>)
    ensures OutsideStep(sem, TOY, REGION, r, FIRST_TURN, 5) == r.(ctl := Outside(6))
    ensures OutsideStep(sem, TOY, REGION, r, FIRST_TURN, 6) == r.(ctl := Halted(Return), w := Ended(sem, POST, r.w))
  {
    DoUser(sem, POST, YieldMark, r.w);
    assert DoAll(sem, [RegionEnd], r.w) == DoAll(sem, [], r.w);
  }

  /** The first pass: the first coroutine up to its yield, the second to its end. */
  lemma FirstPass<U>(sem: Sem<U>, report: bool, w: World<U>) returns (n: nat)
    ensures CoopRun(sem, TOY, REGION, report, SourceStart(0, w), n)
         == Ref(Deciding, [At(1, 2), Done], true, Turn(2, false), Ended(sem, C2_S1, Ended(sem, C1_S1, w)))
  {
    hide RunFrom, OutsideStep, CoopRun, Ended;
    var w1 := Ended(sem, C1_S1, w);
    var w2 := Ended(sem, C2_S1, w1);
    var start := SourceStart(0, w);
    Around(sem, w);
    var r0 := Ref(Deciding, [At(0, 1), At(3, 0)], false, FIRST_TURN, w);
    Stretches(sem, r0.(ctl := Inside(0, 0, 1)));
    Stretches(sem, r0.(ctl := Inside(0, 1, 0)));
    var r1 := Ref(Deciding, [At(1, 2), At(3, 0)], true, Turn(1, false), w1);
    Endings(sem, r1.(ctl := Inside(1, 3, 0)));
    Endings(sem, r1.(ctl := Inside(1, 4, 0)));
    var states := [start, r0, r0.(ctl := Polling(0)), r0.(ctl := Inside(0, 0, 1)), r0.(ctl := Inside(0, 1, 0)),
                   r0.(ctl := Polled(0, Yielded), pos := [At(1, 2), At(3, 0)], w := w1),
                   r1, r1.(ctl := Polling(1)), r1.(ctl := Inside(1, 3, 0)), r1.(ctl := Inside(1, 4, 0)),
                   r1.(ctl := Polled(1, Completed), pos := [At(1, 2), Done], w := w2),
                   Ref(Deciding, [At(1, 2), Done], true, Turn(2, false), w2)];
    n := Chained(sem, report, states);
  }

  /** The second pass: the first coroutine to its end, and out. */
  lemma SecondPass<U>(sem: Sem<U>, report: bool, w: World<U>) returns (n: nat)
    ensures CoopRun(sem, TOY, REGION, report, Ref(Deciding, [At(1, 2), Done], true, Turn(2, false), w), n)
         == Ref(Halted(Return), [Done, Done], true, Turn(2, true), Ended(sem, POST, Ended(sem, C1_S2, w)))
  {
    hide RunFrom, OutsideStep, CoopRun, Ended;
    var w1 := Ended(sem, C1_S2, w);
    var w2 := Ended(sem, POST, w1);
    var r0 := Ref(Polling(0), [At(1, 2), Done], false, FIRST_TURN, w);
    Stretches(sem, r0.(ctl := Inside(0, 1, 2)));
    Endings(sem, r0.(ctl := Inside(0, 2, 0)));
    var r1 := Ref(Deciding, [Done, Done], true, Turn(2, true), w1);
    Beyond(sem, r1.(ctl := Outside(5)));
    Beyond(sem, r1.(ctl := Outside(6)));
    var states :=
      [Ref(Deciding, [At(1, 2), Done], true, Turn(2, false), w),
       Ref(Deciding, [At(1, 2), Done], true, Turn(0, false), w),
                   r0, r0.(ctl := Inside(0, 1, 2)), r0.(ctl := Inside(0, 2, 0)),
                   r0.(ctl := Polled(0, Completed), pos := [Done, Done], w := w1),
                   r1.(sched := Turn(1, true)), r1, r1.(ctl := Outside(5)), r1.(ctl := Outside(6)),
                   r1.(ctl := Halted(Return), w := w2)];
    n := Chained(sem, report, states);
  }

  /** States each of which is the next step's outcome make a run. */
  lemma Chained<U>(sem: Sem<U>, report: bool, states: seq<Coop<U>>) returns (n: nat)
    requires |states| > 0 && forall i :: 0 <= i < |states| - 1 ==>
               CoopStep(sem, TOY, REGION, report, states[i]) == states[i + 1]
    ensures CoopRun(sem, TOY, REGION, report, states[0], n) == states[|states| - 1]
  {
    hide CoopStep;
    n := 0;
    while n < |states| - 1
      invariant n < |states| && CoopRun(sem, TOY, REGION, report, states[0], n) == states[n]
    {
      Onward(sem, report, states[0], n, states[n], states[n + 1]);
      n := n + 1;
    }
  }

  lemma {:induction false} CoopRunAdds<U>(sem: Sem<U>, report: bool, r: Coop<U>, m: nat, n: nat)
    ensures CoopRun(sem, TOY, REGION, report, r, m + n)
            == CoopRun(sem, TOY, REGION, report, CoopRun(sem, TOY, REGION, report, r, m), n)
    decreases m
  {
    hide CoopStep;
    if m > 0 {
      CoopRunAdds(sem, report, CoopStep(sem, TOY, REGION, report, r), m - 1, n);
    }
  }

  /** The statements run in the order the markers ask for, each once, and the program returns. */
  lemma ToyOrder<U>(sem: Sem<U>, report: bool, w: World<U>) returns (n: nat)
    ensures var r := CoopRun(sem, TOY, REGION, report, SourceStart(0, w), n);
            r.ctl == Halted(Return) && r.w.trace == w.trace + [Ran(C1_S1), Ran(C2_S1), Ran(C1_S2), Ran(POST)]
  {
    hide CoopRun;
    var m := FirstPass(sem, report, w);
    var k := SecondPass(sem, report, Ended(sem, C2_S1, Ended(sem, C1_S1, w)));
    CoopRunAdds(sem, report, SourceStart(0, w), m, k);
    n := m + k;
  }

  /** And so they do in whatever the transform makes of it. */
  lemma ToyOutputOrder<U>(sem: Sem<U>, out: Blocks, ms: seq<Machine>, report: bool, lifted: BlockId, lay: Loop,
                          w: World<U>, sys: map<LocalId, int>)
    requires CoopShape(TOY, out, sem.base, REGION, report, ms, lifted, lay)
    ensures exists m :: var c := Run(sem, out, Entering(0, Store(w, sys)), m);
              c.Stopped? && c.term == Return && c.st.w.trace == w.trace
                + [Ran(C1_S1), Ran(C2_S1), Ran(C1_S2), Ran(POST)]
  {
    hide CoopShape, Run, CoopRun;
    ToyIsWellFormed(sem.base);
    var n := ToyOrder(sem, report, w);
    EveryStepIsMatched(sem, TOY, out, REGION, ms, report, lifted, lay, 0, w, sys, n);
  }

  ghost predicate IsToyOutput(out: Blocks, report: bool) {
    exists ms, lifted, lay :: CoopShape(TOY, out, 0, REGION, report, ms, lifted, lay)
  }

  /** The run over its regions takes one round, to a body that the theorem above speaks of. */
  method TransformToy(report: bool) returns (body: Body<Stmt>)
    ensures NextRegion(body.blocks).None?
    ensures IsToyOutput(body.blocks, report)
  {
    hide CoopShape, Welcome, Chain, NextRegion, Nested, Stays;
    body := new Body(TOY, 0);
    ToyIsNested(0);
    var stages, rest := RunWith(body, Looping(report), PLAN);
    OneRound(stages, rest, report);
  }

  lemma OneRound(stages: seq<Stage>, rest: Plan, report: bool)
    requires Chain(stages, Looping(report)) && stages[0] == (TOY, 0) && |stages| - 1 == |PLAN| - |rest|
    requires forall s :: s in rest <==> s in PLAN && Stays(PLAN.Keys, s)
    ensures IsToyOutput(stages[|stages| - 1].0, report)
  {
    ToyIsFound();
    assert PLAN.Keys == {REGION} && |REGION.coroutines| == 2;
    assert rest.Keys == {};
    assert |rest| == 0 && |PLAN| == 1;
    hide CoopShape, Welcome, NextRegion;
    assert IsRound(stages[0], stages[1], Looping(report));
    assert REGION.coroutines == [FIRST, SECOND];
    assert !HasPriorities(REGION);
  }
}
