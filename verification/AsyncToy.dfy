/** A value kept across a yield.

With the value on the host's list the theorems apply to the function, and without it they fail.
*/
module AsyncToy {
  import opened Options
  import opened Cfg
  import opened AsyncIr
  import opened AsyncSplit
  import opened AsyncLayout
  import opened AsyncRuns
  import opened AsyncSim

  /** Computes local 0, yields, computes local 1 from local 0, and returns local 1. */
  const TOY: Blocks := [Block([Plain(1, [], Some(0)), Yield(None), Plain(2, [0], Some(1))], Return)]
  const RET: LocalId := 1

  const SPLIT: Blocks :=
    [Block([Plain(1, [], Some(0)), Yield(None)], Unreachable), Block([Plain(2, [0], Some(1))], Return)]
  const SITES: seq<AsyncIr.Site> := [(0, 1)]
  const CUTS: seq<Cut> := [Cut(0, 1, 0, 0, 1, 1)]

  /** What the transform makes of it, given the locals said to be live across the yield. */
  function Made(live: seq<LocalId>, slots: Slots, saved: Rows, loaded: Rows): Lowering {
    Lowering(TOY, SPLIT, RET, [((0, 1), live)], 0, Layout([0, 1], [(0, 1)], saved, loaded, [(0, DirectYield)]), SITES,
             CUTS, slots, live)
  }

  function Told(): Lowering {
    Made([0], map[0 := 0], [(0, [(0, 0)])], [(1, [(0, 0)])])
  }

  function Untold(): Lowering {
    Made([], map[], [], [])
  }

  lemma SplitHolds()
    ensures Split(TOY, SPLIT, CUTS) && CutsAre(CUTS, SITES) && AllSites(TOY, SITES)
    ensures StatesOf(TOY, CUTS, States([0, 1], [(0, 1)], [(0, DirectYield)]))
  {
    hide Split, StatesOf, AllSites;
    OneSite();
    OneCut();
    OneState();
  }

  lemma OneCut()
    ensures Split(TOY, SPLIT, CUTS)
  {
    assert TOY[0].stmts[0..2] == SPLIT[0].stmts && TOY[0].stmts[2..] == SPLIT[1].stmts;
    assert CutOk(TOY, SPLIT, CUTS, 0);
  }

  lemma OneState()
    ensures StatesOf(TOY, CUTS, States([0, 1], [(0, 1)], [(0, DirectYield)]))
  {
    assert CUTS[..0] == [];
    assert Kinds(TOY, CUTS) == Kinds(TOY, []) + RowsOf(TOY, CUTS[0]);
  }

  lemma OneSite()
    ensures AllSites(TOY, SITES)
  {
  }

  lemma ToldIsLifted()
    ensures Lifted(SITES, [0], [1], [((0, 1), [0])], [(0, [(0, 0)])], [(1, [(0, 0)])], map[0 := 0], [0], 1)
    ensures SlotsFrom(map[0 := 0], [0], 0)
  {
    var live: Liveness := [((0, 1), [0])];
    assert Lookup(live, SITES[0]) == [0] && HaveSlots(map[0 := 0], [0]);
    assert Entries(map[0 := 0], [0]) == [(0, 0)];
    assert RowsFor(SITES, live, map[0 := 0], [0], 0) == [] && RowsFor(SITES, live, map[0 := 0], [1], 0) == [];
    assert [] + [(0, [(0, 0)])] == [(0, [(0, 0)])] && [] + [(1, [(0, 0)])] == [(1, [(0, 0)])];
  }

  lemma UntoldIsLifted()
    ensures Lifted(SITES, [0], [1], [((0, 1), [])], [], [], map[], [], 1)
    ensures SlotsFrom(map[], [], 0)
  {
    var live: Liveness := [((0, 1), [])];
    assert Lookup(live, SITES[0]) == [];
    assert RowsFor(SITES, live, map[], [0], 0) == [] && RowsFor(SITES, live, map[], [1], 0) == [];
  }

  lemma BothAreLowered()
    ensures IsLowered(Told()) && Fits(Told()) && IsLowered(Untold()) && Fits(Untold())
  {
    SplitHolds();
    ToldIsLifted();
    UntoldIsLifted();
    hide Split, StatesOf, AllSites, CutsAre, Lifted, SlotsFrom;
    assert Homes(CUTS) == [0] && Resumes(CUTS) == [1];
  }

  /** Only local 0 is read behind the yield. */
  lemma OnlyFirstSurvives(v: LocalId)
    ensures Survives(TOY, RET, 0, 1, v) <==> v == 0
  {
    assert ReadLater(TOY, RET, 0, 3, v) ==> v == RET;
    assert ReadLater(TOY, RET, 0, 2, v) <==> v == 0;
  }

  /** So with local 0 listed the function is ready, and without it is not. */
  lemma ReadyIffTold()
    ensures Ready(Told()) && IsLowered(Untold()) && Fits(Untold()) && !CoversLive(Untold())
  {
    hide IsLowered, Survives;
    BothAreLowered();
    forall v: LocalId
      ensures Survives(TOY, RET, 0, 1, v) <==> v == 0
    {
      OnlyFirstSurvives(v);
    }
    assert Lookup([((0, 1), [0])], SITES[0]) == [0] && Lookup([((0, 1), [])], SITES[0]) == [];
    assert SITES[0] == (0, 1) && InRange(TOY, SITES[0]);
    assert InRange(TOY, SITES[0]) && Survives(TOY, RET, SITES[0].0, SITES[0].1, 0);
    assert forall b :: 0 <= b < |TOY| ==> Successors(TOY[b].term) == [];
  }

  // ── What a missing local does ────────────────────────────────────────

  /** Statement 1 yields 5, statement 2 what it is given. */
  const CODE: Sem<(), ()> := Sem(
    (id, args, u) => (if id == 1 then 5 else if |args| > 0 then args[0] else 0, u),
    u => u, (callee, receiver, args) => (), (child, u) => Done(0, u))

  /** The original returns 5. */
  lemma OriginalReturnsFive(w: World<()>)
    ensures exists w' :: Steps(CODE, TOY, RET, At(0, 0, map[], w), 4) == Returned(5, w')
  {
    var r1 := Step(CODE, TOY, RET, At(0, 0, map[], w));
    var r2 := Step(CODE, TOY, RET, r1);
    var r3 := Step(CODE, TOY, RET, r2);
    var r4 := Step(CODE, TOY, RET, r3);
    assert Steps(CODE, TOY, RET, At(0, 0, map[], w), 4) == Steps(CODE, TOY, RET, r1, 3) == Steps(CODE, TOY, RET, r2, 2)
        == Steps(CODE, TOY, RET, r3, 1) == Steps(CODE, TOY, RET, r4, 0);
  }

  /** Without local 0 on the list the lowered function returns what its second poll happens to find. */
  lemma UntoldReturnsJunk(junk: nat -> Env, w: World<()>)
    ensures exists w' ::
              LowSteps(CODE, SPLIT, Untold().layout, RET, junk, LowStart(Untold().layout, map[], map[], w), 5)
                == Over(Get(junk(1), 0), w')
  {
    var l := Untold().layout;
    var c0: Conf<(), ()> := LowStart(l, map[], map[], w);
    var c1 := LowStep(CODE, SPLIT, l, RET, junk, c0);
    var c2 := LowStep(CODE, SPLIT, l, RET, junk, c1);
    var c3 := LowStep(CODE, SPLIT, l, RET, junk, c2);
    var c4 := LowStep(CODE, SPLIT, l, RET, junk, c3);
    var c5 := LowStep(CODE, SPLIT, l, RET, junk, c4);
    assert LowSteps(CODE, SPLIT, l, RET, junk, c0, 5) == LowSteps(CODE, SPLIT, l, RET, junk, c1, 4)
        == LowSteps(CODE, SPLIT, l, RET, junk, c2, 3) == LowSteps(CODE, SPLIT, l, RET, junk, c3, 2)
        == LowSteps(CODE, SPLIT, l, RET, junk, c4, 1) == LowSteps(CODE, SPLIT, l, RET, junk, c5, 0);
  }
}
