/** Three regions, one of them inside another.

The run lowers the inner region first, then the outer one and the one beside it, and
leaves no marker.
*/
module NestedToy {
  import opened Options
  import opened Cfg
  import opened Coroutines
  import opened Regions
  import opened Footprint
  import opened Discovery
  import opened Outline
  import opened Nesting
  import opened Rounds

  /** The outer region's first coroutine holds the inner region. */
  const NEST: Blocks := [
    Block([RegionBegin, CoroutineBegin(None)], Goto(1)),
    Block([RegionBegin, CoroutineBegin(Some(1))], Goto(2)),
    Block([User(1), YieldMark], Goto(3)),
    Block([CoroutineEnd], Goto(4)),
    Block([RegionEnd], Goto(5)),
    Block([User(2), CoroutineEnd], Goto(6)),
    Block([CoroutineBegin(None), CoroutineEnd], Goto(7)),
    Block([RegionEnd], Goto(8)),
    Block([RegionBegin, CoroutineBegin(None), CoroutineEnd], Goto(9)),
    Block([RegionEnd], Goto(10)),
    Block([User(3)], Return)]

  const INNER := Region((1, 0), (4, 0), [Coroutine((1, 1), (3, 0), Some(1))])
  const OUTER := Region((0, 0), (7, 0), [Coroutine((0, 1), (5, 1), None), Coroutine((6, 0), (6, 1), None)])
  const BESIDE := Region((8, 0), (9, 0), [Coroutine((8, 1), (8, 2), None)])

  const INNER_GROUNDS: seq<set<BlockId>> := [{1, 2, 3}]
  const OUTER_GROUNDS: seq<set<BlockId>> := [{0, 1, 2, 3, 4, 5}, {6}]
  const BESIDE_GROUNDS: seq<set<BlockId>> := [{8}]

  const PLAN: Plan := map[INNER := INNER_GROUNDS, OUTER := OUTER_GROUNDS, BESIDE := BESIDE_GROUNDS]

  // ── Each region by itself ────────────────────────────────────────────

  lemma OneSuspension(s: Site)
    requires s.0 < |NEST| && s.1 < |NEST[s.0].stmts| && Suspends(NEST[s.0].stmts[s.1])
    ensures s == (2, 1)
  {
  }

  lemma FewSuspensions(co: Coroutine, ground: set<BlockId>)
    ensures |SitesIn(NEST, co, ground)| <= 1 && OneSiteEach(NEST, co, ground)
  {
    var sites := SitesIn(NEST, co, ground);
    forall s | s in sites
      ensures s == (2, 1)
    {
      OneSuspension(s);
    }
    assert sites == {} || sites == {(2, 1)};
    forall b, i, k | b in ground && b < |NEST| && 0 <= i < |NEST[b].stmts| && 0 <= k < |NEST[b].stmts|
                     && Suspends(NEST[b].stmts[i]) && Suspends(NEST[b].stmts[k])
      ensures i == k
    {
      OneSuspension((b, i));
      OneSuspension((b, k));
    }
  }

  lemma InnerGrounded()
    ensures Grounded(NEST, INNER, INNER.coroutines[0], {1, 2, 3})
  {
    hide SitesIn, OneSiteEach;
    FewSuspensions(INNER.coroutines[0], {1, 2, 3});
  }

  lemma OuterGrounded()
    ensures Grounded(NEST, OUTER, OUTER.coroutines[0], {0, 1, 2, 3, 4, 5})
  {
    hide SitesIn, OneSiteEach;
    FewSuspensions(OUTER.coroutines[0], {0, 1, 2, 3, 4, 5});
  }

  lemma SecondGrounded()
    ensures Grounded(NEST, OUTER, OUTER.coroutines[1], {6})
  {
    hide SitesIn, OneSiteEach;
    FewSuspensions(OUTER.coroutines[1], {6});
  }

  lemma BesideGrounded()
    ensures Grounded(NEST, BESIDE, BESIDE.coroutines[0], {8})
  {
    hide SitesIn, OneSiteEach;
    FewSuspensions(BESIDE.coroutines[0], {8});
  }

  lemma GroundsAre()
    ensures forall b: nat :: OnGround(INNER_GROUNDS, b) <==> b in {1, 2, 3}
    ensures forall b: nat :: OnGround(OUTER_GROUNDS, b) <==> b <= 6
    ensures forall b: nat :: OnGround(BESIDE_GROUNDS, b) <==> b == 8
  {
    forall b: nat
      ensures OnGround(INNER_GROUNDS, b) <==> b in {1, 2, 3}
      ensures OnGround(OUTER_GROUNDS, b) <==> b <= 6
      ensures OnGround(BESIDE_GROUNDS, b) <==> b == 8
    {
      assert b in {1, 2, 3} ==> b in INNER_GROUNDS[0];
      assert b <= 5 ==> b in OUTER_GROUNDS[0];
      assert b == 6 ==> b in OUTER_GROUNDS[1];
      assert b == 8 ==> b in BESIDE_GROUNDS[0];
    }
  }

  /** Only from its predecessor is a block entered. */
  lemma StraightOn(b: nat, next: BlockId)
    requires b < |NEST| && next in Successors(NEST[b].term)
    ensures next == b + 1
  {
  }

  lemma Entered()
    ensures EnteredAtBegin(NEST, INNER, INNER_GROUNDS)
    ensures EnteredAtBegin(NEST, OUTER, OUTER_GROUNDS)
    ensures EnteredAtBegin(NEST, BESIDE, BESIDE_GROUNDS)
  {
    GroundsAre();
    hide OnGround;
    forall b: nat, next | b < |NEST| && next in Successors(NEST[b].term)
      ensures next == b + 1
    {
      StraightOn(b, next);
    }
  }

  lemma AllSound()
    ensures Sound(NEST, INNER, INNER_GROUNDS) && Sound(NEST, OUTER, OUTER_GROUNDS)
            && Sound(NEST, BESIDE, BESIDE_GROUNDS)
  {
    hide Grounded, EnteredAtBegin;
    InnerGrounded();
    OuterGrounded();
    SecondGrounded();
    BesideGrounded();
    Entered();
    assert OUTER_GROUNDS[0] !! OUTER_GROUNDS[1];
  }

  // ── Side by side and one inside another ──────────────────────────────

  lemma HowTheyLie()
    ensures InsidePart(INNER, OUTER, 0) && InsideOf(INNER, OUTER) && !InsidePart(INNER, OUTER, 1)
    ensures !InsideOf(OUTER, INNER) && !Apart(INNER, OUTER) && !Apart(OUTER, INNER)
    ensures Apart(INNER, BESIDE) && Apart(OUTER, BESIDE) && Apart(BESIDE, INNER) && Apart(BESIDE, OUTER)
    ensures !InsideOf(INNER, BESIDE) && !InsideOf(OUTER, BESIDE) && !InsideOf(BESIDE, INNER) && !InsideOf(BESIDE, OUTER)
  {
    assert InsidePart(INNER, OUTER, 0);
  }

  lemma MarksAre()
    ensures forall at: Site :: Marks(INNER, at) <==> at in {(1, 0), (1, 1), (3, 0), (4, 0)}
    ensures forall at: Site :: Marks(OUTER, at) <==> at in {(0, 0), (0, 1), (5, 1), (6, 0), (6, 1), (7, 0)}
    ensures forall at: Site :: Marks(BESIDE, at) <==> at in {(8, 0), (8, 1), (8, 2), (9, 0)}
  {
    forall at: Site
      ensures Marks(INNER, at) <==> at in {(1, 0), (1, 1), (3, 0), (4, 0)}
      ensures Marks(OUTER, at) <==> at in {(0, 0), (0, 1), (5, 1), (6, 0), (6, 1), (7, 0)}
      ensures Marks(BESIDE, at) <==> at in {(8, 0), (8, 1), (8, 2), (9, 0)}
    {
      assert at == INNER.coroutines[0].begin || at == INNER.coroutines[0].end ==> Marks(INNER, at);
      assert at == OUTER.coroutines[0].begin || at == OUTER.coroutines[0].end ==> Marks(OUTER, at);
      assert at == OUTER.coroutines[1].begin || at == OUTER.coroutines[1].end ==> Marks(OUTER, at);
      assert at == BESIDE.coroutines[0].begin || at == BESIDE.coroutines[0].end ==> Marks(BESIDE, at);
    }
  }

  lemma InnerAndOuter()
    ensures Related(INNER, INNER_GROUNDS, OUTER, OUTER_GROUNDS) && Related(OUTER, OUTER_GROUNDS, INNER, INNER_GROUNDS)
  {
    GroundsAre();
    HowTheyLie();
    MarksAre();
    hide OnGround, Marks, InsideOf, Apart;
  }

  lemma OthersAndBeside()
    ensures Related(INNER, INNER_GROUNDS, BESIDE, BESIDE_GROUNDS)
            && Related(BESIDE, BESIDE_GROUNDS, INNER, INNER_GROUNDS)
    ensures Related(OUTER, OUTER_GROUNDS, BESIDE, BESIDE_GROUNDS)
            && Related(BESIDE, BESIDE_GROUNDS, OUTER, OUTER_GROUNDS)
  {
    GroundsAre();
    HowTheyLie();
    MarksAre();
    hide OnGround, Marks, InsideOf, Apart;
  }

  lemma MarkersAre(b: nat, i: nat)
    requires HasMarker(NEST, b, i)
    ensures || (b, i) in {(1, 0), (1, 1), (3, 0), (4, 0)}
            || (b, i) in {(0, 0), (0, 1), (5, 1), (6, 0), (6, 1), (7, 0)}
            || (b, i) in {(8, 0), (8, 1), (8, 2), (9, 0)}
  {
  }

  lemma InnerIsMarked()
    ensures Marked(NEST, INNER) && InSequence(INNER)
  {
  }

  lemma OuterIsMarked()
    ensures Marked(NEST, OUTER) && InSequence(OUTER)
  {
  }

  lemma BesideIsMarked()
    ensures Marked(NEST, BESIDE) && InSequence(BESIDE)
  {
  }

  lemma NestOutline()
    ensures Outlined(NEST, {INNER, OUTER, BESIDE})
  {
    hide Marked, InSequence, Marks, InsideOf, InsidePart, Apart;
    HowTheyLie();
    InnerIsMarked();
    OuterIsMarked();
    BesideIsMarked();
    forall b: nat, i: nat | HasMarker(NEST, b, i)
      ensures exists s :: s in {INNER, OUTER, BESIDE} && Marks(s, (b, i))
    {
      MarksAre();
      MarkersAre(b, i);
      assert Marks(INNER, (b, i)) || Marks(OUTER, (b, i)) || Marks(BESIDE, (b, i));
    }
  }

  lemma NestIsNested(base: nat)
    ensures Nested(NEST, base, PLAN)
  {
    hide Sound, Outlined, Related;
    AllSound();
    InnerAndOuter();
    OthersAndBeside();
    NestOutline();
    NestIsUsers(base);
    hide SourceOk;
    assert PLAN.Keys == {INNER, OUTER, BESIDE};
  }

  lemma NestIsUsers(base: nat)
    ensures SourceOk(NEST, base)
  {
    forall b: nat, next | b < |NEST| && next in Successors(NEST[b].term)
      ensures next < |NEST|
    {
      StraightOn(b, next);
    }
  }

  /** Three rounds, and nothing is left, whatever the executor. */
  method TransformNest(how: Strategy) returns (body: Body<Stmt>, ghost rounds: nat)
    ensures rounds == 3 && NextRegion(body.blocks).None? && forall b, i :: !HasMarker(body.blocks, b, i)
  {
    hide Nested, Stays, NextRegion, HasMarker, Chain;
    body := new Body(NEST, 0);
    NestIsNested(0);
    var stages, rest := RunWith(body, how, PLAN);
    NothingStays(rest);
    rounds := |stages| - 1;
  }

  lemma NothingStays(rest: Plan)
    requires forall s :: s in rest <==> s in PLAN && Stays(PLAN.Keys, s)
    ensures |rest| == 0 && |PLAN| == 3 && forall s :: s in PLAN ==> |s.coroutines| > 0
  {
    hide Stays;
    PlannedRegions();
    NoneStays(PLAN.Keys);
    assert rest.Keys == {};
  }

  lemma NoneStays(regions: set<Region>)
    requires forall s :: s in regions ==> |s.coroutines| > 0
    ensures forall s :: !Stays(regions, s)
  {
    hide InsideOf;
  }

  lemma PlannedRegions()
    ensures |PLAN| == 3 && forall s :: s in PLAN ==> |s.coroutines| > 0
  {
    assert PLAN.Keys == {INNER, OUTER, BESIDE} && |PLAN| == |PLAN.Keys|;
    assert |INNER.coroutines| > 0 && |OUTER.coroutines| > 0 && |BESIDE.coroutines| > 0;
    ThreeRegions();
  }

  lemma ThreeRegions()
    ensures |{INNER, OUTER, BESIDE}| == 3
  {
    assert INNER.begin != OUTER.begin && INNER.begin != BESIDE.begin && OUTER.begin != BESIDE.begin;
    assert |{INNER, OUTER}| == 2 && BESIDE !in {INNER, OUTER};
    assert {INNER, OUTER, BESIDE} == {INNER, OUTER} + {BESIDE};
  }
}
