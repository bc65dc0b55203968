/** Bodies with many regions. */
module Nesting {
  // The contract is one on the body alone. Its markers are those of a set of regions in order, and
  // each coroutine has its ground: blocks that it cannot leave but through its end. Grounds of
  // different regions are disjoint or lie within the ground of one coroutine. Lowering an innermost
  // region keeps the contract for the others: the new blocks join the grounds that the region's own
  // lay in, and nothing else that the contract speaks of has moved.

  import opened Cfg
  import opened Coroutines
  import opened Regions
  import opened Footprint
  import opened Discovery
  import opened Outline
  import opened Lowering
  import opened Emission
  import opened Leavings
  import opened Transform

  // ── The contract ─────────────────────────────────────────────────────

  /** The suspensions of a coroutine, among the blocks of its ground. */
  ghost function SitesIn(blocks: Blocks, co: Coroutine, ground: set<BlockId>): set<Site> {
    set b, i | b in ground && 0 <= b < |blocks| && 0 <= i < |blocks[b].stmts|
               && StartOf(co, b) <= i && Suspends(blocks[b].stmts[i]) :: (b, i)
  }

  /** A coroutine's markers are placed as the builder places them. */
  predicate WellPlaced(blocks: Blocks, region: Region, co: Coroutine) {
    && co.begin.0 < |blocks| && co.begin.1 < |blocks[co.begin.0].stmts| && co.end.0 < |blocks|
    && (if co.begin.0 == region.begin.0 then co.begin.1 == region.begin.1 + 1 else co.begin.1 == 0)
    && co.end.1 + 1 == |blocks[co.end.0].stmts| && co.end.1 >= StartOf(co, co.end.0)
    && (forall i :: StartOf(co, co.end.0) <= i < |blocks[co.end.0].stmts| ==> !Suspends(blocks[co.end.0].stmts[i]))
  }

  /** No way leads from the ground but through the end block, and none back to the region's begin. */
  ghost predicate Closed(blocks: Blocks, region: Region, co: Coroutine, ground: set<BlockId>) {
    forall b :: b in ground ==>
      && b < |blocks|
      && (b != co.end.0 ==> forall next :: next in Successors(blocks[b].term) ==>
            next in ground && next != region.begin.0)
  }

  ghost predicate OneSiteEach(blocks: Blocks, co: Coroutine, ground: set<BlockId>) {
    forall b :: b in ground && b < |blocks| ==> AtMostOneSite(blocks[b].stmts, StartOf(co, b))
  }

  ghost predicate Grounded(blocks: Blocks, region: Region, co: Coroutine, ground: set<BlockId>) {
    && WellPlaced(blocks, region, co)
    && co.begin.0 in ground && co.end.0 in ground && region.end.0 !in ground
    && (region.begin.0 in ground ==> region.begin.0 == co.begin.0)
    && Closed(blocks, region, co, ground) && OneSiteEach(blocks, co, ground)
    && |SitesIn(blocks, co, ground)| < DONE_STATE
  }

  ghost predicate OnGround(grounds: seq<set<BlockId>>, b: BlockId) {
    exists j :: 0 <= j < |grounds| && b in grounds[j]
  }

  /** Code that is not a coroutine's enters the region through its first block only. */
  ghost predicate EnteredAtBegin(blocks: Blocks, region: Region, grounds: seq<set<BlockId>>) {
    forall b, next ::
        0 <= b < |blocks| && !OnGround(grounds, b) && b != region.begin.0 && next in Successors(blocks[b].term) ==>
      next == region.begin.0 || (!OnGround(grounds, next) && next != region.end.0)
  }

  /** A region that can be lowered once what is inside it has been. */
  ghost predicate Sound(blocks: Blocks, region: Region, grounds: seq<set<BlockId>>) {
    && |region.coroutines| == |grounds|
    && (|grounds| > 0 ==>
          && region.begin.0 < |blocks| && region.end.0 < |blocks| && blocks[region.end.0].stmts == [RegionEnd]
          && (forall j :: 0 <= j < |grounds| ==> Grounded(blocks, region, region.coroutines[j], grounds[j]))
          && (forall i, j :: 0 <= i < |grounds| && 0 <= j < |grounds| && i != j ==> grounds[i] !! grounds[j])
          && (forall j :: 0 < j < |grounds| ==> region.coroutines[j].begin.0 != region.begin.0)
          && EnteredAtBegin(blocks, region, grounds))
  }

  /** The regions of a body, and the grounds of their coroutines. */
  type Plan = map<Region, seq<set<BlockId>>>

  /** A block of the region. */
  ghost predicate Covers(region: Region, grounds: seq<set<BlockId>>, b: BlockId) {
    b == region.begin.0 || b == region.end.0 || OnGround(grounds, b)
  }

  /** No marker of `s` stands in `u`'s blocks, but before `u` begins. */
  ghost predicate KeepsClear(s: Region, u: Region, grounds: seq<set<BlockId>>) {
    forall at: Site :: Marks(s, at) ==> !Covers(u, grounds, at.0) || BeforeRegion(u, at.0, at.1)
  }

  ghost predicate BlocksApart(s: Region, sg: seq<set<BlockId>>, u: Region, ug: seq<set<BlockId>>) {
    forall b :: !(Covers(s, sg, b) && Covers(u, ug, b))
  }

  /** The blocks of `s` are ground of coroutine `j` of `u`. */
  ghost predicate BlocksWithin(s: Region, sg: seq<set<BlockId>>, u: Region, ug: seq<set<BlockId>>, j: nat) {
    j < |ug| && j < |u.coroutines| && forall b :: Covers(s, sg, b) ==> b in ug[j] && b != u.coroutines[j].end.0
  }

  /** Two regions lie in the blocks as they lie in the text. A region without coroutines has no
      blocks of its own; it only keeps its markers. */
  ghost predicate Related(s: Region, sg: seq<set<BlockId>>, u: Region, ug: seq<set<BlockId>>) {
    && (|sg| > 0 && |ug| > 0 && Apart(s, u) ==> BlocksApart(s, sg, u, ug))
    && (|sg| > 0 && |ug| > 0 ==> forall j :: 0 <= j < |u.coroutines| && InsidePart(s, u, j) ==>
          BlocksWithin(s, sg, u, ug, j))
    && (|ug| > 0 && !InsideOf(s, u) ==> KeepsClear(s, u, ug))
  }

  /** A body that `Rounds.RunWith` may be given. */
  ghost predicate Nested(blocks: Blocks, base: nat, plan: Plan) {
    && SourceOk(blocks, base) && Outlined(blocks, plan.Keys)
    && (forall s :: s in plan ==> Sound(blocks, s, plan[s]))
    && (forall s, u :: s in plan && u in plan && s != u ==> Related(s, plan[s], u, plan[u]))
  }

  // ── A sound region can be lowered ────────────────────────────────────

  lemma {:induction false} PathOnGround(blocks: Blocks, region: Region, co: Coroutine, ground: set<BlockId>,
                                        path: seq<BlockId>)
    requires Closed(blocks, region, co, ground) && co.begin.0 in ground
    requires IsPath(blocks, co.end.0, path) && path[0] == co.begin.0
    ensures path[|path| - 1] in ground
    decreases |path|
  {
    if |path| > 1 {
      var before := path[..|path| - 1];
      assert IsPath(blocks, co.end.0, before);
      PathOnGround(blocks, region, co, ground, before);
      var b := path[|path| - 2];
      assert b == before[|before| - 1] && path[|path| - 2 + 1] in Successors(blocks[b].term);
    }
  }

  lemma BodyOnGround(blocks: Blocks, region: Region, co: Coroutine, ground: set<BlockId>)
    requires Grounded(blocks, region, co, ground)
    ensures BodyOf(blocks, co) <= ground
  {
    forall b | b in BodyOf(blocks, co)
      ensures b in ground
    {
      if b != co.end.0 {
        var path :| IsPath(blocks, co.end.0, path) && path[0] == co.begin.0 && path[|path| - 1] == b;
        PathOnGround(blocks, region, co, ground, path);
      }
    }
  }

  lemma GroundedIsOk(blocks: Blocks, region: Region, co: Coroutine, ground: set<BlockId>)
    requires Grounded(blocks, region, co, ground)
    requires HasStatement(blocks, co.begin, CoroutineBegin(co.priority)) && HasStatement(blocks, co.end, CoroutineEnd)
    ensures CoroutineOk(blocks, region, co)
  {
    BodyOnGround(blocks, region, co, ground);
    hide BodyOf, SitesIn, AtMostOneSite;
  }

  /** Distinct members of a finite set are no more than it has. */
  lemma {:induction false} DistinctFit(sites: seq<Site>, all: set<Site>)
    requires forall i :: 0 <= i < |sites| ==> sites[i] in all
    requires forall i, j :: 0 <= i < j < |sites| ==> sites[i] != sites[j]
    ensures |sites| <= |all|
  {
    if |sites| > 0 {
      var last := sites[|sites| - 1];
      DistinctFit(sites[..|sites| - 1], all - {last});
    }
  }

  lemma FewOnGround(blocks: Blocks, region: Region, co: Coroutine, ground: set<BlockId>, sites: seq<Site>)
    requires Grounded(blocks, region, co, ground) && CoroutineOk(blocks, region, co) && AllSites(blocks, co, sites)
    ensures |sites| < DONE_STATE
  {
    BodyOnGround(blocks, region, co, ground);
    var all := SitesIn(blocks, co, ground);
    hide BodyOf, CoroutineOk, Closed, OneSiteEach, IsSite;
    forall i | 0 <= i < |sites|
      ensures sites[i] in all
    {
      assert sites[i] in sites;
      SiteFacts(blocks, region, co, sites[i]);
    }
    hide SitesIn;
    DistinctFit(sites, all);
  }

  lemma BodyCovered(blocks: Blocks, region: Region, grounds: seq<set<BlockId>>, b: BlockId)
    requires Sound(blocks, region, grounds) && InSomeBody(blocks, region, b)
    ensures OnGround(grounds, b)
  {
    hide BodyOf, EnteredAtBegin, Grounded;
    var j :| 0 <= j < |region.coroutines| && b in BodyOf(blocks, region.coroutines[j]);
    BodyOnGround(blocks, region, region.coroutines[j], grounds[j]);
    assert b in grounds[j];
  }

  lemma TouchedIsCovered(blocks: Blocks, region: Region, grounds: seq<set<BlockId>>, b: BlockId)
    requires Sound(blocks, region, grounds) && Touched(blocks, region, b)
    ensures Covers(region, grounds, b)
  {
    hide Sound, InSomeBody, OnGround;
    if InSomeBody(blocks, region, b) {
      BodyCovered(blocks, region, grounds, b);
    }
  }

  lemma CodeOutside(blocks: Blocks, base: nat, region: Region, grounds: seq<set<BlockId>>) returns (code: set<BlockId>)
    requires SourceOk(blocks, base) && Sound(blocks, region, grounds) && |grounds| > 0 && region.begin.0 != region.end.0
    ensures OutsideSet(blocks, region, code)
    ensures forall b: nat ::
              b in code <==> b == region.begin.0 || (b < |blocks| && !OnGround(grounds, b) && b != region.end.0)
  {
    SourceInRange(blocks, base);
    hide SourceOk, InSomeBody, OnGround, Grounded;
    var all := AllBlocks(|blocks|);
    code := set b | b in all && (b == region.begin.0 || (!OnGround(grounds, b) && b != region.end.0));
    forall b | b in code
      ensures NotInside(blocks, region, b)
      ensures b != region.begin.0 ==> forall next :: next in Successors(blocks[b].term) ==> next in code
    {
      if InSomeBody(blocks, region, b) {
        BodyCovered(blocks, region, grounds, b);
      }
      forall next | b != region.begin.0 && next in Successors(blocks[b].term)
        ensures next in code
      {
        assert next < |blocks|;
        assert next == region.begin.0 || (!OnGround(grounds, next) && next != region.end.0);
      }
    }
  }

  lemma SoundStaysOutside(blocks: Blocks, base: nat, region: Region, grounds: seq<set<BlockId>>)
    requires SourceOk(blocks, base) && Sound(blocks, region, grounds) && |grounds| > 0 && region.begin.0 != region.end.0
    ensures region.end.0 < |blocks| && StaysOutside(blocks, region, region.end.0)
  {
    var code := CodeOutside(blocks, base, region, grounds);
    SourceInRange(blocks, base);
    hide SourceOk, Grounded, OutsideSet;
    EndOffGround(blocks, region, grounds);
    forall next | next in Successors(blocks[region.end.0].term)
      ensures IsOutside(blocks, region, next)
    {
      assert next in code;
    }
  }

  lemma EndOffGround(blocks: Blocks, region: Region, grounds: seq<set<BlockId>>)
    requires Sound(blocks, region, grounds)
    ensures !OnGround(grounds, region.end.0)
  {
    hide WellPlaced, Closed, OneSiteEach, SitesIn, EnteredAtBegin;
    forall j | 0 <= j < |grounds|
      ensures region.end.0 !in grounds[j]
    {
      assert Grounded(blocks, region, region.coroutines[j], grounds[j]);
    }
  }

  lemma SoundBodies(blocks: Blocks, region: Region, grounds: seq<set<BlockId>>)
    requires Sound(blocks, region, grounds) && Marked(blocks, region)
    ensures BodiesOk(blocks, region)
  {
    hide BodyOf, EnteredAtBegin, Grounded, CoroutineOk;
    forall j | 0 <= j < |region.coroutines|
      ensures CoroutineOk(blocks, region, region.coroutines[j]) && BodyOf(blocks, region.coroutines[j]) <= grounds[j]
    {
      GroundedIsOk(blocks, region, region.coroutines[j], grounds[j]);
      BodyOnGround(blocks, region, region.coroutines[j], grounds[j]);
    }
  }

  lemma SoundMarkers(blocks: Blocks, region: Region, grounds: seq<set<BlockId>>)
    requires Sound(blocks, region, grounds) && |grounds| > 0 && Marked(blocks, region) && InSequence(region)
    ensures MarkersOk(blocks, region)
  {
    hide EnteredAtBegin, Grounded;
    assert HasStatement(blocks, region.begin, RegionBegin) && HasStatement(blocks, region.end, RegionEnd);
  }

  /** What the transform of a region asks for. */
  lemma SoundIsOk(blocks: Blocks, base: nat, region: Region, grounds: seq<set<BlockId>>)
    requires SourceOk(blocks, base) && Sound(blocks, region, grounds) && |grounds| > 0
    requires Marked(blocks, region) && InSequence(region)
    ensures RegionOk(blocks, base, region) && FewSites(blocks, region)
  {
    SoundMarkers(blocks, region, grounds);
    SoundBodies(blocks, region, grounds);
    BeginIsNotEnd(blocks, region);
    SoundStaysOutside(blocks, base, region, grounds);
    hide SourceOk, Marked, InSequence, MarkersOk, StaysOutside, AllSites, EnteredAtBegin, Grounded;
    forall i, sites | 0 <= i < |region.coroutines| && AllSites(blocks, region.coroutines[i], sites)
      ensures |sites| < DONE_STATE
    {
      CoroutineIsOk(blocks, region, i);
      FewOnGround(blocks, region, region.coroutines[i], grounds[i], sites);
    }
  }

  lemma BeginIsNotEnd(blocks: Blocks, region: Region)
    requires MarkersOk(blocks, region)
    ensures region.begin.0 != region.end.0
  {
  }

  /** Around an innermost region stand no markers but its own. */
  lemma InnermostOwnsMarkers(blocks: Blocks, base: nat, plan: Plan, r: Region)
    requires Nested(blocks, base, plan) && Innermost(plan.Keys, r) && |r.coroutines| > 0
    ensures OwnMarkers(blocks, r)
  {
    hide Touched, SourceOk, Marks, Sound;
    assert Sound(blocks, r, plan[r]);
    SoundLength(blocks, r, plan[r]);
    forall b, i | HasMarker(blocks, b, i) && Touched(blocks, r, b)
      ensures BeforeRegion(r, b, i) || Marks(r, (b, i))
    {
      TouchedIsCovered(blocks, r, plan[r], b);
      var s :| s in plan.Keys && Marks(s, (b, i));
      if s != r {
        assert Related(s, plan[s], r, plan[r]);
        assert KeepsClear(s, r, plan[r]);
      }
    }
  }

  lemma SoundLength(blocks: Blocks, region: Region, grounds: seq<set<BlockId>>)
    requires Sound(blocks, region, grounds)
    ensures |grounds| == |region.coroutines|
  {
  }

  // ── Lowering an innermost region ─────────────────────────────────────

  ghost function NewBlocks(n: nat, m: nat): set<BlockId> {
    set b | b in AllBlocks(m) && n <= b
  }

  /** The region's new blocks join the ground its first block lies in. */
  ghost function Grown(ground: set<BlockId>, r: Region, n: nat, m: nat): set<BlockId> {
    if r.begin.0 in ground then ground + NewBlocks(n, m) else ground
  }

  ghost function AllGrown(grounds: seq<set<BlockId>>, r: Region, n: nat, m: nat): (all: seq<set<BlockId>>)
    ensures |all| == |grounds| && forall j :: 0 <= j < |all| ==> all[j] == Grown(grounds[j], r, n, m)
  {
    seq(|grounds|, j requires 0 <= j < |grounds| => Grown(grounds[j], r, n, m))
  }

  /** What is left to do once `r` has been lowered. */
  ghost function Remaining(plan: Plan, r: Region, n: nat, m: nat): Plan {
    map s | s in plan && s != r :: AllGrown(plan[s], r, n, m)
  }

  /** `r` has been lowered; `rg` is what its coroutines ran on. */
  ghost predicate HasLowered(blocks: Blocks, base: nat, r: Region, rg: seq<set<BlockId>>, out: Blocks, locals: nat,
                            lifted: BlockId) {
    && Leaves(blocks, base, r, out, locals, lifted)
    && (forall b :: Touched(blocks, r, b) ==> Covers(r, rg, b))
  }

  lemma StaysWhere(blocks: Blocks, base: nat, r: Region, rg: seq<set<BlockId>>, out: Blocks, locals: nat,
                   lifted: BlockId, b: BlockId)
    requires HasLowered(blocks, base, r, rg, out, locals, lifted) && b < |blocks| && !Covers(r, rg, b)
    ensures OffLimits(blocks, r, b) && b < |out| && out[b] == blocks[b]
  {
    hide Touched, Covers, LeftBlock;
  }

  /** The other regions' markers are where they were. */
  lemma MarkerStays(blocks: Blocks, base: nat, r: Region, rg: seq<set<BlockId>>, out: Blocks, locals: nat,
                    lifted: BlockId, s: Region, at: Site)
    requires HasLowered(blocks, base, r, rg, out, locals, lifted) && KeepsClear(s, r, rg) && Marks(s, at)
    requires at.0 < |blocks| && at.1 < |blocks[at.0].stmts|
    ensures at.0 < |out| && at.1 < |out[at.0].stmts| && out[at.0].stmts[at.1] == blocks[at.0].stmts[at.1]
  {
    hide Touched, Covers, LeftBlock, Marks;
    if !Covers(r, rg, at.0) {
      StaysWhere(blocks, base, r, rg, out, locals, lifted, at.0);
    }
  }

  lemma MarkedStays(blocks: Blocks, base: nat, r: Region, rg: seq<set<BlockId>>, out: Blocks, locals: nat,
                    lifted: BlockId, s: Region)
    requires HasLowered(blocks, base, r, rg, out, locals, lifted) && KeepsClear(s, r, rg) && Marked(blocks, s)
    ensures Marked(out, s)
  {
    hide HasLowered, KeepsClear;
    MarkerStays(blocks, base, r, rg, out, locals, lifted, s, s.begin);
    MarkerStays(blocks, base, r, rg, out, locals, lifted, s, s.end);
    forall j | 0 <= j < |s.coroutines|
      ensures HasStatement(out, s.coroutines[j].begin, CoroutineBegin(s.coroutines[j].priority))
      ensures HasStatement(out, s.coroutines[j].end, CoroutineEnd)
    {
      MarkerStays(blocks, base, r, rg, out, locals, lifted, s, s.coroutines[j].begin);
      MarkerStays(blocks, base, r, rg, out, locals, lifted, s, s.coroutines[j].end);
    }
  }

  /** No marker has come. */
  lemma MarkerWasThere(blocks: Blocks, base: nat, r: Region, rg: seq<set<BlockId>>, out: Blocks, locals: nat,
                       lifted: BlockId, b: BlockId, i: nat)
    requires HasLowered(blocks, base, r, rg, out, locals, lifted) && HasMarker(out, b, i)
    ensures HasMarker(blocks, b, i) && (OffLimits(blocks, r, b) || BeforeRegion(r, b, i))
  {
    hide Touched, Covers;
    if !OffLimits(blocks, r, b) {
      assert LeftStmt(blocks, r, lifted, b, i, out[b].stmts[i], locals);
    }
  }

  lemma OutlineStays(blocks: Blocks, base: nat, regions: set<Region>, r: Region, rg: seq<set<BlockId>>, out: Blocks,
                     locals: nat, lifted: BlockId)
    requires Outlined(blocks, regions) && r in regions && MarkersOk(blocks, r) && BodiesOk(blocks, r)
    requires HasLowered(blocks, base, r, rg, out, locals, lifted)
    requires forall s :: s in regions && s != r ==> KeepsClear(s, r, rg)
    ensures Outlined(out, regions - {r})
  {
    hide HasLowered, MarkersOk, BodiesOk, KeepsClear, Marked, InSequence, Laminar, Marks, OffLimits;
    forall s | s in regions - {r}
      ensures Marked(out, s)
    {
      MarkedStays(blocks, base, r, rg, out, locals, lifted, s);
    }
    forall b, i | HasMarker(out, b, i)
      ensures exists s :: s in regions - {r} && Marks(s, (b, i))
    {
      MarkerWasThere(blocks, base, r, rg, out, locals, lifted, b, i);
      var s :| s in regions && Marks(s, (b, i));
      if s == r {
        MarksTouch(blocks, r, (b, i));
        OffLimitsIs(blocks, r, b);
      }
      assert s in regions - {r};
    }
  }

  lemma OffLimitsIs(blocks: Blocks, r: Region, b: BlockId)
    ensures OffLimits(blocks, r, b) <==> b < |blocks| && !Touched(blocks, r, b)
  {
  }

  lemma SourceStays(blocks: Blocks, base: nat, r: Region, out: Blocks, locals: nat, lifted: BlockId)
    requires SourceOk(blocks, base) && Leaves(blocks, base, r, out, locals, lifted)
    ensures SourceOk(out, locals)
  {
    hide Touched;
    forall b | 0 <= b < |out|
      ensures (forall i :: 0 <= i < |out[b].stmts| ==> UserStmt(out[b].stmts[i], locals))
              && UserTerm(out[b].term, locals, |out|)
    {
      if OffLimits(blocks, r, b) {
        assert UserTerm(blocks[b].term, base, |blocks|);
        forall i | 0 <= i < |out[b].stmts|
          ensures UserStmt(out[b].stmts[i], locals)
        {
          assert UserStmt(blocks[b].stmts[i], base);
        }
      } else {
        assert LeftBlock(blocks, r, lifted, b, out[b], |out|, locals);
        LeftIsUser(blocks, r, lifted, b, out[b], |out|, locals);
      }
    }
  }

  lemma LeftIsUser(blocks: Blocks, r: Region, lifted: BlockId, b: BlockId, block: Block<Stmt>, n: nat, locals: nat)
    requires LeftBlock(blocks, r, lifted, b, block, n, locals)
    ensures (forall i :: 0 <= i < |block.stmts| ==> UserStmt(block.stmts[i], locals)) && UserTerm(block.term, locals, n)
  {
    hide Touched;
    forall i | 0 <= i < |block.stmts|
      ensures UserStmt(block.stmts[i], locals)
    {
      assert LeftStmt(blocks, r, lifted, b, i, block.stmts[i], locals);
    }
    forall next | next in Successors(block.term)
      ensures next < n
    {
      assert LeftTarget(blocks, r, next, n);
    }
  }

  // ── A region beside the lowered one ──────────────────────────────────

  /** Ground that the lowered region has not touched. */
  lemma GroundStays(blocks: Blocks, base: nat, r: Region, rg: seq<set<BlockId>>, out: Blocks, locals: nat,
                    lifted: BlockId, s: Region, co: Coroutine, ground: set<BlockId>)
    requires HasLowered(blocks, base, r, rg, out, locals, lifted) && Grounded(blocks, s, co, ground)
    requires forall b :: b in ground ==> !Covers(r, rg, b)
    ensures Grounded(out, s, co, ground)
  {
    hide HasLowered, Covers, AtMostOneSite;
    forall b | b in ground
      ensures b < |blocks| && b < |out| && out[b] == blocks[b]
    {
      StaysWhere(blocks, base, r, rg, out, locals, lifted, b);
    }
    assert SitesIn(out, co, ground) == SitesIn(blocks, co, ground);
  }

  /** Where a block that is not off limits may lead. */
  lemma LeftLeads(blocks: Blocks, base: nat, r: Region, rg: seq<set<BlockId>>, out: Blocks, locals: nat,
                  lifted: BlockId, b: BlockId, next: BlockId)
    requires HasLowered(blocks, base, r, rg, out, locals, lifted) && b < |out| && !OffLimits(blocks, r, b)
             && next in Successors(out[b].term)
    ensures next < |out|
    ensures next < |blocks| ==>
              || (Covers(r, rg, next) && next != r.begin.0)
              || exists from :: 0 <= from < |blocks| && Covers(r, rg, from) && next in Successors(blocks[from].term)
  {
    hide Touched, Covers;
    assert LeftBlock(blocks, r, lifted, b, out[b], |out|, locals);
    assert LeftTarget(blocks, r, next, |out|);
  }

  lemma EntryStaysApart(blocks: Blocks, base: nat, r: Region, rg: seq<set<BlockId>>, out: Blocks, locals: nat,
                        lifted: BlockId, s: Region, sg: seq<set<BlockId>>)
    requires HasLowered(blocks, base, r, rg, out, locals, lifted) && BlocksApart(r, rg, s, sg)
    requires EnteredAtBegin(blocks, s, sg) && s.end.0 < |blocks| && forall b: nat :: OnGround(sg, b) ==> b < |blocks|
    ensures EnteredAtBegin(out, s, sg)
  {
    hide HasLowered, OnGround;
    forall b, next | 0 <= b < |out| && !OnGround(sg, b) && b != s.begin.0 && next in Successors(out[b].term)
      ensures next == s.begin.0 || (!OnGround(sg, next) && next != s.end.0)
    {
      if OffLimits(blocks, r, b) {
        OffLimitsSame(blocks, base, r, rg, out, locals, lifted, b);
      } else {
        LeftLeads(blocks, base, r, rg, out, locals, lifted, b, next);
      }
    }
  }

  lemma OffLimitsSame(blocks: Blocks, base: nat, r: Region, rg: seq<set<BlockId>>, out: Blocks, locals: nat,
                      lifted: BlockId, b: BlockId)
    requires HasLowered(blocks, base, r, rg, out, locals, lifted) && OffLimits(blocks, r, b)
    ensures b < |blocks| && b < |out| && out[b] == blocks[b]
  {
    hide Touched, LeftBlock, Covers;
  }

  lemma SoundApart(blocks: Blocks, base: nat, r: Region, rg: seq<set<BlockId>>, out: Blocks, locals: nat,
                   lifted: BlockId, s: Region, sg: seq<set<BlockId>>)
    requires HasLowered(blocks, base, r, rg, out, locals, lifted) && Sound(blocks, s, sg) && |sg| > 0
             && BlocksApart(r, rg, s, sg)
    ensures Sound(out, s, AllGrown(sg, r, |blocks|, |out|))
  {
    hide HasLowered, Grounded, EnteredAtBegin;
    forall j | 0 <= j < |sg|
      ensures Grounded(out, s, s.coroutines[j], sg[j]) && r.begin.0 !in sg[j]
    {
      forall b | b in sg[j]
        ensures !Covers(r, rg, b)
      {
        assert OnGround(sg, b);
      }
      GroundStays(blocks, base, r, rg, out, locals, lifted, s, s.coroutines[j], sg[j]);
      assert r.begin.0 in sg[j] ==> Covers(r, rg, r.begin.0);
    }
    assert AllGrown(sg, r, |blocks|, |out|) == sg;
    GroundsInRange(blocks, s, sg);
    EntryStaysApart(blocks, base, r, rg, out, locals, lifted, s, sg);
    EndsStay(blocks, base, r, rg, out, locals, lifted, s, sg);
  }

  lemma EndsStay(blocks: Blocks, base: nat, r: Region, rg: seq<set<BlockId>>, out: Blocks, locals: nat, lifted: BlockId,
                 s: Region, sg: seq<set<BlockId>>)
    requires HasLowered(blocks, base, r, rg, out, locals, lifted) && Sound(blocks, s, sg) && |sg| > 0
    requires !Covers(r, rg, s.end.0)
    ensures s.begin.0 < |out| && s.end.0 < |out| && out[s.end.0].stmts == [RegionEnd]
  {
    StaysWhere(blocks, base, r, rg, out, locals, lifted, s.end.0);
    hide LeftBlock, Touched, Covers, Grounded, EnteredAtBegin;
  }

  lemma GroundsInRange(blocks: Blocks, s: Region, sg: seq<set<BlockId>>)
    requires Sound(blocks, s, sg)
    ensures forall b: nat :: OnGround(sg, b) ==> b < |blocks|
  {
    hide EnteredAtBegin, WellPlaced, OneSiteEach, SitesIn;
    forall b: nat | OnGround(sg, b)
      ensures b < |blocks|
    {
      var j :| 0 <= j < |sg| && b in sg[j];
      assert Grounded(blocks, s, s.coroutines[j], sg[j]);
    }
  }

  // ── A region around the lowered one ──────────────────────────────────

  lemma ClosedGrows(blocks: Blocks, base: nat, r: Region, rg: seq<set<BlockId>>, out: Blocks, locals: nat,
                    lifted: BlockId, s: Region, co: Coroutine, ground: set<BlockId>)
    requires HasLowered(blocks, base, r, rg, out, locals, lifted) && Closed(blocks, s, co, ground)
             && s.begin.0 < |blocks|
    requires forall b :: Covers(r, rg, b) ==> b in ground && b != co.end.0
    requires Covers(r, rg, s.begin.0) ==> s.begin.0 == r.begin.0
    ensures Closed(out, s, co, ground + NewBlocks(|blocks|, |out|))
  {
    hide HasLowered, Covers;
    LoweredGrows(blocks, base, r, rg, out, locals, lifted);
    forall b | b in ground + NewBlocks(|blocks|, |out|)
      ensures b < |out|
      ensures b != co.end.0 ==> forall next :: next in Successors(out[b].term) ==>
                next in ground + NewBlocks(|blocks|, |out|) && next != s.begin.0
    {
      if OffLimits(blocks, r, b) {
        OffLimitsSame(blocks, base, r, rg, out, locals, lifted, b);
      } else {
        forall next | next in Successors(out[b].term)
          ensures next in ground + NewBlocks(|blocks|, |out|) && next != s.begin.0
        {
          LeftLeads(blocks, base, r, rg, out, locals, lifted, b, next);
        }
      }
    }
  }

  lemma LoweredGrows(blocks: Blocks, base: nat, r: Region, rg: seq<set<BlockId>>, out: Blocks, locals: nat,
                     lifted: BlockId)
    requires HasLowered(blocks, base, r, rg, out, locals, lifted)
    ensures |blocks| <= lifted < |out| && base <= locals
  {
    hide LeftBlock, Touched, Covers;
  }

  /** Where a suspension of the lowered body was. */
  function WasAt(r: Region, lifted: BlockId, s: Site): Site {
    if s.0 == lifted then (r.begin.0, r.begin.1 + 1 + s.1) else s
  }

  lemma SuspensionWas(blocks: Blocks, base: nat, r: Region, rg: seq<set<BlockId>>, out: Blocks, locals: nat,
                      lifted: BlockId, s: Site)
    requires HasLowered(blocks, base, r, rg, out, locals, lifted)
    requires s.0 < |out| && s.1 < |out[s.0].stmts| && Suspends(out[s.0].stmts[s.1])
    ensures var was := WasAt(r, lifted, s);
            && was.0 < |blocks| && was.1 < |blocks[was.0].stmts| && Suspends(blocks[was.0].stmts[was.1])
            && (s.0 == lifted || (s == was && (s.0 == r.begin.0 ==> s.1 < r.begin.1)))
  {
    hide Touched, Covers;
    if OffLimits(blocks, r, s.0) {
      OffLimitsSame(blocks, base, r, rg, out, locals, lifted, s.0);
      FirstIsNotOff(blocks, r);
    } else {
      assert LeftStmt(blocks, r, lifted, s.0, s.1, out[s.0].stmts[s.1], locals);
    }
  }

  lemma FirstIsNotOff(blocks: Blocks, r: Region)
    ensures !OffLimits(blocks, r, r.begin.0)
  {
  }

  /** A suspension on grown ground was one on the old ground, and no two were the same. */
  lemma SiteOnGrown(blocks: Blocks, base: nat, r: Region, rg: seq<set<BlockId>>, out: Blocks, locals: nat,
                    lifted: BlockId, co: Coroutine, ground: set<BlockId>, s: Site)
    requires HasLowered(blocks, base, r, rg, out, locals, lifted) && Before(co.begin, r.begin)
    requires r.begin.0 in ground && s in SitesIn(out, co, ground + NewBlocks(|blocks|, |out|))
    requires co.begin.0 < |blocks|
    ensures WasAt(r, lifted, s) in SitesIn(blocks, co, ground)
    ensures s.0 != lifted ==> WasAt(r, lifted, s) == s && (s.0 == r.begin.0 ==> s.1 < r.begin.1)
  {
    LoweredGrows(blocks, base, r, rg, out, locals, lifted);
    hide HasLowered;
    SuspensionWas(blocks, base, r, rg, out, locals, lifted, s);
  }

  lemma {:induction false} MappedFit(all: set<Site>, r: Region, lifted: BlockId, into: set<Site>)
    requires forall s :: s in all ==> WasAt(r, lifted, s) in into
    requires forall s, t :: s in all && t in all && s != t ==> WasAt(r, lifted, s) != WasAt(r, lifted, t)
    ensures |all| <= |into|
  {
    if all != {} {
      var s :| s in all;
      MappedFit(all - {s}, r, lifted, into - {WasAt(r, lifted, s)});
    }
  }

  lemma FewStay(blocks: Blocks, base: nat, r: Region, rg: seq<set<BlockId>>, out: Blocks, locals: nat, lifted: BlockId,
                co: Coroutine, ground: set<BlockId>)
    requires HasLowered(blocks, base, r, rg, out, locals, lifted) && Before(co.begin, r.begin) && r.begin.0 in ground
             && co.begin.0 < |blocks|
    ensures |SitesIn(out, co, ground + NewBlocks(|blocks|, |out|))| <= |SitesIn(blocks, co, ground)|
  {
    var all := SitesIn(out, co, ground + NewBlocks(|blocks|, |out|));
    var into := SitesIn(blocks, co, ground);
    hide HasLowered, SitesIn;
    forall s | s in all
      ensures WasAt(r, lifted, s) in into
      ensures s.0 != lifted ==> WasAt(r, lifted, s) == s && (s.0 == r.begin.0 ==> s.1 < r.begin.1)
    {
      SiteOnGrown(blocks, base, r, rg, out, locals, lifted, co, ground, s);
    }
    MappedFit(all, r, lifted, into);
  }

  lemma OneSiteGrows(blocks: Blocks, base: nat, r: Region, rg: seq<set<BlockId>>, out: Blocks, locals: nat,
                     lifted: BlockId, co: Coroutine, ground: set<BlockId>)
    requires HasLowered(blocks, base, r, rg, out, locals, lifted) && Before(co.begin, r.begin) && r.begin.0 in ground
             && co.begin.0 < |blocks|
    requires OneSiteEach(blocks, co, ground) && r.begin.0 < |blocks|
    ensures OneSiteEach(out, co, ground + NewBlocks(|blocks|, |out|))
  {
    hide HasLowered;
    forall b | b in ground + NewBlocks(|blocks|, |out|) && b < |out|
      ensures AtMostOneSite(out[b].stmts, StartOf(co, b))
    {
      forall i, k | StartOf(co, b) <= i < |out[b].stmts| && StartOf(co, b) <= k < |out[b].stmts|
                    && Suspends(out[b].stmts[i]) && Suspends(out[b].stmts[k])
        ensures i == k
      {
        SiteOnGrown(blocks, base, r, rg, out, locals, lifted, co, ground, (b, i));
        SiteOnGrown(blocks, base, r, rg, out, locals, lifted, co, ground, (b, k));
        var was := WasAt(r, lifted, (b, i)).0;
        assert was == WasAt(r, lifted, (b, k)).0;
        assert AtMostOneSite(blocks[was].stmts, StartOf(co, was));
      }
    }
  }

  lemma PlacedStays(blocks: Blocks, base: nat, r: Region, rg: seq<set<BlockId>>, out: Blocks, locals: nat,
                    lifted: BlockId, s: Region, co: Coroutine)
    requires HasLowered(blocks, base, r, rg, out, locals, lifted) && WellPlaced(blocks, s, co)
    requires KeepsClear(s, r, rg) && Marks(s, co.begin) && !Covers(r, rg, co.end.0)
    ensures WellPlaced(out, s, co)
  {
    hide HasLowered, KeepsClear, Marks, Covers;
    MarkerStays(blocks, base, r, rg, out, locals, lifted, s, co.begin);
    StaysWhere(blocks, base, r, rg, out, locals, lifted, co.end.0);
  }

  /** Ground that the lowered region lies in. */
  lemma GroundGrows(blocks: Blocks, base: nat, r: Region, rg: seq<set<BlockId>>, out: Blocks, locals: nat,
                    lifted: BlockId, s: Region, j: nat, ground: set<BlockId>)
    requires HasLowered(blocks, base, r, rg, out, locals, lifted) && j < |s.coroutines|
             && Grounded(blocks, s, s.coroutines[j], ground)
    requires Before(s.coroutines[j].begin, r.begin) && KeepsClear(s, r, rg)
    requires s.begin.0 < |blocks| && s.end.0 < |blocks|
    requires forall b :: Covers(r, rg, b) ==> b in ground && b != s.coroutines[j].end.0
    ensures Grounded(out, s, s.coroutines[j], ground + NewBlocks(|blocks|, |out|))
  {
    var co := s.coroutines[j];
    assert Marks(s, co.begin) && Marks(s, s.begin);
    assert Covers(r, rg, r.begin.0);
    hide HasLowered, Covers, SitesIn, OneSiteEach, Marks;
    PlacedStays(blocks, base, r, rg, out, locals, lifted, s, co);
    hide WellPlaced;
    PlacedInRange(blocks, s, co);
    ClosedGrows(blocks, base, r, rg, out, locals, lifted, s, co, ground);
    hide Closed;
    GroundBelow(blocks, s, co, ground);
    OneSiteGrows(blocks, base, r, rg, out, locals, lifted, co, ground);
    FewStay(blocks, base, r, rg, out, locals, lifted, co, ground);
  }

  lemma PlacedInRange(blocks: Blocks, s: Region, co: Coroutine)
    requires WellPlaced(blocks, s, co)
    ensures co.begin.0 < |blocks| && co.end.0 < |blocks|
  {
  }

  lemma GroundBelow(blocks: Blocks, s: Region, co: Coroutine, ground: set<BlockId>)
    requires Grounded(blocks, s, co, ground)
    ensures forall b :: b in ground ==> b < |blocks|
  {
    hide SitesIn, OneSiteEach, WellPlaced;
  }

  lemma EntryStaysAround(blocks: Blocks, base: nat, r: Region, rg: seq<set<BlockId>>, out: Blocks, locals: nat,
                         lifted: BlockId, s: Region, sg: seq<set<BlockId>>, j: nat)
    requires HasLowered(blocks, base, r, rg, out, locals, lifted) && BlocksWithin(r, rg, s, sg, j)
    requires SourceOk(blocks, base) && EnteredAtBegin(blocks, s, sg)
    ensures EnteredAtBegin(out, s, AllGrown(sg, r, |blocks|, |out|))
  {
    SourceInRange(blocks, base);
    LoweredGrows(blocks, base, r, rg, out, locals, lifted);
    var all := AllGrown(sg, r, |blocks|, |out|);
    assert Covers(r, rg, r.begin.0);
    hide HasLowered, SourceOk, Covers;
    forall b: nat
      ensures OnGround(sg, b) ==> OnGround(all, b)
      ensures b < |blocks| && OnGround(all, b) ==> OnGround(sg, b)
      ensures |blocks| <= b < |out| ==> OnGround(all, b)
    {
      GrownMember(sg, r, |blocks|, |out|, b);
      assert |blocks| <= b < |out| ==> b in all[j];
    }
    hide OnGround;
    forall b, next | 0 <= b < |out| && !OnGround(all, b) && b != s.begin.0 && next in Successors(out[b].term)
      ensures next == s.begin.0 || (!OnGround(all, next) && next != s.end.0)
    {
      CoveredIsGround(r, rg, s, sg, j, b);
      assert b < |blocks|;
      StaysWhere(blocks, base, r, rg, out, locals, lifted, b);
    }
  }

  lemma CoveredIsGround(r: Region, rg: seq<set<BlockId>>, s: Region, sg: seq<set<BlockId>>, j: nat, b: BlockId)
    requires BlocksWithin(r, rg, s, sg, j)
    ensures Covers(r, rg, b) ==> OnGround(sg, b)
  {
  }

  lemma GrownMember(sg: seq<set<BlockId>>, r: Region, n: nat, m: nat, b: BlockId)
    ensures OnGround(sg, b) ==> OnGround(AllGrown(sg, r, n, m), b)
    ensures OnGround(AllGrown(sg, r, n, m), b) ==> OnGround(sg, b) || n <= b < m
  {
    var all := AllGrown(sg, r, n, m);
    if j :| 0 <= j < |sg| && b in sg[j] {
      assert b in all[j];
    }
    if j :| 0 <= j < |all| && b in all[j] {
      assert b in sg[j] || n <= b < m;
    }
  }

  lemma SoundAround(blocks: Blocks, base: nat, r: Region, rg: seq<set<BlockId>>, out: Blocks, locals: nat,
                    lifted: BlockId, s: Region, sg: seq<set<BlockId>>, j: nat)
    requires HasLowered(blocks, base, r, rg, out, locals, lifted) && Sound(blocks, s, sg) && SourceOk(blocks, base)
    requires InsidePart(r, s, j) && BlocksWithin(r, rg, s, sg, j) && KeepsClear(s, r, rg)
    ensures Sound(out, s, AllGrown(sg, r, |blocks|, |out|))
  {
    hide HasLowered, Grounded, EnteredAtBegin, SourceOk, KeepsClear, Covers;
    var all := AllGrown(sg, r, |blocks|, |out|);
    FirstCovered(r, rg);
    assert r.begin.0 in sg[j];
    forall i | 0 <= i < |sg|
      ensures Grounded(out, s, s.coroutines[i], all[i])
    {
      if i == j {
        GroundGrows(blocks, base, r, rg, out, locals, lifted, s, j, sg[j]);
      } else {
        assert sg[i] !! sg[j];
        GroundStays(blocks, base, r, rg, out, locals, lifted, s, s.coroutines[i], sg[i]);
      }
    }
    forall i, k | 0 <= i < |sg| && 0 <= k < |sg| && i != k
      ensures all[i] !! all[k]
    {
      GrownApart(blocks, s, sg, r, |out|, i, k);
    }
    EntryStaysAround(blocks, base, r, rg, out, locals, lifted, s, sg, j);
    EndOffGround(blocks, s, sg);
    CoveredIsGround(r, rg, s, sg, j, s.end.0);
    EndsStay(blocks, base, r, rg, out, locals, lifted, s, sg);
  }

  lemma FirstCovered(r: Region, rg: seq<set<BlockId>>)
    ensures Covers(r, rg, r.begin.0)
  {
  }

  lemma GrownApart(blocks: Blocks, s: Region, sg: seq<set<BlockId>>, r: Region, m: nat, i: nat, k: nat)
    requires Sound(blocks, s, sg) && i < |sg| && k < |sg| && i != k
    ensures Grown(sg[i], r, |blocks|, m) !! Grown(sg[k], r, |blocks|, m)
  {
    assert sg[i] !! sg[k];
    GroundBelow(blocks, s, s.coroutines[i], sg[i]);
    GroundBelow(blocks, s, s.coroutines[k], sg[k]);
    hide Grounded, EnteredAtBegin;
  }

  // ── How two other regions are related ────────────────────────────────

  lemma CoversGrown(s: Region, sg: seq<set<BlockId>>, r: Region, n: nat, m: nat, b: BlockId)
    ensures Covers(s, AllGrown(sg, r, n, m), b) ==> Covers(s, sg, b) || (n <= b < m && OnGround(sg, r.begin.0))
  {
    var all := AllGrown(sg, r, n, m);
    if j :| 0 <= j < |all| && b in all[j] {
      assert b in sg[j] || r.begin.0 in sg[j];
    }
  }

  lemma ApartStays(s: Region, sg: seq<set<BlockId>>, u: Region, ug: seq<set<BlockId>>, r: Region, n: nat, m: nat)
    requires BlocksApart(s, sg, u, ug)
    requires forall b: nat :: Covers(s, sg, b) || Covers(u, ug, b) ==> b < n
    ensures BlocksApart(s, AllGrown(sg, r, n, m), u, AllGrown(ug, r, n, m))
  {
    var sg', ug' := AllGrown(sg, r, n, m), AllGrown(ug, r, n, m);
    forall b
      ensures !(Covers(s, sg', b) && Covers(u, ug', b))
    {
      CoversGrown(s, sg, r, n, m, b);
      CoversGrown(u, ug, r, n, m, b);
      assert OnGround(sg, r.begin.0) ==> Covers(s, sg, r.begin.0);
      assert OnGround(ug, r.begin.0) ==> Covers(u, ug, r.begin.0);
    }
  }

  lemma WithinStays(s: Region, sg: seq<set<BlockId>>, u: Region, ug: seq<set<BlockId>>, j: nat, r: Region, n: nat,
                    m: nat)
    requires BlocksWithin(s, sg, u, ug, j) && u.coroutines[j].end.0 < n
    ensures BlocksWithin(s, AllGrown(sg, r, n, m), u, AllGrown(ug, r, n, m), j)
  {
    var sg', ug' := AllGrown(sg, r, n, m), AllGrown(ug, r, n, m);
    forall b | Covers(s, sg', b)
      ensures b in ug'[j] && b != u.coroutines[j].end.0
    {
      CoversGrown(s, sg, r, n, m, b);
      assert OnGround(sg, r.begin.0) ==> Covers(s, sg, r.begin.0);
      hide Covers;
    }
  }

  lemma ClearStays(s: Region, u: Region, ug: seq<set<BlockId>>, r: Region, n: nat, m: nat)
    requires KeepsClear(s, u, ug) && forall at: Site :: Marks(s, at) ==> at.0 < n
    ensures KeepsClear(s, u, AllGrown(ug, r, n, m))
  {
    hide Marks;
    forall at: Site | Marks(s, at)
      ensures !Covers(u, AllGrown(ug, r, n, m), at.0) || BeforeRegion(u, at.0, at.1)
    {
      CoversGrown(u, ug, r, n, m, at.0);
    }
  }

  lemma CoversBelow(blocks: Blocks, s: Region, sg: seq<set<BlockId>>)
    requires Sound(blocks, s, sg) && Marked(blocks, s)
    ensures forall b: nat :: Covers(s, sg, b) ==> b < |blocks|
  {
    GroundsInRange(blocks, s, sg);
    assert HasStatement(blocks, s.begin, RegionBegin) && HasStatement(blocks, s.end, RegionEnd);
    hide Sound;
  }

  lemma RelatedStays(blocks: Blocks, s: Region, sg: seq<set<BlockId>>, u: Region, ug: seq<set<BlockId>>, r: Region,
                     m: nat)
    requires Related(s, sg, u, ug) && Sound(blocks, s, sg) && Sound(blocks, u, ug) && Marked(blocks, s)
             && Marked(blocks, u)
    ensures Related(s, AllGrown(sg, r, |blocks|, m), u, AllGrown(ug, r, |blocks|, m))
  {
    hide Marked, InsidePart, Apart, Covers, Marks, AllGrown;
    var n := |blocks|;
    CoversBelow(blocks, s, sg);
    CoversBelow(blocks, u, ug);
    MarksBelow(blocks, s);
    hide Sound;
    var sg', ug' := AllGrown(sg, r, n, m), AllGrown(ug, r, n, m);
    if |sg| > 0 && |ug| > 0 && Apart(s, u) {
      ApartStays(s, sg, u, ug, r, n, m);
    }
    forall j | |sg'| > 0 && |ug'| > 0 && 0 <= j < |u.coroutines| && InsidePart(s, u, j)
      ensures BlocksWithin(s, sg', u, ug', j)
    {
      EndsBelow(blocks, u, j);
      WithinStays(s, sg, u, ug, j, r, n, m);
    }
    if |ug| > 0 && !InsideOf(s, u) {
      ClearStays(s, u, ug, r, n, m);
    }
  }

  lemma EndsBelow(blocks: Blocks, u: Region, j: nat)
    requires Marked(blocks, u) && j < |u.coroutines|
    ensures u.coroutines[j].end.0 < |blocks|
  {
  }

  lemma MarksBelow(blocks: Blocks, s: Region)
    requires Marked(blocks, s)
    ensures forall at: Site :: Marks(s, at) ==> at.0 < |blocks| && at.1 < |blocks[at.0].stmts|
  {
  }

  // ── The contract is kept ─────────────────────────────────────────────

  lemma OtherSound(blocks: Blocks, base: nat, plan: Plan, r: Region, out: Blocks, locals: nat, lifted: BlockId,
                   s: Region)
    requires Nested(blocks, base, plan) && Innermost(plan.Keys, r) && |r.coroutines| > 0 && s in plan && s != r
    requires HasLowered(blocks, base, r, plan[r], out, locals, lifted)
    ensures KeepsClear(s, r, plan[r])
    ensures Sound(out, s, AllGrown(plan[s], r, |blocks|, |out|))
  {
    hide Sound, SourceOk, HasLowered, BlocksApart, BlocksWithin, KeepsClear, Marked, InSequence, Apart, InsidePart,
         AllGrown;
    assert Related(r, plan[r], s, plan[s]) && Related(s, plan[s], r, plan[r]) && Laminar(r, s);
    SoundLength(blocks, r, plan[r]);
    SoundLength(blocks, s, plan[s]);
    assert Sound(blocks, s, plan[s]);
    if |plan[s]| == 0 {
      SoundEmpty(out, s, AllGrown(plan[s], r, |blocks|, |out|));
    } else if Apart(r, s) {
      SoundApart(blocks, base, r, plan[r], out, locals, lifted, s, plan[s]);
    } else {
      var j: nat :| j < |s.coroutines| && InsidePart(r, s, j);
      SoundAround(blocks, base, r, plan[r], out, locals, lifted, s, plan[s], j);
    }
  }

  lemma SoundEmpty(out: Blocks, s: Region, grounds: seq<set<BlockId>>)
    requires |grounds| == 0 && |s.coroutines| == 0
    ensures Sound(out, s, grounds)
  {
  }

  /** Lowering an innermost region keeps the contract for the others. */
  lemma NestingKept(blocks: Blocks, base: nat, plan: Plan, r: Region, out: Blocks, locals: nat, lifted: BlockId)
    requires Nested(blocks, base, plan) && Innermost(plan.Keys, r) && |r.coroutines| > 0
    requires Leaves(blocks, base, r, out, locals, lifted)
    ensures Nested(out, locals, Remaining(plan, r, |blocks|, |out|))
  {
    hide Sound, SourceOk, Leaves, KeepsClear, Marked, InSequence, Laminar, Related, AllGrown, Touched, Covers, Marks;
    var plan' := Remaining(plan, r, |blocks|, |out|);
    assert Sound(blocks, r, plan[r]) && Marked(blocks, r) && InSequence(r);
    SoundLength(blocks, r, plan[r]);
    SoundMarkers(blocks, r, plan[r]);
    SoundBodies(blocks, r, plan[r]);
    forall b | Touched(blocks, r, b)
      ensures Covers(r, plan[r], b)
    {
      TouchedIsCovered(blocks, r, plan[r], b);
    }
    assert HasLowered(blocks, base, r, plan[r], out, locals, lifted);
    forall s | s in plan && s != r
      ensures KeepsClear(s, r, plan[r]) && Sound(out, s, plan'[s])
    {
      OtherSound(blocks, base, plan, r, out, locals, lifted, s);
    }
    SourceStays(blocks, base, r, out, locals, lifted);
    OutlineStays(blocks, base, plan.Keys, r, plan[r], out, locals, lifted);
    assert plan'.Keys == plan.Keys - {r};
    forall s, u | s in plan' && u in plan' && s != u
      ensures Related(s, plan'[s], u, plan'[u])
    {
      RelatedStays(blocks, s, plan[s], u, plan[u], r, |out|);
    }
  }

  // ── A body with one region ───────────────────────────────────────────

  lemma {:induction false} LastSite(sites: set<Site>) returns (last: Site)
    requires sites != {}
    ensures last in sites && forall s :: s in sites && s != last ==> Before(s, last)
  {
    var one :| one in sites;
    if sites == {one} {
      last := one;
    } else {
      var other := LastSite(sites - {one});
      last := if Before(one, other) then other else one;
      forall s | s in sites && s != last
        ensures Before(s, last)
      {
        assert s == one || s in sites - {one};
      }
    }
  }

  lemma {:induction false} ListSites(sites: set<Site>) returns (list: seq<Site>)
    ensures InOrder(list) && |list| == |sites| && forall s :: s in list <==> s in sites
  {
    list := [];
    if sites != {} {
      var last := LastSite(sites);
      var before := ListSites(sites - {last});
      list := before + [last];
      forall i, j | 0 <= i < j < |list|
        ensures Before(list[i], list[j])
      {
        assert j == |before| ==> list[i] in before;
      }
    }
  }

  /** The suspensions in a coroutine's own blocks are its suspension points. */
  lemma SitesOfBody(blocks: Blocks, region: Region, co: Coroutine, s: Site)
    requires CoroutineOk(blocks, region, co)
    ensures s in SitesIn(blocks, co, BodyOf(blocks, co)) <==> IsSite(blocks, co, s)
  {
    if IsSite(blocks, co, s) {
      SiteFacts(blocks, region, co, s);
    }
  }

  ghost function Bodies(blocks: Blocks, region: Region): (all: seq<set<BlockId>>)
    ensures |all| == |region.coroutines| && forall j :: 0 <= j < |all| ==>
              all[j] == BodyOf(blocks, region.coroutines[j])
  {
    seq(|region.coroutines|, j requires 0 <= j < |region.coroutines| => BodyOf(blocks, region.coroutines[j]))
  }

  lemma FewInBody(blocks: Blocks, region: Region, j: nat)
    requires BodiesOk(blocks, region) && FewSites(blocks, region) && j < |region.coroutines|
    ensures |SitesIn(blocks, region.coroutines[j], BodyOf(blocks, region.coroutines[j]))| < DONE_STATE
  {
    hide BodiesOk, CoroutineOk, SitesIn, IsSite, BodyOf;
    var co := region.coroutines[j];
    CoroutineIsOk(blocks, region, j);
    var list := ListSites(SitesIn(blocks, co, BodyOf(blocks, co)));
    forall s
      ensures s in list <==> IsSite(blocks, co, s)
    {
      SitesOfBody(blocks, region, co, s);
    }
    assert AllSites(blocks, co, list);
  }

  lemma BodyCloses(blocks: Blocks, base: nat, region: Region, j: nat)
    requires SourceOk(blocks, base) && BodiesOk(blocks, region) && j < |region.coroutines|
    ensures Closed(blocks, region, region.coroutines[j], BodyOf(blocks, region.coroutines[j]))
  {
    hide SourceOk, BodiesOk, BodyOf;
    var co := region.coroutines[j];
    SourceInRange(blocks, base);
    CoroutineIsOk(blocks, region, j);
    BodyInRange(blocks, co);
    forall b, next | b in BodyOf(blocks, co) && b != co.end.0 && next in Successors(blocks[b].term)
      ensures next in BodyOf(blocks, co) && next != region.begin.0
    {
      BodyIsClosed(blocks, co, b, next);
    }
  }

  lemma BodyInRange(blocks: Blocks, co: Coroutine)
    ensures forall b :: b in BodyOf(blocks, co) ==> b < |blocks|
  {
  }

  lemma BodyIsGround(blocks: Blocks, base: nat, region: Region, j: nat)
    requires RegionOk(blocks, base, region) && FewSites(blocks, region) && j < |region.coroutines|
    ensures Grounded(blocks, region, region.coroutines[j], BodyOf(blocks, region.coroutines[j]))
  {
    hide SourceOk, MarkersOk, BodiesOk, StaysOutside, FewSites, SitesIn, BodyOf, Closed;
    var co := region.coroutines[j];
    FewInBody(blocks, region, j);
    BodyCloses(blocks, base, region, j);
    CoroutineIsOk(blocks, region, j);
    BodyInRange(blocks, co);
    EndInBody(blocks, region, co);
    MarkersInBody(blocks, region, co);
  }

  lemma MarkersInBody(blocks: Blocks, region: Region, co: Coroutine)
    requires CoroutineOk(blocks, region, co)
    ensures co.begin.0 in BodyOf(blocks, co) && region.end.0 !in BodyOf(blocks, co)
  {
    BeginInBody(blocks, co);
    hide BodyOf;
  }

  /** The contract of a body with one region is that of the region, with the region entered at
      its begin from all code around it. */
  lemma OneRegionIsNested(blocks: Blocks, base: nat, region: Region)
    requires RegionOk(blocks, base, region) && FewSites(blocks, region) && Outlined(blocks, {region})
    requires EnteredAtBegin(blocks, region, Bodies(blocks, region))
    ensures Nested(blocks, base, map[region := Bodies(blocks, region)])
  {
    hide Outlined, EnteredAtBegin, FewSites, StaysOutside, Grounded;
    var grounds := Bodies(blocks, region);
    var plan: Plan := map[region := grounds];
    forall j | 0 <= j < |region.coroutines|
      ensures Grounded(blocks, region, region.coroutines[j], grounds[j])
    {
      BodyIsGround(blocks, base, region, j);
    }
    hide CoroutineOk, BodyOf, SourceOk;
    assert Sound(blocks, region, grounds);
    assert plan.Keys == {region};
  }
}
