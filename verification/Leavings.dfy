/** A region's transform, finished, and what it has left behind.

The machines and the executor have kept the body tidy. Finishing erases the markers, lifts
the region's first block and retargets the first dispatch; after that nothing new leads to
the region's first block, and no marker of the region is left.
*/
module Leavings {
  import opened Cfg
  import opened Coroutines
  import opened Regions
  import opened Footprint
  import opened Machines
  import opened Executors
  import opened Discovery
  import opened Markers
  import opened Lowering
  import opened Emission
  import opened Finishing

  // ── Which sites are erased ───────────────────────────────────────────

  lemma MarkersMark(region: Region, s: Site)
    ensures s in MarkerSites(region) <==> Marks(region, s)
  {
    var sites := MarkerSites(region);
    if s in CoroutineMarkers(region.coroutines) {
      MarkerOfSome(region.coroutines, s);
    }
    if Marks(region, s) {
      assert sites[|sites| - 2] == region.begin && sites[|sites| - 1] == region.end;
      if j :| 0 <= j < |region.coroutines| && (s == region.coroutines[j].begin || s == region.coroutines[j].end) {
        MarkerAt(region.coroutines, j);
        assert sites[2 * j] == region.coroutines[j].begin && sites[2 * j + 1] == region.coroutines[j].end;
      }
    }
  }

  /** The region's markers stand in its blocks, and none before it in its first block. */
  lemma MarksTouch(src: Blocks, region: Region, s: Site)
    requires MarkersOk(src, region) && BodiesOk(src, region) && Marks(region, s)
    ensures Touched(src, region, s.0) && !BeforeRegion(region, s.0, s.1)
  {
    if j :| 0 <= j < |region.coroutines| && (s == region.coroutines[j].begin || s == region.coroutines[j].end) {
      var co := region.coroutines[j];
      CoroutineIsOk(src, region, j);
      BeginInBody(src, co);
      EndInBody(src, region, co);
      assert InSomeBody(src, region, s.0);
      hide BodyOf;
    }
  }

  lemma ErasedStmt(blocks: Blocks, erased: Blocks, region: Region, b: BlockId, i: nat)
    requires ErasedAt(blocks, erased, MarkerSites(region)) && b < |blocks| && i < |blocks[b].stmts|
    ensures |erased| == |blocks| && |erased[b].stmts| == |blocks[b].stmts| && erased[b].term == blocks[b].term
    ensures erased[b].stmts[i] == if Marks(region, (b, i)) then Nop else blocks[b].stmts[i]
  {
    MarkersMark(region, (b, i));
    hide MarkerSites;
  }

  /** After erasing, a statement of one of the region's blocks or of a new one. */
  lemma ErasedIsTidy(src: Blocks, region: Region, blocks: Blocks, erased: Blocks, locals: nat, b: BlockId, i: nat)
    requires OwnMarkers(src, region) && Tidy(src, region, blocks, |blocks|, locals)
    requires ErasedAt(blocks, erased, MarkerSites(region)) && b < |blocks| && i < |blocks[b].stmts|
             && !OffLimits(src, region, b)
    ensures |erased| == |blocks| && |erased[b].stmts| == |blocks[b].stmts|
    ensures TidyStmt(src, b, i, erased[b].stmts[i], locals)
    ensures IsMarker(erased[b].stmts[i]) ==> BeforeRegion(region, b, i)
  {
    ErasedStmt(blocks, erased, region, b, i);
    assert TidyBlock(src, region, b, blocks[b], |blocks|, locals);
    assert TidyStmt(src, b, i, blocks[b].stmts[i], locals);
    hide Tidy, TidyBlock, ErasedAt;
    if IsMarker(erased[b].stmts[i]) {
      assert HasMarker(src, b, i) && Touched(src, region, b);
    }
  }

  lemma ErasedTerm(src: Blocks, region: Region, blocks: Blocks, erased: Blocks, locals: nat, b: BlockId)
    requires Tidy(src, region, blocks, |blocks|, locals) && ErasedAt(blocks, erased, MarkerSites(region))
    requires b < |blocks| && !OffLimits(src, region, b)
    ensures |erased| == |blocks| && TidyTerm(src, region, b, erased[b].term, |blocks|, locals)
  {
    assert TidyBlock(src, region, b, blocks[b], |blocks|, locals);
    hide Tidy, TidyTerm, MarkerSites, OffLimits;
  }

  /** Blocks that are not the region's are as they were, and so is what precedes it. */
  lemma ErasedElsewhere(src: Blocks, region: Region, blocks: Blocks, erased: Blocks, locals: nat, b: BlockId)
    requires MarkersOk(src, region) && BodiesOk(src, region) && Tidy(src, region, blocks, |blocks|, locals)
    requires ErasedAt(blocks, erased, MarkerSites(region)) && OffLimits(src, region, b)
    ensures b < |erased| && erased[b] == src[b]
  {
    assert blocks[b] == src[b];
    hide MarkersOk, BodiesOk, Tidy, MarkerSites;
    forall i | 0 <= i < |blocks[b].stmts|
      ensures |erased[b].stmts| == |blocks[b].stmts| && erased[b].stmts[i] == blocks[b].stmts[i]
    {
      ErasedStmt(blocks, erased, region, b, i);
      if Marks(region, (b, i)) {
        MarksTouch(src, region, (b, i));
      }
    }
    assert erased[b].stmts == blocks[b].stmts;
  }

  lemma HeadErased(src: Blocks, region: Region, blocks: Blocks, erased: Blocks, locals: nat)
    requires MarkersOk(src, region) && BodiesOk(src, region) && Tidy(src, region, blocks, |blocks|, locals)
    requires ErasedAt(blocks, erased, MarkerSites(region))
    ensures region.begin.0 < |src| <= |erased| && HeadStays(src, region, erased[region.begin.0])
  {
    hide MarkersOk, BodiesOk, MarkerSites, TidyBlock, OffLimits;
    var b := region.begin.0;
    assert HeadStays(src, region, blocks[b]);
    forall i | 0 <= i < region.begin.1
      ensures |erased[b].stmts| == |blocks[b].stmts| && erased[b].stmts[i] == src[b].stmts[i]
    {
      ErasedStmt(blocks, erased, region, b, i);
      if Marks(region, (b, i)) {
        MarksTouch(src, region, (b, i));
      }
    }
    assert |erased[b].stmts| == |blocks[b].stmts|;
  }

  // ── The blocks of the finished body ──────────────────────────────────

  ghost predicate LeftStmts(src: Blocks, region: Region, lifted: BlockId, b: BlockId, stmts: seq<Stmt>, locals: nat) {
    forall i :: 0 <= i < |stmts| ==> LeftStmt(src, region, lifted, b, i, stmts[i], locals)
  }

  ghost predicate LeftTerm(src: Blocks, region: Region, t: Term, n: nat, locals: nat) {
    && (Scrutinee(t).Some? ==> Scrutinee(t).value < locals)
    && (forall next :: next in Successors(t) ==> LeftTarget(src, region, next, n))
  }

  lemma LeftBlockFrom(src: Blocks, region: Region, lifted: BlockId, b: BlockId, block: Block<Stmt>, n: nat, locals: nat)
    requires LeftStmts(src, region, lifted, b, block.stmts, locals) && LeftTerm(src, region, block.term, n, locals)
    ensures LeftBlock(src, region, lifted, b, block, n, locals)
  {
    hide LeftStmt, LeftTarget;
  }

  lemma OtherStmts(src: Blocks, region: Region, blocks: Blocks, erased: Blocks, locals: nat, b: BlockId)
    requires OwnMarkers(src, region) && Tidy(src, region, blocks, |blocks|, locals)
             && ErasedAt(blocks, erased, MarkerSites(region))
    requires b < |blocks| && !OffLimits(src, region, b) && b != region.begin.0
    ensures |erased| == |blocks| && LeftStmts(src, region, |blocks|, b, erased[b].stmts, locals)
  {
    hide OwnMarkers, Tidy, MarkerSites, OffLimits;
    assert |erased| == |blocks| && |erased[b].stmts| == |blocks[b].stmts|;
    forall i | 0 <= i < |erased[b].stmts|
      ensures LeftStmt(src, region, |blocks|, b, i, erased[b].stmts[i], locals)
    {
      ErasedIsTidy(src, region, blocks, erased, locals, b, i);
    }
  }

  /** The region's first block: what precedes the region, and the start of its machines. */
  lemma FirstStmts(src: Blocks, region: Region, blocks: Blocks, erased: Blocks, locals: nat, inits: seq<Stmt>)
    requires OwnMarkers(src, region) && Tidy(src, region, blocks, |blocks|, locals)
             && ErasedAt(blocks, erased, MarkerSites(region))
    requires InRange(erased, region.begin) && forall i :: 0 <= i < |inits| ==> SystemStmt(inits[i], locals)
    ensures LeftStmts(src, region, |blocks|, region.begin.0, erased[region.begin.0].stmts[..region.begin.1 + 1] + inits,
                      locals)
  {
    var b, k := region.begin.0, region.begin.1;
    var stmts := erased[b].stmts[..k + 1] + inits;
    assert b < |src| && |erased[b].stmts| == |blocks[b].stmts| && Touched(src, region, b) && b != |blocks|;
    ErasedStmt(blocks, erased, region, b, k);
    assert Marks(region, (b, k));
    hide OwnMarkers, Tidy, ErasedAt, MarkerSites;
    forall i | 0 <= i < |stmts|
      ensures LeftStmt(src, region, |blocks|, b, i, stmts[i], locals)
    {
      if i < k {
        ErasedIsTidy(src, region, blocks, erased, locals, b, i);
      } else if i > k {
        assert SystemStmt(inits[i - k - 1], locals);
      }
    }
  }

  lemma LiftedStmts(src: Blocks, region: Region, blocks: Blocks, erased: Blocks, locals: nat)
    requires OwnMarkers(src, region) && Tidy(src, region, blocks, |blocks|, locals)
             && ErasedAt(blocks, erased, MarkerSites(region))
    requires InRange(erased, region.begin)
    ensures LeftStmts(src, region, |blocks|, |blocks|, erased[region.begin.0].stmts[region.begin.1 + 1..], locals)
  {
    var b, k := region.begin.0, region.begin.1 + 1;
    var stmts := erased[b].stmts[k..];
    assert b < |src| <= |blocks| && |erased[b].stmts| == |blocks[b].stmts| && Touched(src, region, b);
    hide OwnMarkers, Tidy, ErasedAt, MarkerSites;
    forall i | 0 <= i < |stmts|
      ensures LeftStmt(src, region, |blocks|, |blocks|, i, stmts[i], locals)
    {
      ErasedIsTidy(src, region, blocks, erased, locals, b, k + i);
    }
  }

  /** A terminator that is not the first dispatch's. */
  lemma TidyIsLeft(src: Blocks, region: Region, b: BlockId, t: Term, n: nat, n': nat, locals: nat)
    requires TidyTerm(src, region, b, t, n, locals) && (b != |src| || !SharesFirst(region)) && n <= n'
    ensures LeftTerm(src, region, t, n', locals)
  {
    hide Touched, FromTouched;
    forall next | next in Successors(t)
      ensures LeftTarget(src, region, next, n')
    {
      assert TidyTarget(src, region, b, next, n);
    }
  }

  /** Retargeting the first dispatch. */
  lemma RedirectedIsLeft(src: Blocks, region: Region, b: BlockId, t: Term, n: nat, locals: nat)
    requires TidyTerm(src, region, b, t, n, locals) && |src| <= n
    ensures LeftTerm(src, region, Redirect(t, region.begin.0, n), n + 1, locals)
  {
    hide Touched, FromTouched;
    var t' := Redirect(t, region.begin.0, n);
    forall next | next in Successors(t')
      ensures LeftTarget(src, region, next, n + 1)
    {
      var k :| 0 <= k < |Successors(t')| && Successors(t')[k] == next;
      var was := Successors(t)[k];
      assert was in Successors(t) && next == Renamed(was, region.begin.0, n);
      assert TidyTarget(src, region, b, was, n);
    }
  }

  lemma InitsAreSystem(ms: seq<Machine>, locals: nat)
    requires forall i :: 0 <= i < |ms| ==> ms[i].state < locals
    ensures forall i :: 0 <= i < |Inits(ms)| ==> SystemStmt(Inits(ms)[i], locals)
  {
  }

  /** The finished body, block by block. */
  lemma FinishedBlock(src: Blocks, region: Region, blocks: Blocks, erased: Blocks, locals: nat, ms: seq<Machine>,
                      entry: BlockId, b: BlockId)
    requires OwnMarkers(src, region) && Tidy(src, region, blocks, |blocks|, locals)
             && ErasedAt(blocks, erased, MarkerSites(region))
    requires InRange(erased, region.begin) && |src| <= entry < |blocks|
    requires |ms| > 0 && ms[0].dispatch == |src| < |blocks| && forall i :: 0 <= i < |ms| ==> ms[i].state < locals
    requires b <= |blocks| && !OffLimits(src, region, b)
    ensures |erased| == |blocks| && region.begin.0 < |src|
    ensures var out := Lifted(erased, region, ms, entry);
            && |out| == |blocks| + 1 && LeftBlock(src, region, |blocks|, b, out[b], |out|, locals)
  {
    hide OwnMarkers, Tidy, ErasedAt, MarkerSites, OffLimits, Inits, Redirect, LeftBlock, LeftStmts, LeftTerm, TidyTerm;
    ErasedSameSize(src, region, blocks, erased, locals);
    var out := Lifted(erased, region, ms, entry);
    var first := region.begin.0;
    if b == first {
      InitsAreSystem(ms, locals);
      FirstStmts(src, region, blocks, erased, locals, Inits(ms));
      GotoIsLeft(src, region, entry, |out|, locals);
    } else if b == |blocks| {
      LiftedStmts(src, region, blocks, erased, locals);
      ErasedTerm(src, region, blocks, erased, locals, first);
      TidyIsLeft(src, region, first, erased[first].term, |blocks|, |out|, locals);
    } else {
      OtherStmts(src, region, blocks, erased, locals, b);
      ErasedTerm(src, region, blocks, erased, locals, b);
      if b == |src| && SharesFirst(region) {
        RedirectedIsLeft(src, region, b, erased[b].term, |blocks|, locals);
      } else {
        TidyIsLeft(src, region, b, erased[b].term, |blocks|, |out|, locals);
      }
    }
    LeftBlockFrom(src, region, |blocks|, b, out[b], |out|, locals);
  }

  lemma ErasedSameSize(src: Blocks, region: Region, blocks: Blocks, erased: Blocks, locals: nat)
    requires Tidy(src, region, blocks, |blocks|, locals) && ErasedAt(blocks, erased, MarkerSites(region))
    ensures |erased| == |blocks| && region.begin.0 < |src| <= |blocks| && !OffLimits(src, region, region.begin.0)
  {
    hide MarkerSites, TidyBlock;
  }

  lemma GotoIsLeft(src: Blocks, region: Region, entry: BlockId, n: nat, locals: nat)
    requires |src| <= entry < n
    ensures LeftTerm(src, region, Goto(entry), n, locals)
  {
  }

  lemma FinishedLeaves(src: Blocks, base: nat, region: Region, blocks: Blocks, erased: Blocks, locals: nat,
                       ms: seq<Machine>, entry: BlockId)
    requires MarkersOk(src, region) && BodiesOk(src, region) && base <= locals
    requires OwnMarkers(src, region) && Tidy(src, region, blocks, |blocks|, locals)
             && ErasedAt(blocks, erased, MarkerSites(region))
    requires InRange(erased, region.begin) && |src| <= entry < |blocks|
    requires |ms| > 0 && ms[0].dispatch == |src| < |blocks| && forall i :: 0 <= i < |ms| ==> ms[i].state < locals
    ensures |erased| == |blocks| && region.begin.0 < |src|
    ensures Leaves(src, base, region, Lifted(erased, region, ms, entry), locals, |blocks|)
  {
    hide OwnMarkers, Tidy, ErasedAt, MarkerSites, Inits, Redirect, LeftBlock, MarkersOk, BodiesOk, Touched;
    ErasedSameSize(src, region, blocks, erased, locals);
    var out := Lifted(erased, region, ms, entry);
    HeadErased(src, region, blocks, erased, locals);
    HeadOfLifted(src, region, erased, ms, entry);
    forall b: nat | b < |out|
      ensures if OffLimits(src, region, b) then out[b] == src[b]
              else LeftBlock(src, region, |blocks|, b, out[b], |out|, locals)
    {
      if OffLimits(src, region, b) {
        ErasedElsewhere(src, region, blocks, erased, locals, b);
      } else {
        FinishedBlock(src, region, blocks, erased, locals, ms, entry, b);
      }
    }
  }

  lemma HeadOfLifted(src: Blocks, region: Region, erased: Blocks, ms: seq<Machine>, entry: BlockId)
    requires InRange(erased, region.begin) && HeadStays(src, region, erased[region.begin.0])
    requires |ms| > 0 && ms[0].dispatch < |erased| && ms[0].dispatch != region.begin.0
    ensures HeadStays(src, region, Lifted(erased, region, ms, entry)[region.begin.0])
  {
  }

  // ── From the emitters' contracts ─────────────────────────────────────

  lemma MachinesAreWithin(src: Blocks, blocks: Blocks, base: nat, locals: nat, region: Region, ms: seq<Machine>,
                          progress: LocalId, spans: seq<Span>)
    requires MachinesIn(src, blocks, base, locals, region, ms, progress, spans)
    ensures AllWithin(ms, |src|, |blocks|, locals) && |src| <= |blocks|
  {
    hide MachineShape, RegionsLeft, BeginsKept;
    forall i | 0 <= i < |ms|
      ensures Within(ms[i], |src|, |blocks|, locals)
    {
      assert MachineIn(src, blocks, base, region.coroutines[i], ms[i], progress, spans[i]);
    }
  }

  lemma StartsTidy(src: Blocks, base: nat, region: Region, locals: nat)
    requires SourceOk(src, base) && MarkersOk(src, region) && base <= locals
    ensures KeptTidy(src, region, src, locals)
  {
    hide SourceOk, OwnMarkers, Tidy;
    TidyStart(src, region, base);
    TidyMore(src, region, src, |src|, base, |src|, locals);
  }

  /** What the transform of a region leaves behind, whichever the executor. */
  lemma RegionLeaves(src: Blocks, base: nat, region: Region, blocks: Blocks, locals: nat, blocks1: Blocks, locals1: nat,
                     erased: Blocks, ms: seq<Machine>, progress: LocalId, spans: seq<Span>, entry: BlockId,
                       exit: BlockId, post: BlockId)
    requires MarkersOk(src, region) && BodiesOk(src, region) && |ms| == |region.coroutines|
    requires MachinesIn(src, blocks, base, locals, region, ms, progress, spans) && KeptTidy(src, region, blocks, locals)
    requires ms[0].dispatch == |src|
    requires ExecutorIn(blocks, blocks1, region, ms, exit, post) && Adds(blocks, blocks1, |src|, post, locals1)
             && locals <= locals1
    requires ErasedAt(blocks1, erased, MarkerSites(region)) && InRange(erased, region.begin)
             && |blocks| <= entry < |blocks1|
    ensures |erased| == |blocks1| && |src| < |blocks1| && region.begin.0 < |src|
    ensures OwnMarkers(src, region) ==> Leaves(src, base, region, Lifted(erased, region, ms, entry), locals1, |blocks1|)
  {
    hide MarkersOk, BodiesOk, MachinesIn, ExecutorIn, Adds, ErasedAt, OwnMarkers, MarkerSites, Lifted, Leaves, Tidy;
    BeginBelow(src, region);
    ErasedLength(blocks1, erased, region);
    MachinesAreWithin(src, blocks, base, locals, region, ms, progress, spans);
    SomeMachine(src, region);
    assert Within(ms[0], |src|, |blocks|, locals);
    ExecutorGrows(blocks, blocks1, region, ms, exit, post);
    if OwnMarkers(src, region) {
      ExecutorTidy(src, region, blocks, locals, blocks1, locals1, ms, exit, post);
      MachinesBase(src, blocks, base, locals, region, ms, progress, spans);
      forall i | 0 <= i < |ms|
        ensures ms[i].state < locals1
      {
        assert Within(ms[i], |src|, |blocks|, locals);
      }
      FinishedLeaves(src, base, region, blocks1, erased, locals1, ms, entry);
    }
  }

  lemma MachinesBase(src: Blocks, blocks: Blocks, base: nat, locals: nat, region: Region, ms: seq<Machine>,
                     progress: LocalId, spans: seq<Span>)
    requires MachinesIn(src, blocks, base, locals, region, ms, progress, spans)
    ensures base <= locals
  {
    hide MachineIn, RegionsLeft;
  }

  lemma SomeMachine(src: Blocks, region: Region)
    requires MarkersOk(src, region)
    ensures |region.coroutines| > 0
  {
  }

  lemma ErasedLength(blocks: Blocks, erased: Blocks, region: Region)
    requires ErasedAt(blocks, erased, MarkerSites(region))
    ensures |erased| == |blocks|
  {
    hide MarkerSites;
  }

  lemma ExecutorGrows(blocks: Blocks, blocks1: Blocks, region: Region, ms: seq<Machine>, exit: BlockId, post: BlockId)
    requires ExecutorIn(blocks, blocks1, region, ms, exit, post)
    ensures |blocks| <= |blocks1|
  {
    hide RegionsLeft;
  }

  lemma ExecutorTidy(src: Blocks, region: Region, blocks: Blocks, locals: nat, blocks1: Blocks, locals1: nat,
                     ms: seq<Machine>, exit: BlockId, post: BlockId)
    requires MarkersOk(src, region) && Tidy(src, region, blocks, |blocks|, locals)
             && AllWithin(ms, |src|, |blocks|, locals)
    requires ExecutorIn(blocks, blocks1, region, ms, exit, post) && Adds(blocks, blocks1, |src|, post, locals1)
             && locals <= locals1
    ensures Tidy(src, region, blocks1, |blocks1|, locals1)
  {
    TidyLength(src, region, blocks, |blocks|, locals);
    hide MarkersOk, RegionsLeft, Adds, Tidy;
    BeginBelow(src, region);
    forall b: nat | b < |src| && !Touched(src, region, b)
      ensures blocks1[b] == blocks[b]
    {
      forall k | 0 <= k < |ms|
        ensures ms[k].exit != b
      {
        assert Within(ms[k], |src|, |blocks|, locals);
      }
    }
    AddsTidy(src, region, blocks, blocks1, post, locals, locals1);
  }
}
