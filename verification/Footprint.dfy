/** What lowering a region leaves behind.

A region's transform rewrites the region's own blocks and adds new ones. `Tidy` says, block by
block, what may stand in them while the transform is under way: suspensions and markers only
where the source has them, locals that exist, and ways on to new blocks, to the region's own,
or to where one of those led before. Every edit keeps it, from the body as it was found to the
finished one, where it becomes `Leaves`: all that later rounds need to know of the region.
*/
module Footprint {
  import opened Cfg
  import opened Coroutines
  import opened Regions

  predicate IsMarker(s: Stmt) {
    s.RegionBegin? || s.RegionEnd? || s.CoroutineBegin? || s.CoroutineEnd?
  }

  /** A block the region's transform may rewrite. */
  ghost predicate Touched(src: Blocks, region: Region, b: BlockId) {
    b == region.begin.0 || b == region.end.0 || InSomeBody(src, region, b)
  }

  /** A marker of the region or of one of its coroutines. */
  predicate Marks(region: Region, s: (BlockId, nat)) {
    || s == region.begin || s == region.end
    || exists j :: 0 <= j < |region.coroutines| && (s == region.coroutines[j].begin || s == region.coroutines[j].end)
  }

  predicate HasMarker(blocks: Blocks, b: BlockId, i: nat) {
    b < |blocks| && i < |blocks[b].stmts| && IsMarker(blocks[b].stmts[i])
  }

  /** What precedes the region in its first block. */
  predicate BeforeRegion(region: Region, b: BlockId, i: nat) {
    b == region.begin.0 && i < region.begin.1
  }

  /** The region's blocks hold no markers but its own, and some that precede it. */
  ghost predicate OwnMarkers(src: Blocks, region: Region) {
    forall b, i :: HasMarker(src, b, i) && Touched(src, region, b) ==>
        BeforeRegion(region, b, i) || Marks(region, (b, i))
  }

  /** Some block of the region leads to `t`. */
  ghost predicate FromTouched(src: Blocks, region: Region, t: BlockId) {
    exists b :: 0 <= b < |src| && Touched(src, region, b) && t in Successors(src[b].term)
  }

  ghost predicate TidyStmt(src: Blocks, b: BlockId, i: nat, s: Stmt, locals: nat) {
    && UserStmt(s, locals)
    && (IsMarker(s) || Suspends(s) ==> b < |src| && i < |src[b].stmts| && src[b].stmts[i] == s)
  }

  /** Only the first dispatch may lead to the region's first block, until that is lifted. */
  ghost predicate TidyTarget(src: Blocks, region: Region, b: BlockId, t: BlockId, n: nat) {
    && t < n
    && (t < |src| ==>
          || FromTouched(src, region, t)
          || (Touched(src, region, t) && (t == region.begin.0 ==> b == |src| && SharesFirst(region))))
  }

  ghost predicate TidyTerm(src: Blocks, region: Region, b: BlockId, t: Term, n: nat, locals: nat) {
    && (Scrutinee(t).Some? ==> Scrutinee(t).value < locals)
    && forall next :: next in Successors(t) ==> TidyTarget(src, region, b, next, n)
  }

  ghost predicate TidyBlock(src: Blocks, region: Region, b: BlockId, block: Block<Stmt>, n: nat, locals: nat) {
    && (forall i :: 0 <= i < |block.stmts| ==> TidyStmt(src, b, i, block.stmts[i], locals))
    && TidyTerm(src, region, b, block.term, n, locals)
  }

  /** What precedes the region is still there. */
  ghost predicate HeadStays(src: Blocks, region: Region, block: Block<Stmt>) {
    region.begin.0 < |src| && region.begin.1 < |src[region.begin.0].stmts| && region.begin.1 <= |block.stmts|
    && forall i :: 0 <= i < region.begin.1 ==> block.stmts[i] == src[region.begin.0].stmts[i]
  }

  ghost predicate OffLimits(src: Blocks, region: Region, b: BlockId) {
    b < |src| && !Touched(src, region, b)
  }

  /** Blocks of a body whose transform is under way; it will have no more than `n`. */
  ghost predicate Tidy(src: Blocks, region: Region, blocks: Blocks, n: nat, locals: nat) {
    && |src| <= |blocks| <= n && region.begin.0 < |src| && HeadStays(src, region, blocks[region.begin.0])
    && forall b :: 0 <= b < |blocks| ==>
         if OffLimits(src, region, b) then blocks[b] == src[b] else TidyBlock(src, region, b, blocks[b], n, locals)
  }

  // ── Edits ────────────────────────────────────────────────────────────

  lemma TidyStart(src: Blocks, region: Region, base: nat)
    requires SourceOk(src, base) && region.begin.0 < |src| && region.begin.1 < |src[region.begin.0].stmts|
    ensures Tidy(src, region, src, |src|, base)
  {
    forall b: nat | b < |src| && Touched(src, region, b)
      ensures TidyBlock(src, region, b, src[b], |src|, base)
    {
      forall next | next in Successors(src[b].term)
        ensures TidyTarget(src, region, b, next, |src|)
      {
        assert FromTouched(src, region, next);
      }
    }
  }

  lemma TidyBlockMore(src: Blocks, region: Region, b: BlockId, block: Block<Stmt>, n: nat, locals: nat, n': nat,
                      locals': nat)
    requires TidyBlock(src, region, b, block, n, locals) && n <= n' && locals <= locals'
    ensures TidyBlock(src, region, b, block, n', locals')
  {
    hide Touched, FromTouched;
    forall next | next in Successors(block.term)
      ensures TidyTarget(src, region, b, next, n')
    {
      assert TidyTarget(src, region, b, next, n);
    }
    forall i | 0 <= i < |block.stmts|
      ensures TidyStmt(src, b, i, block.stmts[i], locals')
    {
      assert TidyStmt(src, b, i, block.stmts[i], locals);
    }
  }

  /** More blocks and locals may come. */
  lemma TidyMore(src: Blocks, region: Region, blocks: Blocks, n: nat, locals: nat, n': nat, locals': nat)
    requires Tidy(src, region, blocks, n, locals) && n <= n' && locals <= locals'
    ensures Tidy(src, region, blocks, n', locals')
  {
    hide Touched, TidyBlock;
    forall b: nat | b < |blocks| && !OffLimits(src, region, b)
      ensures TidyBlock(src, region, b, blocks[b], n', locals')
    {
      TidyBlockMore(src, region, b, blocks[b], n, locals, n', locals');
    }
  }

  lemma TidySet(src: Blocks, region: Region, blocks: Blocks, n: nat, locals: nat, b: BlockId, block: Block<Stmt>)
    requires Tidy(src, region, blocks, n, locals) && b < |blocks| && !OffLimits(src, region, b)
    requires TidyBlock(src, region, b, block, n, locals)
    requires b == region.begin.0 ==> HeadStays(src, region, block)
    ensures Tidy(src, region, blocks[b := block], n, locals)
  {
    hide OffLimits, TidyBlock;
  }

  lemma TidyAdd(src: Blocks, region: Region, blocks: Blocks, n: nat, locals: nat, block: Block<Stmt>)
    requires Tidy(src, region, blocks, n, locals) && |blocks| < n
    requires TidyBlock(src, region, |blocks|, block, n, locals)
    ensures Tidy(src, region, blocks + [block], n, locals)
  {
    hide TidyBlock, Touched;
  }

  /** Replacing a terminator. */
  lemma TidySetTerm(src: Blocks, region: Region, blocks: Blocks, n: nat, locals: nat, b: BlockId, t: Term)
    requires Tidy(src, region, blocks, n, locals) && b < |blocks| && !OffLimits(src, region, b)
    requires TidyTerm(src, region, b, t, n, locals)
    ensures Tidy(src, region, blocks[b := blocks[b].(term := t)], n, locals)
  {
    hide OffLimits, TidyTerm, TidyStmt;
    TidySet(src, region, blocks, n, locals, b, blocks[b].(term := t));
  }

  // ── Blocks of the transform's own ────────────────────────────────────

  predicate SystemStmt(s: Stmt, locals: nat) {
    UserStmt(s, locals) && !IsMarker(s) && !Suspends(s)
  }

  /** Goes to blocks in `lo..n`. */
  ghost predicate SystemTerm(t: Term, lo: nat, n: nat, locals: nat) {
    && (Scrutinee(t).Some? ==> Scrutinee(t).value < locals)
    && forall next :: next in Successors(t) ==> lo <= next < n
  }

  ghost predicate SystemBlock(block: Block<Stmt>, lo: nat, n: nat, locals: nat) {
    (forall i :: 0 <= i < |block.stmts| ==> SystemStmt(block.stmts[i], locals)) && SystemTerm(block.term, lo, n, locals)
  }

  lemma SystemTermIsTidy(src: Blocks, region: Region, b: BlockId, t: Term, n: nat, locals: nat)
    requires SystemTerm(t, |src|, n, locals)
    ensures TidyTerm(src, region, b, t, n, locals)
  {
    hide Touched, FromTouched;
  }

  lemma SystemIsTidy(src: Blocks, region: Region, b: BlockId, block: Block<Stmt>, n: nat, locals: nat)
    requires SystemBlock(block, |src|, n, locals)
    ensures TidyBlock(src, region, b, block, n, locals)
  {
    SystemTermIsTidy(src, region, b, block.term, n, locals);
    hide TidyTerm, SystemTerm;
  }

  /** `block` with its statements kept, and its terminator kept or the transform's own. */
  ghost predicate Rewired(was: Block<Stmt>, block: Block<Stmt>, lo: nat, n: nat, locals: nat) {
    block.stmts == was.stmts && (block.term == was.term || SystemTerm(block.term, lo, n, locals))
  }

  /** An executor has added blocks of its own to `blocks0` and rewired others; `post` aside. */
  ghost predicate Adds(blocks0: Blocks, blocks: Blocks, lo: nat, post: BlockId, locals: nat) {
    && lo <= |blocks0| <= |blocks|
    && forall b :: 0 <= b < |blocks| ==>
         || (b < |blocks0| && Rewired(blocks0[b], blocks[b], lo, |blocks|, locals))
         || (lo <= b && (b == post || SystemBlock(blocks[b], lo, |blocks|, locals)))
  }

  lemma RewiredMore(was: Block<Stmt>, block: Block<Stmt>, block': Block<Stmt>, lo: nat, n: nat, locals: nat, n': nat,
                    locals': nat)
    requires Rewired(was, block, lo, n, locals) && Rewired(block, block', lo, n', locals') && n <= n'
             && locals <= locals'
    ensures Rewired(was, block', lo, n', locals')
  {
  }

  lemma SystemMore(block: Block<Stmt>, block': Block<Stmt>, lo: nat, n: nat, locals: nat, n': nat, locals': nat)
    requires SystemBlock(block, lo, n, locals) && Rewired(block, block', lo, n', locals') && n <= n'
             && locals <= locals'
    ensures SystemBlock(block', lo, n', locals')
  {
    forall i | 0 <= i < |block'.stmts|
      ensures SystemStmt(block'.stmts[i], locals')
    {
      assert SystemStmt(block.stmts[i], locals);
    }
  }

  /** One addition after another. */
  lemma AddsMore(blocks0: Blocks, blocks: Blocks, blocks': Blocks, lo: nat, post: BlockId, locals: nat, locals': nat)
    requires Adds(blocks0, blocks, lo, post, locals) && Adds(blocks, blocks', lo, post, locals') && locals <= locals'
    ensures Adds(blocks0, blocks', lo, post, locals')
  {
    hide Rewired, SystemBlock;
    forall b: nat | b < |blocks'| && b != post
      ensures || (b < |blocks0| && Rewired(blocks0[b], blocks'[b], lo, |blocks'|, locals'))
              || (lo <= b && SystemBlock(blocks'[b], lo, |blocks'|, locals'))
    {
      if b < |blocks| && Rewired(blocks[b], blocks'[b], lo, |blocks'|, locals') {
        if b < |blocks0| && Rewired(blocks0[b], blocks[b], lo, |blocks|, locals) {
          RewiredMore(blocks0[b], blocks[b], blocks'[b], lo, |blocks|, locals, |blocks'|, locals');
        } else {
          SystemMore(blocks[b], blocks'[b], lo, |blocks|, locals, |blocks'|, locals');
        }
      }
    }
    AddsPost(blocks0, blocks, blocks', lo, post, locals, locals');
  }

  lemma AddsPost(blocks0: Blocks, blocks: Blocks, blocks': Blocks, lo: nat, post: BlockId, locals: nat, locals': nat)
    requires Adds(blocks0, blocks, lo, post, locals) && Adds(blocks, blocks', lo, post, locals') && locals <= locals'
    ensures post < |blocks'| && post < lo ==> Rewired(blocks0[post], blocks'[post], lo, |blocks'|, locals')
  {
    hide Rewired, SystemBlock;
    if post < |blocks'| && post < lo {
      RewiredMore(blocks0[post], blocks[post], blocks'[post], lo, |blocks|, locals, |blocks'|, locals');
    }
  }

  lemma AddsNothing(blocks: Blocks, lo: nat, post: BlockId, locals: nat)
    requires lo <= |blocks|
    ensures Adds(blocks, blocks, lo, post, locals)
  {
    hide SystemBlock, SystemTerm;
  }

  /** What an executor adds is tidy. */
  lemma AddsTidy(src: Blocks, region: Region, blocks0: Blocks, blocks: Blocks, post: BlockId, locals0: nat, locals: nat)
    requires Tidy(src, region, blocks0, |blocks0|, locals0) && Adds(blocks0, blocks, |src|, post, locals)
             && locals0 <= locals
    requires forall b: nat :: b < |src| && !Touched(src, region, b) ==> blocks[b] == blocks0[b]
    requires |src| <= post < |blocks| && blocks[post].stmts == []
    requires FromBlock(src, region, blocks0, blocks[post].term)
    ensures Tidy(src, region, blocks, |blocks|, locals)
  {
    hide Rewired, SystemBlock, TidyBlock, Touched, FromBlock;
    forall b: nat | b < |blocks| && !OffLimits(src, region, b)
      ensures TidyBlock(src, region, b, blocks[b], |blocks|, locals)
    {
      if b == post {
        PostIsTidy(src, region, blocks0, post, blocks[post], |blocks|, locals0, locals);
      } else if b < |blocks0| && Rewired(blocks0[b], blocks[b], |src|, |blocks|, locals) {
        RewiredIsTidy(src, region, b, blocks0[b], blocks[b], |blocks0|, locals0, |blocks|, locals);
      } else {
        SystemIsTidy(src, region, b, blocks[b], |blocks|, locals);
      }
    }
    HeadRewired(src, region, blocks0, blocks, post, locals);
  }

  /** `t` is the terminator of one of the region's blocks. */
  ghost predicate FromBlock(src: Blocks, region: Region, blocks0: Blocks, t: Term) {
    region.end.0 < |src| <= |blocks0| && blocks0[region.end.0].term == t
  }

  lemma PostIsTidy(src: Blocks, region: Region, blocks0: Blocks, post: BlockId, block: Block<Stmt>, n: nat,
                   locals0: nat, locals: nat)
    requires Tidy(src, region, blocks0, |blocks0|, locals0) && FromBlock(src, region, blocks0, block.term)
             && block.stmts == []
    requires |blocks0| <= n && locals0 <= locals
    ensures TidyBlock(src, region, post, block, n, locals)
  {
    hide InSomeBody;
    var b := region.end.0;
    assert TidyBlock(src, region, b, blocks0[b], |blocks0|, locals0);
    forall next | next in Successors(block.term)
      ensures TidyTarget(src, region, post, next, n)
    {
      assert TidyTarget(src, region, b, next, |blocks0|);
    }
  }

  lemma RewiredIsTidy(src: Blocks, region: Region, b: BlockId, was: Block<Stmt>, block: Block<Stmt>, n: nat,
                      locals: nat, n': nat, locals': nat)
    requires TidyBlock(src, region, b, was, n, locals) && Rewired(was, block, |src|, n', locals') && n <= n'
             && locals <= locals'
    ensures TidyBlock(src, region, b, block, n', locals')
  {
    TidyBlockMore(src, region, b, was, n, locals, n', locals');
    if block.term != was.term {
      SystemTermIsTidy(src, region, b, block.term, n', locals');
    }
    hide TidyTerm, TidyStmt, SystemTerm;
  }

  lemma HeadRewired(src: Blocks, region: Region, blocks0: Blocks, blocks: Blocks, post: BlockId, locals: nat)
    requires |src| <= |blocks0| <= |blocks| && region.begin.0 < |src| && HeadStays(src, region, blocks0[region.begin.0])
    requires Adds(blocks0, blocks, |src|, post, locals)
    ensures HeadStays(src, region, blocks[region.begin.0])
  {
    hide SystemBlock, SystemTerm;
  }

  // ── What is left behind ──────────────────────────────────────────────

  /** A statement of a finished block. Of the region's first block only what preceded the region
      is left; the rest of it is in block `lifted`. */
  ghost predicate LeftStmt(src: Blocks, region: Region, lifted: BlockId, b: BlockId, i: nat, s: Stmt, locals: nat) {
    && UserStmt(s, locals)
    && (IsMarker(s) ==> BeforeRegion(region, b, i))
    && (Suspends(s) ==>
          if b == lifted then HasStmt(src, region.begin.0, region.begin.1 + 1 + i, s)
          else HasStmt(src, b, i, s) && (b == region.begin.0 ==> i < region.begin.1))
  }

  ghost predicate HasStmt(src: Blocks, b: BlockId, i: nat, s: Stmt) {
    b < |src| && i < |src[b].stmts| && src[b].stmts[i] == s
  }

  ghost predicate LeftTarget(src: Blocks, region: Region, t: BlockId, n: nat) {
    t < n && (t < |src| ==> FromTouched(src, region, t) || (Touched(src, region, t) && t != region.begin.0))
  }

  ghost predicate LeftBlock(src: Blocks, region: Region, lifted: BlockId, b: BlockId, block: Block<Stmt>, n: nat,
                            locals: nat) {
    && (forall i :: 0 <= i < |block.stmts| ==> LeftStmt(src, region, lifted, b, i, block.stmts[i], locals))
    && (Scrutinee(block.term).Some? ==> Scrutinee(block.term).value < locals)
    && (forall next :: next in Successors(block.term) ==> LeftTarget(src, region, next, n))
  }

  /** `out` is `src` with `region` lowered: the region's blocks and the new ones hold no marker of
      the region, no suspension that was not there, and lead nowhere the region did not lead. */
  ghost predicate Leaves(src: Blocks, base: nat, region: Region, out: Blocks, locals: nat, lifted: BlockId) {
    && base <= locals && |src| <= lifted < |out| && region.begin.0 < |src|
    && HeadStays(src, region, out[region.begin.0])
    && forall b :: 0 <= b < |out| ==>
         if OffLimits(src, region, b) then out[b] == src[b]
           else LeftBlock(src, region, lifted, b, out[b], |out|, locals)
  }
}
