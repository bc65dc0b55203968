/** Erasing the markers and lifting the first block leaves every machine what it was.

When an executor is finished, every marker of its region becomes a no-op, the region's first
block is cut behind the region's marker and its tail lifted into a block of its own, and the
dispatch of the first machine is retargeted if its coroutine began there. Each of these edits
touches blocks that some machine's shape speaks of. Here it is shown edit by edit, for the
machine whose coroutine shares the first block and for all others, that the machine that
comes out has the same shape, entered where it should be, and that code outside the region is
as it was. What follows a coroutine's end, or precedes its begin, plays no part in its machine.
*/
module Assembly {
  import opened Cfg
  import opened Coroutines
  import opened Regions
  import opened Machines
  import opened Fleets
  import opened Executors
  import opened Discovery
  import opened Lowering
  import opened Emission
  import opened Finishing

  /** Every machine in its span, whatever its exit leads to. */
  ghost predicate Housed(src: Blocks, blocks: Blocks, base: nat, co: Coroutine, m: Machine, progress: LocalId,
                         s: Span) {
    && |src| <= s.lo && s.hi <= |blocks| && progress < s.locals0 && m.progress == progress
    && MachineShape(src, blocks, base, co, m, co.begin.0, 0)
    && MachineWithin(m, s.lo, s.hi, s.locals0, s.locals)
  }

  ghost predicate InNoBody(src: Blocks, region: Region, b: BlockId) {
    forall i :: 0 <= i < |region.coroutines| ==> b !in BodyOf(src, region.coroutines[i])
  }

  /** Machines and executor in place, markers and first block still as they were. */
  ghost predicate Assembled(src: Blocks, blocks: Blocks, base: nat, locals: nat, region: Region, ms: seq<Machine>,
                            progress: LocalId, spans: seq<Span>) {
    && |ms| == |spans| == |region.coroutines| && |src| <= |blocks| && base <= progress
    && SpansInOrder(spans, |blocks|, locals)
    && (forall i :: 0 <= i < |ms| ==> Housed(src, blocks, base, region.coroutines[i], ms[i], progress, spans[i]))
    && (forall b: nat :: b < |src| && InNoBody(src, region, b) && b != region.end.0 ==> blocks[b] == src[b])
    && region.end.0 < |src| && blocks[region.end.0].stmts == src[region.end.0].stmts
  }

  // ── Markers ──────────────────────────────────────────────────────────

  lemma CoroutineMarkersOk(src: Blocks, region: Region, co: Coroutine)
    requires CoroutineOk(src, region, co)
    ensures InRange(src, co.begin) && Structural(src[co.begin.0].stmts[co.begin.1])
    ensures InRange(src, co.end) && Structural(src[co.end.0].stmts[co.end.1])
    ensures co.begin.0 in BodyOf(src, co) && co.end.0 in BodyOf(src, co)
    ensures region.end.0 !in BodyOf(src, co) && (region.begin.0 in BodyOf(src, co) ==> region.begin.0 == co.begin.0)
    ensures if co.begin.0 == region.begin.0 then co.begin.1 == region.begin.1 + 1 else co.begin.1 == 0
  {
    BeginInBody(src, co);
  }

  /** Every marker site of the region holds a marker. */
  lemma MarkerIsStructural(src: Blocks, region: Region, s: Site)
    requires MarkersOk(src, region) && BodiesOk(src, region) && s in MarkerSites(region)
    ensures InRange(src, s) && Structural(src[s.0].stmts[s.1])
    ensures s.0 == region.begin.0 || s.0 == region.end.0 || !InNoBody(src, region, s.0)
  {
    hide CoroutineOk, BodyOf;
    if s != region.begin && s != region.end {
      assert s in CoroutineMarkers(region.coroutines);
      MarkerOfSome(region.coroutines, s);
      var i :| 0 <= i < |region.coroutines| && (s == region.coroutines[i].begin || s == region.coroutines[i].end);
      CoroutineMarkersOk(src, region, region.coroutines[i]);
    }
  }

  /** Erasure as the source's blocks see it. */
  ghost predicate ErasedBlock(src: Blocks, b: BlockId, before: Block<Stmt>, after: Block<Stmt>) {
    && after.term == before.term && |after.stmts| == |before.stmts|
    && forall i :: 0 <= i < |before.stmts| ==>
         || after.stmts[i] == before.stmts[i]
         || (b < |src| && i < |src[b].stmts| && Structural(src[b].stmts[i]) && after.stmts[i] == Nop)
  }

  lemma ErasureOf(src: Blocks, blocks: Blocks, erased: Blocks, region: Region, b: BlockId)
    requires MarkersOk(src, region) && BodiesOk(src, region)
    requires ErasedAt(blocks, erased, MarkerSites(region)) && b < |blocks|
    ensures ErasedBlock(src, b, blocks[b], erased[b])
    ensures |src| <= b ==> erased[b] == blocks[b]
    ensures b != region.begin.0 && b != region.end.0 && InNoBody(src, region, b) ==> erased[b] == blocks[b]
  {
    hide MarkersOk, BodiesOk, InNoBody, MarkerSites;
    forall i | 0 <= i < |blocks[b].stmts| && (b, i) in MarkerSites(region)
      ensures InRange(src, (b, i)) && Structural(src[b].stmts[i])
      ensures b == region.begin.0 || b == region.end.0 || !InNoBody(src, region, b)
    {
      MarkerIsStructural(src, region, (b, i));
    }
    if |src| <= b || (b != region.begin.0 && b != region.end.0 && InNoBody(src, region, b)) {
      assert erased[b].stmts == blocks[b].stmts;
    }
  }

  // ── Erasing ──────────────────────────────────────────────────────────

  lemma ErasedLike(src: Blocks, blocks: Blocks, erased: Blocks, b: BlockId, k: nat, t: Term)
    requires b < |src| && k <= |src[b].stmts| && b < |erased|
    requires IsLike(blocks, b, src[b].stmts[0..k], t) && ErasedBlock(src, b, blocks[b], erased[b])
    ensures IsLike(erased, b, src[b].stmts[0..k], t)
  {
    forall i | 0 <= i < k
      ensures src[b].stmts[0..k][i] == erased[b].stmts[i]
              || (Structural(src[b].stmts[0..k][i]) && erased[b].stmts[i] == Nop)
    {
      assert src[b].stmts[0..k][i] == src[b].stmts[i];
      assert src[b].stmts[0..k][i] == blocks[b].stmts[i]
             || (Structural(src[b].stmts[0..k][i]) && blocks[b].stmts[i] == Nop);
    }
  }

  lemma ErasedCut(src: Blocks, blocks: Blocks, erased: Blocks, m: Machine, code: int, c: Cut)
    requires c.bb < |src| && CutShape(src[c.bb], 0, c.bb, blocks, m, code, c)
    requires |blocks| == |erased| && c.bb < |blocks| && ErasedBlock(src, c.bb, blocks[c.bb], erased[c.bb])
    requires forall b :: |src| <= b < |blocks| ==> erased[b] == blocks[b]
    requires |src| <= c.pause && |src| <= c.resume && |src| <= c.blocked
    requires |src| <= c.guard || (c.guard == c.bb && c.idx == 0)
    ensures CutShape(src[c.bb], 0, c.bb, erased, m, code, c)
  {
    var stmts := src[c.bb].stmts;
    if stmts[c.idx].GuardedRecv? {
      if c.idx == 0 {
        assert erased[c.bb].stmts == blocks[c.bb].stmts;
      } else {
        ErasedLike(src, blocks, erased, c.bb, c.idx, Goto(c.guard));
      }
    } else {
      ErasedLike(src, blocks, erased, c.bb, c.idx + 1, Goto(c.pause));
    }
  }

  lemma ErasedMachine(src: Blocks, blocks: Blocks, erased: Blocks, base: nat, co: Coroutine, m: Machine,
                      progress: LocalId, s: Span)
    requires Housed(src, blocks, base, co, m, progress, s) && |blocks| == |erased|
    requires forall b :: 0 <= b < |blocks| ==> ErasedBlock(src, b, blocks[b], erased[b])
    requires forall b :: |src| <= b < |blocks| ==> erased[b] == blocks[b]
    ensures Housed(src, erased, base, co, m, progress, s)
  {
    hide BodyOf, CutShape, ErasedBlock, IsLike, LocalsOk;
    forall i | 0 <= i < |m.cuts|
      ensures CutShape(src[m.cuts[i].bb], FromOf(co, 0, m.cuts[i].bb), HeadOf(co, co.begin.0, m.cuts[i].bb), erased, m,
                       i + 1, m.cuts[i])
    {
      assert CutWithin(m.cuts[i], s.lo + 2, s.hi);
      ErasedCut(src, blocks, erased, m, i + 1, m.cuts[i]);
    }
    forall b | b in BodyOf(src, co) && !IsCutAt(m, b)
      ensures PlainShape(src, erased, co, m, co.begin.0, 0, b)
    {
      assert PlainShape(src, blocks, co, m, co.begin.0, 0, b);
      assert src[b].stmts[0..] == src[b].stmts[0..|src[b].stmts|];
      ErasedLike(src, blocks, erased, b, |src[b].stmts|, if b == co.end.0 then Goto(m.done) else src[b].term);
    }
  }

  // ── Lifting ──────────────────────────────────────────────────────────

  lemma LiftedLike(src: Blocks, erased: Blocks, out: Blocks, b: BlockId, lifted: BlockId, from: nat, k: nat, t: Term)
    requires b < |src| && from <= k <= |src[b].stmts| && lifted < |out|
    requires IsLike(erased, b, src[b].stmts[0..k], t)
    requires out[lifted] == Block(erased[b].stmts[from..], erased[b].term)
    ensures IsLike(out, lifted, src[b].stmts[from..k], t)
  {
    var a, a', x, y := src[b].stmts[0..k], src[b].stmts[from..k], erased[b].stmts, out[lifted].stmts;
    assert a' == a[from..];
    forall i | 0 <= i < |a'|
      ensures a'[i] == y[i] || (Structural(a'[i]) && y[i] == Nop)
    {
      assert a'[i] == a[i + from] && y[i] == x[i + from];
    }
  }

  /** A cut of the first block, once the block's head is lifted. */
  lemma LiftedCut(src: Blocks, erased: Blocks, out: Blocks, from: nat, lifted: BlockId, m: Machine, code: int, c: Cut)
    requires c.bb < |src| && c.bb < |erased| && CutShape(src[c.bb], 0, c.bb, erased, m, code, c) && from < c.idx
    requires |erased| <= lifted < |out| && from <= |erased[c.bb].stmts|
    requires out[lifted] == Block(erased[c.bb].stmts[from..], erased[c.bb].term)
    requires forall b: nat :: b in {c.pause, c.resume, c.blocked, c.guard} && b < |erased| ==> out[b] == erased[b]
    ensures CutShape(src[c.bb], from, lifted, out, m, code, c)
  {
    assert c.pause in {c.pause, c.resume, c.blocked, c.guard} && c.resume in {c.pause, c.resume, c.blocked, c.guard};
    assert c.blocked in {c.pause, c.resume, c.blocked, c.guard} && c.guard in {c.pause, c.resume, c.blocked, c.guard};
    if src[c.bb].stmts[c.idx].GuardedRecv? {
      LiftedLike(src, erased, out, c.bb, lifted, from, c.idx, Goto(c.guard));
    } else {
      LiftedLike(src, erased, out, c.bb, lifted, from, c.idx + 1, Goto(c.pause));
    }
  }

  lemma RedirectedTargets(m: Machine, rb: BlockId, lifted: BlockId)
    requires m.exit != rb && forall i :: 0 <= i < |m.cuts| ==> m.cuts[i].reentry != rb
    ensures Redirect(Switch(m.state, Targets(rb, m.cuts), m.exit), rb, lifted)
            == Switch(m.state, Targets(lifted, m.cuts), m.exit)
  {
    var before, after := Targets(rb, m.cuts), Targets(lifted, m.cuts);
    var t := Redirect(Switch(m.state, before, m.exit), rb, lifted);
    assert |t.targets| == |after|;
    forall i | 0 <= i < |after|
      ensures t.targets[i] == after[i]
    {
      if i > 0 {
        assert before[i] == (i, m.cuts[i - 1].reentry);
      }
    }
  }

  /** A cut resumes in a block of its own, or at the head of a block it did not begin. */
  lemma ReentryIs(src: Block<Stmt>, from: nat, head: BlockId, out: Blocks, m: Machine, code: int, c: Cut)
    requires CutShape(src, from, head, out, m, code, c)
    ensures c.reentry == c.guard || c.reentry == c.resume
  {
  }

  /** In the begin block a suspension comes after the marker. */
  lemma CutAfterBegin(src: Blocks, out: Blocks, region: Region, co: Coroutine, m: Machine, entry: BlockId, start: nat,
                      i: nat)
    requires CoroutineOk(src, region, co) && CutsOk(src, out, co, m, entry, start) && i < |m.cuts|
    ensures m.cuts[i].bb in BodyOf(src, co) && m.cuts[i].bb < |src|
    ensures StartOf(co, m.cuts[i].bb) <= m.cuts[i].idx < |src[m.cuts[i].bb].stmts|
    ensures m.cuts[i].bb == co.begin.0 ==> co.begin.1 < m.cuts[i].idx
    ensures m.cuts[i].bb != co.end.0
  {
    hide CutShape, BodyOf;
    var c := m.cuts[i];
    CutSuspends(src[c.bb], FromOf(co, start, c.bb), HeadOf(co, entry, c.bb), out, m, i + 1, c);
    NotTheEnd(src, region, co, c.bb, c.idx);
  }

  lemma LiftedCuts(src: Blocks, erased: Blocks, out: Blocks, region: Region, co: Coroutine, m: Machine, s: Span)
    requires CoroutineOk(src, region, co) && co.begin.0 == region.begin.0
    requires CutsOk(src, erased, co, m, co.begin.0, 0) && MachineWithin(m, s.lo, s.hi, s.locals0, s.locals)
    requires |src| <= s.lo && s.hi <= |erased| < |out| && co.begin.0 < |src| && co.begin.1 <= |erased[co.begin.0].stmts|
    requires out[|erased|] == Block(erased[co.begin.0].stmts[co.begin.1..], erased[co.begin.0].term)
    requires forall b: nat :: b < |erased| && b != co.begin.0 && b != m.dispatch ==> out[b] == erased[b]
    ensures CutsOk(src, out, co, m, |erased|, co.begin.1)
    ensures forall i :: 0 <= i < |m.cuts| ==> m.cuts[i].reentry != co.begin.0
  {
    hide CoroutineOk, BodyOf, CutShape;
    forall i | 0 <= i < |m.cuts|
      ensures CutShape(src[m.cuts[i].bb], FromOf(co, co.begin.1, m.cuts[i].bb), HeadOf(co, |erased|, m.cuts[i].bb), out,
                       m, i + 1, m.cuts[i])
      ensures m.cuts[i].reentry != co.begin.0
    {
      var c := m.cuts[i];
      CutAfterBegin(src, erased, region, co, m, co.begin.0, 0, i);
      assert CutWithin(c, s.lo + 2, s.hi);
      ReentryIs(src[c.bb], 0, c.bb, erased, m, i + 1, c);
      if c.bb == co.begin.0 {
        LiftedCut(src, erased, out, co.begin.1, |erased|, m, i + 1, c);
      } else {
        CutShapeKept(src[c.bb], 0, c.bb, erased, out, m, i + 1, c);
      }
    }
  }

  lemma LiftedPlain(src: Blocks, erased: Blocks, out: Blocks, co: Coroutine, m: Machine, b: BlockId)
    requires b in BodyOf(src, co) && PlainShape(src, erased, co, m, co.begin.0, 0, b)
    requires |src| <= |erased| < |out| && |src| <= m.dispatch && co.begin.0 < |src|
    requires co.begin.1 <= |src[co.begin.0].stmts| && co.begin.1 <= |erased[co.begin.0].stmts|
    requires out[|erased|] == Block(erased[co.begin.0].stmts[co.begin.1..], erased[co.begin.0].term)
    requires forall b: nat :: b < |erased| && b != co.begin.0 && b != m.dispatch ==> out[b] == erased[b]
    ensures PlainShape(src, out, co, m, |erased|, co.begin.1, b)
  {
    hide BodyOf;
    if b == co.begin.0 {
      var n := |src[b].stmts|;
      assert src[b].stmts[0..] == src[b].stmts[0..n] && src[b].stmts[co.begin.1..] == src[b].stmts[co.begin.1..n];
      LiftedLike(src, erased, out, b, |erased|, co.begin.1, n, if b == co.end.0 then Goto(m.done) else src[b].term);
    }
  }

  /** The machine of a coroutine that shares the region's first block enters at the lifted block. */
  lemma LiftedMachine(src: Blocks, erased: Blocks, out: Blocks, base: nat, region: Region, co: Coroutine, m: Machine,
                      progress: LocalId, s: Span)
    requires CoroutineOk(src, region, co) && co.begin.0 == region.begin.0
    requires Housed(src, erased, base, co, m, progress, s) && |erased| < |out|
             && co.begin.1 <= |erased[co.begin.0].stmts|
    requires out[|erased|] == Block(erased[co.begin.0].stmts[co.begin.1..], erased[co.begin.0].term)
    requires out[m.dispatch] == erased[m.dispatch].(term := Redirect(erased[m.dispatch].term, co.begin.0, |erased|))
    requires forall b: nat :: b < |erased| && b != co.begin.0 && b != m.dispatch ==> out[b] == erased[b]
    ensures MachineShape(src, out, base, co, m, |erased|, co.begin.1)
  {
    hide CoroutineOk, BodyOf, CutsOk, PlainShape, LocalsOk;
    CoroutineMarkersOk(src, region, co);
    LiftedCuts(src, erased, out, region, co, m, s);
    forall b | b in BodyOf(src, co) && !IsCutAt(m, b)
      ensures PlainShape(src, out, co, m, |erased|, co.begin.1, b)
    {
      LiftedPlain(src, erased, out, co, m, b);
    }
    if |m.cuts| > 0 {
      RedirectedTargets(m, co.begin.0, |erased|);
    }
    CutsFew(src, out, co, m, |erased|, co.begin.1);
  }

  lemma CutsFew(src: Blocks, out: Blocks, co: Coroutine, m: Machine, entry: BlockId, start: nat)
    requires CutsOk(src, out, co, m, entry, start)
    ensures |m.cuts| < DONE_STATE
  {
    hide CutShape;
  }

  /** Any other machine is out of the way. */
  lemma KeptMachine(src: Blocks, erased: Blocks, out: Blocks, base: nat, region: Region, co: Coroutine, m: Machine,
                    progress: LocalId, s: Span, dispatch: BlockId)
    requires CoroutineOk(src, region, co) && co.begin.0 != region.begin.0
    requires Housed(src, erased, base, co, m, progress, s) && |erased| < |out| && region.begin.0 < |src|
    requires forall b: nat :: b < |erased| && b != region.begin.0 && b != dispatch ==> out[b] == erased[b]
    requires |src| <= dispatch < |erased| && (s.lo <= dispatch < s.hi ==> out[dispatch] == erased[dispatch])
    ensures MachineShape(src, out, base, co, m, co.begin.0, co.begin.1)
  {
    hide BodyOf, MachineShape, CoroutineOk, MachineWithin;
    CoroutineMarkersOk(src, region, co);
    assert forall b :: b in BodyOf(src, co) ==> b < |src|;
    ExitIsHigh(m, s);
    MachineKept(src, erased, out, base, co, m, co.begin.0, 0, s.lo, s.hi, s.locals0, s.locals);
  }

  lemma ExitIsHigh(m: Machine, s: Span)
    requires MachineWithin(m, s.lo, s.hi, s.locals0, s.locals)
    ensures m.exit == s.lo + 1 && m.dispatch == s.lo && s.lo + 2 < s.hi
  {
  }

  // ── The markers are where they were ──────────────────────────────────

  /** The head of the begin block still holds the begin marker, and the end block is whole. */
  lemma HeadsKeepMarkers(src: Blocks, blocks: Blocks, base: nat, region: Region, co: Coroutine, m: Machine,
                         progress: LocalId, s: Span)
    requires CoroutineOk(src, region, co) && Housed(src, blocks, base, co, m, progress, s)
    ensures InRange(blocks, co.begin) && InRange(blocks, co.end) && |src| <= |blocks|
    ensures Alike(src[co.begin.0].stmts[..co.begin.1 + 1], blocks[co.begin.0].stmts[..co.begin.1 + 1])
  {
    hide BodyOf, CoroutineOk, CutShape, LocalsOk, DispatchShape;
    CoroutineMarkersOk(src, region, co);
    EndIsWhole(src, blocks, base, region, co, m, progress, s);
    if IsCutAt(m, co.begin.0) {
      var i :| 0 <= i < |m.cuts| && m.cuts[i].bb == co.begin.0;
      CutAfterBegin(src, blocks, region, co, m, co.begin.0, 0, i);
      CutHead(src[co.begin.0], co.begin.0, blocks, m, i + 1, m.cuts[i], co.begin.1 + 1);
    } else {
      assert PlainShape(src, blocks, co, m, co.begin.0, 0, co.begin.0);
    }
  }

  lemma EndIsWhole(src: Blocks, blocks: Blocks, base: nat, region: Region, co: Coroutine, m: Machine, progress: LocalId,
                   s: Span)
    requires CoroutineOk(src, region, co) && Housed(src, blocks, base, co, m, progress, s)
    ensures InRange(blocks, co.end)
  {
    hide BodyOf, CoroutineOk, CutShape, LocalsOk, DispatchShape;
    CoroutineMarkersOk(src, region, co);
    forall i | 0 <= i < |m.cuts|
      ensures m.cuts[i].bb != co.end.0
    {
      CutAfterBegin(src, blocks, region, co, m, co.begin.0, 0, i);
    }
    assert PlainShape(src, blocks, co, m, co.begin.0, 0, co.end.0);
  }

  /** A cut leaves what precedes it where it was. */
  lemma CutHead(src: Block<Stmt>, b: BlockId, blocks: Blocks, m: Machine, code: int, c: Cut, k: nat)
    requires CutShape(src, 0, b, blocks, m, code, c) && 0 < k <= c.idx
    ensures b < |blocks| && k <= |blocks[b].stmts| && k <= |src.stmts|
    ensures Alike(src.stmts[..k], blocks[b].stmts[..k])
  {
    var n := if src.stmts[c.idx].GuardedRecv? then c.idx else c.idx + 1;
    assert Alike(src.stmts[0..n], blocks[b].stmts);
    forall i | 0 <= i < k
      ensures src.stmts[..k][i] == blocks[b].stmts[..k][i]
              || (Structural(src.stmts[..k][i]) && blocks[b].stmts[..k][i] == Nop)
    {
      assert src.stmts[0..n][i] == src.stmts[..k][i];
    }
  }

  lemma HousedAt(src: Blocks, blocks: Blocks, base: nat, locals: nat, region: Region, ms: seq<Machine>,
                 progress: LocalId, spans: seq<Span>, i: nat)
    requires Assembled(src, blocks, base, locals, region, ms, progress, spans) && i < |ms|
    ensures |ms| == |spans| == |region.coroutines|
    ensures Housed(src, blocks, base, region.coroutines[i], ms[i], progress, spans[i])
  {
    hide Housed;
  }

  /** The region's first block still holds the region's marker. */
  lemma FirstBlockHead(src: Blocks, blocks: Blocks, base: nat, locals: nat, region: Region, ms: seq<Machine>,
                       progress: LocalId, spans: seq<Span>)
    requires MarkersOk(src, region) && BodiesOk(src, region)
    requires Assembled(src, blocks, base, locals, region, ms, progress, spans)
    ensures InRange(blocks, region.begin) && |src| <= |blocks| && InRange(src, region.begin)
    ensures Alike(src[region.begin.0].stmts[..region.begin.1 + 1], blocks[region.begin.0].stmts[..region.begin.1 + 1])
    ensures forall i :: 0 <= i < |region.coroutines| && region.coroutines[i].begin.0 == region.begin.0 ==>
              region.coroutines[i].begin.1 <= |blocks[region.begin.0].stmts|
  {
    hide BodyOf, CoroutineOk, Housed;
    var rb := region.begin.0;
    forall i | 0 <= i < |region.coroutines|
      ensures region.coroutines[i].begin.0 == rb ==> region.coroutines[i].begin.1 <= |blocks[rb].stmts|
    {
      HousedAt(src, blocks, base, locals, region, ms, progress, spans, i);
      HeadsKeepMarkers(src, blocks, base, region, region.coroutines[i], ms[i], progress, spans[i]);
    }
    if InNoBody(src, region, rb) {
      assert blocks[rb] == src[rb];
    } else {
      var i :| 0 <= i < |region.coroutines| && rb in BodyOf(src, region.coroutines[i]);
      var co := region.coroutines[i];
      CoroutineMarkersOk(src, region, co);
      HousedAt(src, blocks, base, locals, region, ms, progress, spans, i);
      HeadsKeepMarkers(src, blocks, base, region, co, ms[i], progress, spans[i]);
      AlikePrefix(src[rb].stmts, blocks[rb].stmts, co.begin.1 + 1, region.begin.1 + 1);
    }
  }

  lemma AlikePrefix(a: seq<Stmt>, b: seq<Stmt>, k: nat, j: nat)
    requires j <= k <= |a| && k <= |b| && Alike(a[..k], b[..k])
    ensures Alike(a[..j], b[..j])
  {
    forall i | 0 <= i < j
      ensures a[..j][i] == b[..j][i] || (Structural(a[..j][i]) && b[..j][i] == Nop)
    {
      assert a[..k][i] == a[..j][i] && b[..k][i] == b[..j][i];
    }
  }

  lemma MarkersStillThere(src: Blocks, blocks: Blocks, base: nat, locals: nat, region: Region, ms: seq<Machine>,
                          progress: LocalId, spans: seq<Span>)
    requires MarkersOk(src, region) && BodiesOk(src, region)
    requires Assembled(src, blocks, base, locals, region, ms, progress, spans)
    ensures AllInRange(blocks, MarkerSites(region))
  {
    hide BodyOf, CoroutineOk, Housed, MarkerSites;
    forall s | s in MarkerSites(region)
      ensures InRange(blocks, s)
    {
      MarkerStillThere(src, blocks, base, locals, region, ms, progress, spans, s);
    }
  }

  lemma MarkerStillThere(src: Blocks, blocks: Blocks, base: nat, locals: nat, region: Region, ms: seq<Machine>,
                         progress: LocalId, spans: seq<Span>, s: Site)
    requires MarkersOk(src, region) && BodiesOk(src, region) && s in MarkerSites(region)
    requires Assembled(src, blocks, base, locals, region, ms, progress, spans)
    ensures InRange(blocks, s)
  {
    hide BodyOf, CoroutineOk, Housed;
    FirstBlockHead(src, blocks, base, locals, region, ms, progress, spans);
    if s != region.begin && s != region.end {
      assert s in CoroutineMarkers(region.coroutines);
      MarkerOfSome(region.coroutines, s);
      var i :| 0 <= i < |region.coroutines| && (s == region.coroutines[i].begin || s == region.coroutines[i].end);
      HousedAt(src, blocks, base, locals, region, ms, progress, spans, i);
      HeadsKeepMarkers(src, blocks, base, region, region.coroutines[i], ms[i], progress, spans[i]);
    }
  }

  // ── All together ─────────────────────────────────────────────────────

  lemma ErasedAssembled(src: Blocks, blocks: Blocks, erased: Blocks, base: nat, locals: nat, region: Region,
                        ms: seq<Machine>, progress: LocalId, spans: seq<Span>)
    requires MarkersOk(src, region) && BodiesOk(src, region)
    requires Assembled(src, blocks, base, locals, region, ms, progress, spans)
    requires ErasedAt(blocks, erased, MarkerSites(region))
    ensures forall i :: 0 <= i < |ms| ==> Housed(src, erased, base, region.coroutines[i], ms[i], progress, spans[i])
    ensures forall b :: |src| <= b < |blocks| ==> erased[b] == blocks[b]
  {
    hide MarkersOk, BodiesOk, Housed, ErasedBlock, MarkerSites, BodyOf;
    assert |erased| == |blocks|;
    forall b | 0 <= b < |blocks|
      ensures ErasedBlock(src, b, blocks[b], erased[b])
      ensures |src| <= b ==> erased[b] == blocks[b]
    {
      ErasureOf(src, blocks, erased, region, b);
    }
    forall i | 0 <= i < |ms|
      ensures Housed(src, erased, base, region.coroutines[i], ms[i], progress, spans[i])
    {
      ErasedMachine(src, blocks, erased, base, region.coroutines[i], ms[i], progress, spans[i]);
    }
  }

  /** What lifting does, block by block. */
  lemma LiftedBlocks(erased: Blocks, region: Region, ms: seq<Machine>, entry: BlockId)
    requires InRange(erased, region.begin)
    requires |ms| > 0 && ms[0].dispatch < |erased| && ms[0].dispatch != region.begin.0
    ensures var out := Lifted(erased, region, ms, entry); var rb := region.begin.0; var d := ms[0].dispatch;
            && |out| == |erased| + 1
            && out[|erased|] == Block(erased[rb].stmts[region.begin.1 + 1..], erased[rb].term)
            && (forall b: nat :: b < |erased| && b != rb && b != d ==> out[b] == erased[b])
            && (SharesFirst(region) ==> out[d] == erased[d].(term := Redirect(erased[d].term, rb, |erased|)))
            && (!SharesFirst(region) ==> out[d] == erased[d])
            && out[rb] == Block(erased[rb].stmts[..region.begin.1 + 1] + Inits(ms), Goto(entry))
  {
  }

  lemma OneLowered(src: Blocks, erased: Blocks, base: nat, region: Region, ms: seq<Machine>, entry: BlockId,
                   progress: LocalId, s0: Span, s: Span, i: nat)
    requires SourceOk(src, base) && BodiesOk(src, region) && i < |ms| == |region.coroutines|
             && InRange(erased, region.begin)
    requires Housed(src, erased, base, region.coroutines[0], ms[0], progress, s0)
    requires Housed(src, erased, base, region.coroutines[i], ms[i], progress, s)
    requires if i == 0 then s == s0 else s0.hi <= s.lo
    requires region.begin.0 < |src|
    requires region.coroutines[i].begin.0 == region.begin.0 ==>
               region.coroutines[i].begin.1 <= |erased[region.begin.0].stmts|
    ensures ms[0].dispatch < |erased| && ms[0].dispatch != region.begin.0
    ensures Lowered(src, Lifted(erased, region, ms, entry), base, region, region.coroutines[i], ms[i],
                    EntryOf(region, region.coroutines[i], |erased|))
  {
    hide Housed, BodyOf, CoroutineOk, Lifted;
    var co := region.coroutines[i];
    HousedDispatch(src, erased, base, region.coroutines[0], ms[0], progress, s0);
    LiftedBlocks(erased, region, ms, entry);
    CoroutineIsOk(src, region, i);
    CoroutineMarkersOk(src, region, co);
    if co.begin.0 == region.begin.0 {
      OnlyFirstShares(src, region, i);
      LiftedMachine(src, erased, Lifted(erased, region, ms, entry), base, region, co, ms[i], progress, s);
    } else {
      KeptMachine(src, erased, Lifted(erased, region, ms, entry), base, region, co, ms[i], progress, s, ms[0].dispatch);
    }
  }

  lemma OnlyFirstShares(src: Blocks, region: Region, i: nat)
    requires BodiesOk(src, region) && i < |region.coroutines| && region.coroutines[i].begin.0 == region.begin.0
    ensures i == 0
  {
    hide CoroutineOk, BodyOf;
  }

  lemma HousedDispatch(src: Blocks, blocks: Blocks, base: nat, co: Coroutine, m: Machine, progress: LocalId, s: Span)
    requires Housed(src, blocks, base, co, m, progress, s)
    ensures |src| <= s.lo == m.dispatch < s.hi <= |blocks| && m.exit == s.lo + 1 < s.hi
  {
    hide MachineShape;
  }

  lemma SpansApart(src: Blocks, blocks: Blocks, base: nat, locals: nat, region: Region, ms: seq<Machine>,
                   progress: LocalId, spans: seq<Span>, i: nat, j: nat)
    requires Assembled(src, blocks, base, locals, region, ms, progress, spans) && i < |ms| && j < |ms| && i != j
    ensures Apart(ms[i], ms[j]) && ms[i].progress == ms[j].progress == progress
  {
    hide MachineShape, InNoBody;
    HousedAt(src, blocks, base, locals, region, ms, progress, spans, i);
    HousedAt(src, blocks, base, locals, region, ms, progress, spans, j);
    var s, t := spans[i], spans[j];
    assert s.locals <= t.locals0 || t.locals <= s.locals0;
  }

  lemma AssembledFleet(src: Blocks, blocks: Blocks, erased: Blocks, base: nat, locals: nat, region: Region,
                       ms: seq<Machine>, progress: LocalId, spans: seq<Span>, entry: BlockId)
    requires SourceOk(src, base) && MarkersOk(src, region) && BodiesOk(src, region)
    requires Assembled(src, blocks, base, locals, region, ms, progress, spans)
    requires ErasedAt(blocks, erased, MarkerSites(region)) && InRange(erased, region.begin)
    ensures |ms| > 0 && ms[0].dispatch < |erased| && ms[0].dispatch != region.begin.0
    ensures FleetOk(src, Lifted(erased, region, ms, entry), base, region, ms, |erased|)
  {
    hide SourceOk, BodiesOk, Housed, Lifted, Lowered, Apart, MarkerSites, BodyOf, InNoBody;
    assert |ms| == |spans| == |region.coroutines| > 0;
    ErasedAssembled(src, blocks, erased, base, locals, region, ms, progress, spans);
    FirstBlockHead(src, blocks, base, locals, region, ms, progress, spans);
    HousedDispatch(src, erased, base, region.coroutines[0], ms[0], progress, spans[0]);
    forall i | 0 <= i < |ms|
      ensures Lowered(src, Lifted(erased, region, ms, entry), base, region, region.coroutines[i], ms[i],
                      EntryOf(region, region.coroutines[i], |erased|))
    {
      OneLowered(src, erased, base, region, ms, entry, progress, spans[0], spans[i], i);
    }
    forall i, j | 0 <= i < |ms| && 0 <= j < |ms| && i != j
      ensures Apart(ms[i], ms[j]) && ms[i].progress == ms[j].progress
    {
      SpansApart(src, blocks, base, locals, region, ms, progress, spans, i, j);
    }
  }

  lemma AssembledOutside(src: Blocks, blocks: Blocks, erased: Blocks, base: nat, locals: nat, region: Region,
                         ms: seq<Machine>, progress: LocalId, spans: seq<Span>, entry: BlockId)
    requires MarkersOk(src, region) && BodiesOk(src, region)
    requires Assembled(src, blocks, base, locals, region, ms, progress, spans)
    requires ErasedAt(blocks, erased, MarkerSites(region)) && InRange(erased, region.begin)
    requires |ms| > 0 && |src| <= ms[0].dispatch < |erased|
    ensures KeepsOutside(src, Lifted(erased, region, ms, entry), region)
    ensures EntersAt(src, Lifted(erased, region, ms, entry), region, ms, entry)
  {
    hide BodiesOk, Housed, Lifted, MarkerSites, BodyOf, InNoBody, ErasedBlock;
    var out := Lifted(erased, region, ms, entry);
    LiftedBlocks(erased, region, ms, entry);
    FirstBlockHead(src, blocks, base, locals, region, ms, progress, spans);
    forall b: nat | NotInside(src, region, b) && b != region.begin.0
      ensures b < |out| && out[b] == src[b]
    {
      OutsideIsInNoBody(src, region, b);
      ErasureOf(src, blocks, erased, region, b);
    }
    ErasureOf(src, blocks, erased, region, region.begin.0);
    var k := region.begin.1 + 1;
    ErasedPrefix(src, region.begin.0, blocks[region.begin.0], erased[region.begin.0], k);
    var stmts := erased[region.begin.0].stmts;
    assert (stmts[..k] + Inits(ms))[..k] == stmts[..k] && (stmts[..k] + Inits(ms))[k..] == Inits(ms);
  }

  lemma ErasedPrefix(src: Blocks, b: BlockId, before: Block<Stmt>, after: Block<Stmt>, k: nat)
    requires b < |src| && k <= |src[b].stmts| && k <= |before.stmts|
    requires ErasedBlock(src, b, before, after) && Alike(src[b].stmts[..k], before.stmts[..k])
    ensures Alike(src[b].stmts[..k], after.stmts[..k])
  {
    forall i | 0 <= i < k
      ensures src[b].stmts[..k][i] == after.stmts[..k][i]
              || (Structural(src[b].stmts[..k][i]) && after.stmts[..k][i] == Nop)
    {
      assert src[b].stmts[..k][i] == src[b].stmts[i] && before.stmts[..k][i] == before.stmts[i];
    }
  }

  lemma OutsideIsInNoBody(src: Blocks, region: Region, b: BlockId)
    requires NotInside(src, region, b) && b != region.begin.0
    ensures InNoBody(src, region, b) && b != region.end.0 && b < |src|
  {
    hide BodyOf;
    assert !InSomeBody(src, region, b);
  }
}
