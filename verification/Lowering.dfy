/** Cutting a coroutine into a state machine, block by block.

Each method says exactly what blocks it leaves behind, as a function of those it found; that
these have the shape Machines relies on is then a fact about the functions. Cuts are made in
the order of the suspensions, each in a block of its own, so that a cut finds its block as the
source has it and later cuts leave earlier ones alone. A machine's blocks are those it adds
and those of its coroutine's body; the rest of the function is untouched, and no region marker
is lost or gained, which is what the run over regions counts.
*/
module Lowering {
  import opened Options
  import opened Cfg
  import opened Coroutines
  import opened Regions
  import opened Machines
  import opened Discovery
  import opened Markers
  import opened Footprint

  /** What all cuts of a machine share. */
  datatype Wires = Wires(state: LocalId, poll: LocalId, progress: LocalId, exit: BlockId)

  function WiresOf(m: Machine): Wires {
    Wires(m.state, m.poll, m.progress, m.exit)
  }

  // ── One suspension ───────────────────────────────────────────────────

  /** Saves the state and leaves the poll. */
  function PauseBlock(w: Wires, code: int, result: int): Block<Stmt> {
    Block([AssignI64(w.state, code), AssignI64(w.poll, result)], Goto(w.exit))
  }

  /** A yield or a send: what precedes it and the statement itself, a pause, and the rest. */
  function CutYield(blocks: Blocks, bb: BlockId, idx: nat, code: int, w: Wires): Blocks
    requires bb < |blocks| && idx < |blocks[bb].stmts|
  {
    var stmts := blocks[bb].stmts;
    blocks[bb := Block(stmts[..idx] + [if stmts[idx].YieldMark? then Nop else stmts[idx]], Goto(|blocks|))]
      + [PauseBlock(w, code, POLL_PENDING), Block(stmts[idx + 1..], blocks[bb].term)]
  }

  /** A guarded recv: what precedes it, the guard, the recv with the rest, and a pause. The
      pause for a yield is emitted first and stays unused. */
  function CutGuard(blocks: Blocks, bb: BlockId, idx: nat, code: int, w: Wires, peek: LocalId): Blocks
    requires bb < |blocks| && idx < |blocks[bb].stmts| && blocks[bb].stmts[idx].GuardedRecv?
  {
    var stmts, ch, n := blocks[bb].stmts, blocks[bb].stmts[idx].chan, |blocks|;
    var resume := Block([AssignI64(w.progress, 1), Recv(ch)] + stmts[idx + 1..], blocks[bb].term);
    var pause, blocked := PauseBlock(w, code, POLL_PENDING), PauseBlock(w, code, POLL_BLOCKED);
    if idx == 0 then
      blocks[bb := Block([Peek(peek, ch)], Branch(peek, n + 1, n + 2))] + [pause, resume, blocked]
    else
      blocks[bb := Block(stmts[..idx], Goto(n + 1))]
        + [pause, Block([Peek(peek, ch)], Branch(peek, n + 2, n + 3)), resume, blocked]
  }

  function CutAt(blocks: Blocks, bb: BlockId, idx: nat, code: int, w: Wires, peek: LocalId): Blocks
    requires bb < |blocks| && idx < |blocks[bb].stmts|
  {
    if blocks[bb].stmts[idx].GuardedRecv? then CutGuard(blocks, bb, idx, code, w, peek)
      else CutYield(blocks, bb, idx, code, w)
  }

  /** The pieces of a cut, in a body that had `n` blocks. */
  function PiecesOf(n: nat, guarded: bool, bb: BlockId, idx: nat, peek: LocalId): Cut {
    if !guarded then Cut(bb, idx, n, n + 1, n + 1, n, None, n + 1)
    else if idx == 0 then Cut(bb, idx, n, bb, n + 1, n + 2, Some(peek), bb)
    else Cut(bb, idx, n, n + 1, n + 2, n + 3, Some(peek), n + 1)
  }

  method EmitPause(body: Body<Stmt>, w: Wires, code: int, result: int) returns (b: BlockId)
    modifies body`blocks
    ensures b == |old(body.blocks)| && body.blocks == old(body.blocks) + [PauseBlock(w, code, result)]
  {
    b := body.NewBlock();
    body.Append(b, AssignI64(w.state, code));
    body.Append(b, AssignI64(w.poll, result));
    body.SetTerm(b, Goto(w.exit));
    assert body.blocks[b].stmts == [AssignI64(w.state, code), AssignI64(w.poll, result)];
  }

  /** Puts the peek in the guard's place and the recv at the head of `resume`. */
  method EmitGuardedRecvPeek(body: Body<Stmt>, guard: BlockId, idx: nat, resume: BlockId) returns (peek: LocalId)
    requires guard < |body.blocks| && resume < |body.blocks| && guard != resume
    requires idx < |body.blocks[guard].stmts| && body.blocks[guard].stmts[idx].GuardedRecv?
    modifies body
    ensures peek == old(body.locals) && body.locals == peek + 1
    ensures var g, r, ch := old(body.blocks)[guard], old(body.blocks)[resume], old(body.blocks)[guard].stmts[idx].chan;
            body.blocks == old(body.blocks)[guard := g.(stmts := g.stmts[idx := Peek(peek, ch)])]
                             [resume := r.(stmts := [Recv(ch)] + r.stmts)]
  {
    var ch := body.blocks[guard].stmts[idx].chan;
    peek := body.NewLocal();
    body.Prepend(resume, Recv(ch));
    body.Replace(guard, idx, Peek(peek, ch));
  }

  /** Splits the guard at the head of block `guard` from what follows it. */
  method EmitGuard(body: Body<Stmt>, guard: BlockId, code: int, w: Wires)
    returns (peek: LocalId, resume: BlockId, blocked: BlockId)
    requires guard < |body.blocks| && 0 < |body.blocks[guard].stmts| && body.blocks[guard].stmts[0].GuardedRecv?
    modifies body
    ensures peek == old(body.locals) && body.locals == peek + 1
    ensures resume == |old(body.blocks)| && blocked == resume + 1
    ensures var g := old(body.blocks)[guard];
            body.blocks
              == old(body.blocks)[guard := Block([Peek(peek, g.stmts[0].chan)], Branch(peek, resume, blocked))]
                             + [Block([AssignI64(w.progress, 1), Recv(g.stmts[0].chan)] + g.stmts[1..], g.term),
                                PauseBlock(w, code, POLL_BLOCKED)]
  {
    ghost var g := body.blocks[guard];
    resume := body.SplitAfter(guard, 0);
    peek := EmitGuardedRecvPeek(body, guard, 0, resume);
    body.Prepend(resume, AssignI64(w.progress, 1));
    blocked := EmitPause(body, w, code, POLL_BLOCKED);
    body.SetTerm(guard, Branch(peek, resume, blocked));
    assert body.blocks[guard].stmts == [Peek(peek, g.stmts[0].chan)];
    assert body.blocks[resume].stmts == [AssignI64(w.progress, 1), Recv(g.stmts[0].chan)] + g.stmts[1..];
  }

  method EmitGuardedSite(body: Body<Stmt>, bb: BlockId, idx: nat, code: int, w: Wires) returns (cut: Cut)
    requires bb < |body.blocks| && idx < |body.blocks[bb].stmts| && body.blocks[bb].stmts[idx].GuardedRecv?
    modifies body
    ensures body.locals == old(body.locals) + 1
    ensures body.blocks == CutGuard(old(body.blocks), bb, idx, code, w, old(body.locals))
    ensures cut == PiecesOf(|old(body.blocks)|, true, bb, idx, old(body.locals))
  {
    ghost var stmts := body.blocks[bb].stmts;
    var pause := EmitPause(body, w, code, POLL_PENDING);
    var guard := bb;
    if idx > 0 {
      guard := body.SplitAfter(bb, idx - 1);
      body.SetTerm(bb, Goto(guard));
      assert body.blocks[guard].stmts == stmts[idx..];
      assert stmts[idx..][1..] == stmts[idx + 1..];
    }
    var peek, resume, blocked := EmitGuard(body, guard, code, w);
    cut := Cut(bb, idx, pause, guard, resume, blocked, Some(peek), guard);
  }

  method EmitYieldSite(body: Body<Stmt>, bb: BlockId, idx: nat, code: int, w: Wires) returns (cut: Cut)
    requires bb < |body.blocks| && idx < |body.blocks[bb].stmts|
    modifies body`blocks
    ensures body.blocks == CutYield(old(body.blocks), bb, idx, code, w)
    ensures cut == PiecesOf(|old(body.blocks)|, false, bb, idx, 0)
  {
    ghost var stmts := body.blocks[bb].stmts;
    var pause := EmitPause(body, w, code, POLL_PENDING);
    var resume := body.SplitAfter(bb, idx);
    if body.blocks[bb].stmts[idx].YieldMark? {
      body.Replace(bb, idx, Nop);
    }
    body.SetTerm(bb, Goto(pause));
    assert body.blocks[bb].stmts == stmts[..idx] + [if stmts[idx].YieldMark? then Nop else stmts[idx]];
    cut := Cut(bb, idx, pause, resume, resume, pause, None, resume);
  }

  /** Cuts block `bb` at its suspension `idx`, which gets state number `code`. */
  method EmitSite(body: Body<Stmt>, bb: BlockId, idx: nat, code: int, w: Wires) returns (cut: Cut)
    requires bb < |body.blocks| && idx < |body.blocks[bb].stmts|
    modifies body
    ensures body.blocks == CutAt(old(body.blocks), bb, idx, code, w, old(body.locals))
    ensures var guarded := old(body.blocks)[bb].stmts[idx].GuardedRecv?;
            && body.locals == old(body.locals) + (if guarded then 1 else 0)
            && cut == PiecesOf(|old(body.blocks)|, guarded, bb, idx, old(body.locals))
  {
    if body.blocks[bb].stmts[idx].GuardedRecv? {
      cut := EmitGuardedSite(body, bb, idx, code, w);
    } else {
      cut := EmitYieldSite(body, bb, idx, code, w);
    }
  }

  lemma CutAtShape(blocks: Blocks, bb: BlockId, idx: nat, code: int, m: Machine, peek: LocalId)
    requires bb < |blocks| && idx < |blocks[bb].stmts| && Suspends(blocks[bb].stmts[idx])
    ensures CutShape(blocks[bb], 0, bb, CutAt(blocks, bb, idx, code, WiresOf(m), peek), m, code,
                     PiecesOf(|blocks|, blocks[bb].stmts[idx].GuardedRecv?, bb, idx, peek))
  {
    var stmts := blocks[bb].stmts;
    var out := CutAt(blocks, bb, idx, code, WiresOf(m), peek);
    if stmts[idx].GuardedRecv? {
      var resume := out[if idx == 0 then |blocks| + 1 else |blocks| + 2].stmts;
      assert resume[2..] == stmts[idx + 1..];
    } else {
      assert out[bb].stmts == stmts[..idx] + [if stmts[idx].YieldMark? then Nop else stmts[idx]];
    }
  }

  lemma CutAtRegions(blocks: Blocks, bb: BlockId, idx: nat, code: int, w: Wires, peek: LocalId)
    requires bb < |blocks| && idx < |blocks[bb].stmts| && Suspends(blocks[bb].stmts[idx])
    ensures RegionsLeft(CutAt(blocks, bb, idx, code, w, peek)) == RegionsLeft(blocks)
  {
    var stmts := blocks[bb].stmts;
    var out := CutAt(blocks, bb, idx, code, w, peek);
    var more := out[|blocks|..];
    assert out == blocks[bb := out[bb]] + more;
    BeginsAround(stmts, idx);
    NoBegins(PauseBlock(w, code, POLL_PENDING).stmts);
    NoBegins(PauseBlock(w, code, POLL_BLOCKED).stmts);
    if stmts[idx].GuardedRecv? {
      var ch := stmts[idx].chan;
      NoBegins([Peek(peek, ch)]);
      NoBegins([AssignI64(w.progress, 1), Recv(ch)]);
      BeginsConcat([AssignI64(w.progress, 1), Recv(ch)], stmts[idx + 1..]);
      assert idx == 0 ==> stmts[..idx] == [];
      RegionsRewrite(blocks, bb, out[bb], more, if idx == 0 then 1 else 2);
    } else {
      var kept := if stmts[idx].YieldMark? then Nop else stmts[idx];
      NoBegins([kept]);
      BeginsConcat(stmts[..idx], [kept]);
      RegionsRewrite(blocks, bb, out[bb], more, 1);
    }
  }

  // ── What cuts leave behind ───────────────────────────────────────────

  /** As far as the region's blocks hold no markers but its own, they stay tidy. */
  ghost predicate KeptTidy(src: Blocks, region: Region, blocks: Blocks, locals: nat) {
    OwnMarkers(src, region) ==> Tidy(src, region, blocks, |blocks|, locals)
  }

  /** A suspension with nothing behind it that must stay where it is. */
  ghost predicate CleanCut(src: Blocks, region: Region, s: Site) {
    && s.0 < |src| && s.1 < |src[s.0].stmts| && Touched(src, region, s.0)
    && (forall i :: s.1 < i < |src[s.0].stmts| ==> !IsMarker(src[s.0].stmts[i]) && !Suspends(src[s.0].stmts[i]))
    && (s.0 == region.begin.0 ==> region.begin.1 < s.1)
  }

  ghost predicate CleanCuts(src: Blocks, region: Region, sites: seq<Site>) {
    OwnMarkers(src, region) ==> forall k :: 0 <= k < |sites| ==> CleanCut(src, region, sites[k])
  }

  ghost predicate WiresIn(w: Wires, lo: nat, n: nat, locals: nat) {
    w.state < locals && w.poll < locals && w.progress < locals && lo <= w.exit < n
  }

  lemma PauseIsSystem(w: Wires, code: int, result: int, lo: nat, n: nat, locals: nat)
    requires WiresIn(w, lo, n, locals)
    ensures SystemBlock(PauseBlock(w, code, result), lo, n, locals)
  {
  }

  /** The part of a block before a cut. */
  lemma FrontIsTidy(src: Blocks, region: Region, b: BlockId, front: Block<Stmt>, idx: nat, t: Term, n: nat, locals: nat)
    requires TidyBlock(src, region, b, front, n, locals) && idx <= |front.stmts|
    requires SystemTerm(t, |src|, n, locals)
    ensures TidyBlock(src, region, b, Block(front.stmts[..idx], t), n, locals)
  {
    SystemTermIsTidy(src, region, b, t, n, locals);
    hide TidyTerm, SystemTerm;
    forall i | 0 <= i < idx
      ensures TidyStmt(src, b, i, front.stmts[..idx][i], locals)
    {
      assert TidyStmt(src, b, i, front.stmts[i], locals);
    }
  }

  lemma FrontAndOneIsTidy(src: Blocks, region: Region, b: BlockId, front: Block<Stmt>, idx: nat, s: Stmt, t: Term,
                          n: nat, locals: nat)
    requires TidyBlock(src, region, b, front, n, locals) && idx <= |front.stmts|
    requires SystemTerm(t, |src|, n, locals) && TidyStmt(src, b, idx, s, locals)
    ensures TidyBlock(src, region, b, Block(front.stmts[..idx] + [s], t), n, locals)
  {
    FrontIsTidy(src, region, b, front, idx, t, n, locals);
    hide TidyTerm, SystemTerm, TidyStmt;
    var stmts := front.stmts[..idx] + [s];
    forall i | 0 <= i < |stmts|
      ensures TidyStmt(src, b, i, stmts[i], locals)
    {
      if i < idx {
        assert stmts[i] == front.stmts[..idx][i];
      }
    }
  }

  /** The part behind a cut, in block `b`. */
  lemma BackIsTidy(src: Blocks, region: Region, bb: BlockId, idx: nat, b: BlockId, pre: seq<Stmt>, n: nat, locals: nat)
    requires CleanCut(src, region, (bb, idx)) && TidyBlock(src, region, bb, src[bb], n, locals) && |src| < n
    requires forall i :: 0 <= i < |pre| ==> SystemStmt(pre[i], locals)
    ensures TidyBlock(src, region, b, Block(pre + src[bb].stmts[idx + 1..], src[bb].term), n, locals)
  {
    hide Touched;
    var stmts := pre + src[bb].stmts[idx + 1..];
    forall i | 0 <= i < |stmts|
      ensures TidyStmt(src, b, i, stmts[i], locals)
    {
      if i < |pre| {
        assert SystemStmt(pre[i], locals);
      } else {
        var k := idx + 1 + (i - |pre|);
        assert stmts[i] == src[bb].stmts[k];
        assert TidyStmt(src, bb, k, src[bb].stmts[k], locals);
      }
    }
    forall next | next in Successors(src[bb].term)
      ensures TidyTarget(src, region, b, next, n)
    {
      assert TidyTarget(src, region, bb, next, n);
      assert next < |src| ==> FromTouched(src, region, next);
    }
  }

  lemma TwoMore(src: Blocks, region: Region, blocks: Blocks, n: nat, locals: nat, b0: Block<Stmt>, b1: Block<Stmt>)
    requires Tidy(src, region, blocks, n, locals) && |blocks| + 2 <= n
    requires TidyBlock(src, region, |blocks|, b0, n, locals) && TidyBlock(src, region, |blocks| + 1, b1, n, locals)
    ensures Tidy(src, region, blocks + [b0, b1], n, locals)
  {
    hide TidyBlock, Tidy;
    TidyLength(src, region, blocks, n, locals);
    TidyAdd(src, region, blocks, n, locals, b0);
    TidyAdd(src, region, blocks + [b0], n, locals, b1);
    assert blocks + [b0, b1] == blocks + [b0] + [b1];
  }

  lemma TidyLength(src: Blocks, region: Region, blocks: Blocks, n: nat, locals: nat)
    requires Tidy(src, region, blocks, n, locals)
    ensures |src| <= |blocks| <= n && region.begin.0 < |src|
  {
  }

  lemma CutYieldTidy(src: Blocks, region: Region, blocks: Blocks, locals: nat, bb: BlockId, idx: nat, code: int,
                     w: Wires)
    requires Tidy(src, region, blocks, |blocks|, locals) && CleanCut(src, region, (bb, idx))
    requires blocks[bb] == src[bb] && WiresIn(w, |src|, |blocks|, locals)
    ensures var out := CutYield(blocks, bb, idx, code, w); Tidy(src, region, out, |out|, locals)
  {
    hide TidyBlock, Touched, TidyStmt;
    var stmts, n := blocks[bb].stmts, |blocks| + 2;
    var kept := if stmts[idx].YieldMark? then Nop else stmts[idx];
    var front: Block<Stmt> := Block(stmts[..idx] + [kept], Goto(|blocks|));
    var back: Block<Stmt> := Block(stmts[idx + 1..], blocks[bb].term);
    TidyMore(src, region, blocks, |blocks|, locals, n, locals);
    StmtIsTidy(src, region, bb, src[bb], idx, n, locals);
    FrontAndOneIsTidy(src, region, bb, src[bb], idx, kept, Goto(|blocks|), n, locals);
    TidySet(src, region, blocks, n, locals, bb, front);
    PauseIsSystem(w, code, POLL_PENDING, |src|, n, locals);
    SystemIsTidy(src, region, |blocks|, PauseBlock(w, code, POLL_PENDING), n, locals);
    assert [] + stmts[idx + 1..] == stmts[idx + 1..];
    BackIsTidy(src, region, bb, idx, |blocks| + 1, [], n, locals);
    TwoMore(src, region, blocks[bb := front], n, locals, PauseBlock(w, code, POLL_PENDING), back);
  }

  lemma StmtIsTidy(src: Blocks, region: Region, b: BlockId, block: Block<Stmt>, idx: nat, n: nat, locals: nat)
    requires TidyBlock(src, region, b, block, n, locals) && idx < |block.stmts|
    ensures TidyStmt(src, b, idx, block.stmts[idx], locals) && TidyStmt(src, b, idx, Nop, locals)
  {
  }

  lemma CutGuardTidy(src: Blocks, region: Region, blocks: Blocks, locals: nat, bb: BlockId, idx: nat, code: int,
                     w: Wires, peek: LocalId)
    requires Tidy(src, region, blocks, |blocks|, locals) && CleanCut(src, region, (bb, idx))
             && src[bb].stmts[idx].GuardedRecv?
    requires blocks[bb] == src[bb] && WiresIn(w, |src|, |blocks|, locals) && peek == locals
    ensures var out := CutGuard(blocks, bb, idx, code, w, peek); Tidy(src, region, out, |out|, locals + 1)
  {
    hide TidyBlock, Touched, TidyStmt;
    var stmts, ch, n, l := blocks[bb].stmts, blocks[bb].stmts[idx].chan, |blocks| + (if idx == 0 then 3 else 4),
      locals + 1;
    var pre := [AssignI64(w.progress, 1), Recv(ch)];
    var resume: Block<Stmt> := Block(pre + stmts[idx + 1..], blocks[bb].term);
    var pause, blocked := PauseBlock(w, code, POLL_PENDING), PauseBlock(w, code, POLL_BLOCKED);
    TidyMore(src, region, blocks, |blocks|, locals, n, l);
    PauseIsSystem(w, code, POLL_PENDING, |src|, n, l);
    PauseIsSystem(w, code, POLL_BLOCKED, |src|, n, l);
    SystemIsTidy(src, region, |blocks|, pause, n, l);
    SystemIsTidy(src, region, n - 1, blocked, n, l);
    BackIsTidy(src, region, bb, idx, n - 2, pre, n, l);
    var out := CutGuard(blocks, bb, idx, code, w, peek);
    if idx == 0 {
      var guard: Block<Stmt> := Block([Peek(peek, ch)], Branch(peek, |blocks| + 1, |blocks| + 2));
      SystemIsTidy(src, region, bb, guard, n, l);
      TidySet(src, region, blocks, n, l, bb, guard);
      var blocks1 := blocks[bb := guard];
      TidyAdd(src, region, blocks1, n, l, pause);
      TwoMore(src, region, blocks1 + [pause], n, l, resume, blocked);
      assert out == blocks1 + [pause] + [resume, blocked];
    } else {
      var guard: Block<Stmt> := Block([Peek(peek, ch)], Branch(peek, |blocks| + 2, |blocks| + 3));
      var front: Block<Stmt> := Block(stmts[..idx], Goto(|blocks| + 1));
      FrontIsTidy(src, region, bb, src[bb], idx, Goto(|blocks| + 1), n, l);
      TidySet(src, region, blocks, n, l, bb, front);
      SystemIsTidy(src, region, |blocks| + 1, guard, n, l);
      var blocks1 := blocks[bb := front];
      TwoMore(src, region, blocks1, n, l, pause, guard);
      TwoMore(src, region, blocks1 + [pause, guard], n, l, resume, blocked);
      assert out == blocks1 + [pause, guard] + [resume, blocked];
    }
  }

  /** Cutting a block keeps the body tidy. */
  lemma CutKeepsTidy(src: Blocks, region: Region, blocks: Blocks, locals: nat, bb: BlockId, idx: nat, code: int,
                     w: Wires)
    requires KeptTidy(src, region, blocks, locals) && WiresIn(w, |src|, |blocks|, locals)
    requires OwnMarkers(src, region) ==> CleanCut(src, region, (bb, idx)) && blocks[bb] == src[bb]
    requires bb < |blocks| && idx < |blocks[bb].stmts|
    ensures KeptTidy(src, region, CutAt(blocks, bb, idx, code, w, locals),
                     locals + (if blocks[bb].stmts[idx].GuardedRecv? then 1 else 0))
  {
    hide OwnMarkers, CleanCut, CutYield, CutGuard, Tidy;
    if OwnMarkers(src, region) {
      if blocks[bb].stmts[idx].GuardedRecv? {
        CutGuardTidy(src, region, blocks, locals, bb, idx, code, w, locals);
      } else {
        CutYieldTidy(src, region, blocks, locals, bb, idx, code, w);
      }
    }
  }

  // ── All suspensions of a coroutine ───────────────────────────────────

  /** The blocks of a cut other than the one it cut lie in `lo..hi`. */
  ghost predicate CutWithin(c: Cut, lo: nat, hi: nat) {
    && lo <= c.pause < hi && lo <= c.resume < hi && lo <= c.blocked < hi
    && (c.guard == c.bb || lo <= c.guard < hi)
  }

  /** Site `site` is cut, with everything the cut added above `blocks0` and `locals0`. */
  ghost predicate CutDone(blocks0: Blocks, blocks: Blocks, locals0: nat, locals: nat, m: Machine, site: Site, code: int,
                          c: Cut) {
    && site.0 < |blocks0| && c.bb == site.0 && c.idx == site.1
    && CutShape(blocks0[site.0], 0, site.0, blocks, m, code, c)
    && CutWithin(c, |blocks0|, |blocks|)
    && (c.peek.Some? ==> locals0 <= c.peek.value < locals)
    && (c.guard == c.bb ==> c.idx == 0)
    && site.0 < |blocks| && HeadKept(blocks0[site.0].stmts, blocks[site.0].stmts, site.1)
  }

  /** Before the suspension nothing has changed. */
  ghost predicate HeadKept(before: seq<Stmt>, after: seq<Stmt>, idx: nat) {
    idx < |before| && |after| <= idx + 1 && forall i :: 0 <= i < idx && i < |after| ==> after[i] == before[i]
  }

  ghost predicate IsSiteBlock(sites: seq<Site>, n: nat, b: BlockId) {
    n <= |sites| && exists k :: 0 <= k < n && sites[k].0 == b
  }

  /** The first `|cuts|` sites are cut; `blocks0` is what was there before. */
  ghost predicate CutSoFar(blocks0: Blocks, blocks: Blocks, locals0: nat, locals: nat, m: Machine, sites: seq<Site>,
                           cuts: seq<Cut>) {
    && |cuts| <= |sites| && |blocks0| <= |blocks| && locals0 <= locals
    && (forall k :: 0 <= k < |cuts| ==> CutDone(blocks0, blocks, locals0, locals, m, sites[k], k + 1, cuts[k]))
    && (forall b :: 0 <= b < |blocks0| && !IsSiteBlock(sites, |cuts|, b) ==> blocks[b] == blocks0[b])
    && RegionsLeft(blocks) == RegionsLeft(blocks0)
  }

  ghost predicate SitesApart(blocks: Blocks, sites: seq<Site>) {
    && (forall k :: 0 <= k < |sites| ==>
          && sites[k].0 < |blocks| && sites[k].1 < |blocks[sites[k].0].stmts|
          && Suspends(blocks[sites[k].0].stmts[sites[k].1]))
    && (forall j, k :: 0 <= j < |sites| && 0 <= k < |sites| && j != k ==> sites[j].0 != sites[k].0)
  }

  /** A cut stays as it is when its blocks do. */
  lemma CutShapeKept(src: Block<Stmt>, from: nat, head: BlockId, out: Blocks, out': Blocks, m: Machine, code: int,
                     c: Cut)
    requires CutShape(src, from, head, out, m, code, c)
    requires |out| <= |out'|
    requires head < |out| ==> out'[head] == out[head]
    requires c.pause < |out| ==> out'[c.pause] == out[c.pause]
    requires c.guard < |out| ==> out'[c.guard] == out[c.guard]
    requires c.resume < |out| ==> out'[c.resume] == out[c.resume]
    requires c.blocked < |out| ==> out'[c.blocked] == out[c.blocked]
    ensures CutShape(src, from, head, out', m, code, c)
  {
  }

  lemma CutDoneKept(blocks0: Blocks, blocks: Blocks, blocks': Blocks, locals0: nat, locals: nat, locals': nat,
                    m: Machine, site: Site, code: int, c: Cut)
    requires CutDone(blocks0, blocks, locals0, locals, m, site, code, c) && |blocks0| <= |blocks| <= |blocks'|
             && locals <= locals'
    requires blocks'[site.0] == blocks[site.0]
    requires forall b :: |blocks0| <= b < |blocks| ==> blocks'[b] == blocks[b]
    ensures CutDone(blocks0, blocks', locals0, locals', m, site, code, c)
  {
    CutShapeKept(blocks0[site.0], 0, site.0, blocks, blocks', m, code, c);
    hide CutShape;
  }

  lemma CutDoneNew(blocks0: Blocks, blocks: Blocks, locals0: nat, locals: nat, m: Machine, site: Site, code: int)
    requires |blocks0| <= |blocks| && locals0 <= locals && site.0 < |blocks0| && site.1 < |blocks[site.0].stmts|
    requires blocks[site.0] == blocks0[site.0] && Suspends(blocks[site.0].stmts[site.1])
    ensures var guarded := blocks[site.0].stmts[site.1].GuardedRecv?;
            CutDone(blocks0, CutAt(blocks, site.0, site.1, code, WiresOf(m), locals), locals0,
                    locals + (if guarded then 1 else 0), m, site, code,
                      PiecesOf(|blocks|, guarded, site.0, site.1, locals))
  {
    hide CutShape, CutAt;
    CutAtShape(blocks, site.0, site.1, code, m, locals);
    CutAtSize(blocks, site.0, site.1, code, WiresOf(m), locals);
    CutAtHead(blocks, site.0, site.1, code, WiresOf(m), locals);
  }

  lemma CutAtHead(blocks: Blocks, bb: BlockId, idx: nat, code: int, w: Wires, peek: LocalId)
    requires bb < |blocks| && idx < |blocks[bb].stmts|
    ensures bb < |CutAt(blocks, bb, idx, code, w, peek)|
    ensures HeadKept(blocks[bb].stmts, CutAt(blocks, bb, idx, code, w, peek)[bb].stmts, idx)
  {
  }

  /** A cut rewrites its block and adds others. */
  lemma CutAtSize(blocks: Blocks, bb: BlockId, idx: nat, code: int, w: Wires, peek: LocalId)
    requires bb < |blocks| && idx < |blocks[bb].stmts|
    ensures var out := CutAt(blocks, bb, idx, code, w, peek);
            && |out| == |blocks| + (if !blocks[bb].stmts[idx].GuardedRecv? then 2 else if idx == 0 then 3 else 4)
            && forall b :: 0 <= b < |blocks| && b != bb ==> out[b] == blocks[b]
  {
  }

  lemma NextSiteIsWhole(blocks0: Blocks, blocks: Blocks, locals0: nat, locals: nat, m: Machine, sites: seq<Site>,
                        cuts: seq<Cut>)
    requires SitesApart(blocks0, sites) && CutSoFar(blocks0, blocks, locals0, locals, m, sites, cuts)
             && |cuts| < |sites|
    ensures var (bb, idx) := sites[|cuts|];
            && bb < |blocks0| && blocks[bb] == blocks0[bb] && idx < |blocks[bb].stmts|
            && Suspends(blocks[bb].stmts[idx])
  {
    hide CutDone, RegionsLeft;
  }

  lemma CutSoFarStep(blocks0: Blocks, blocks: Blocks, locals0: nat, locals: nat, m: Machine, sites: seq<Site>,
                     cuts: seq<Cut>)
    requires SitesApart(blocks0, sites) && CutSoFar(blocks0, blocks, locals0, locals, m, sites, cuts)
             && |cuts| < |sites|
    ensures var (bb, idx) := sites[|cuts|];
            && bb < |blocks| && idx < |blocks[bb].stmts|
            && var guarded := blocks[bb].stmts[idx].GuardedRecv?;
               CutSoFar(blocks0, CutAt(blocks, bb, idx, |cuts| + 1, WiresOf(m), locals), locals0,
                        locals + (if guarded then 1 else 0), m, sites,
                        cuts + [PiecesOf(|blocks|, guarded, bb, idx, locals)])
  {
    hide CutAt, CutDone, RegionsLeft;
    var i := |cuts|;
    NextSiteIsWhole(blocks0, blocks, locals0, locals, m, sites, cuts);
    var (bb, idx) := sites[i];
    var blocks' := CutAt(blocks, bb, idx, i + 1, WiresOf(m), locals);
    var locals' := locals + (if blocks[bb].stmts[idx].GuardedRecv? then 1 else 0);
    CutAtSize(blocks, bb, idx, i + 1, WiresOf(m), locals);
    CutDoneNew(blocks0, blocks, locals0, locals, m, sites[i], i + 1);
    CutAtRegions(blocks, bb, idx, i + 1, WiresOf(m), locals);
    forall k | 0 <= k < i
      ensures CutDone(blocks0, blocks', locals0, locals', m, sites[k], k + 1, cuts[k])
    {
      CutIsAt(blocks0, blocks, locals0, locals, m, sites[k], k + 1, cuts[k]);
      CutDoneKept(blocks0, blocks, blocks', locals0, locals, locals', m, sites[k], k + 1, cuts[k]);
    }
    forall b | 0 <= b < |blocks0| && !IsSiteBlock(sites, i + 1, b)
      ensures blocks'[b] == blocks0[b]
    {
      assert sites[i].0 != b;
      assert !IsSiteBlock(sites, i, b);
    }
  }

  lemma CutIsAt(blocks0: Blocks, blocks: Blocks, locals0: nat, locals: nat, m: Machine, site: Site, code: int, c: Cut)
    requires CutDone(blocks0, blocks, locals0, locals, m, site, code, c)
    ensures site.0 < |blocks0|
  {
  }

  /** The blocks to be cut are as the source has them. */
  ghost predicate SitesIntact(src: Blocks, blocks: Blocks, sites: seq<Site>) {
    forall k :: 0 <= k < |sites| ==> sites[k].0 < |src| <= |blocks| && blocks[sites[k].0] == src[sites[k].0]
  }

  lemma NextCutIsClean(src: Blocks, region: Region, blocks0: Blocks, blocks: Blocks, locals0: nat, locals: nat,
                       m: Machine, sites: seq<Site>, cuts: seq<Cut>, w: Wires)
    requires SitesApart(blocks0, sites) && CutSoFar(blocks0, blocks, locals0, locals, m, sites, cuts)
             && |cuts| < |sites|
    requires CleanCuts(src, region, sites) && SitesIntact(src, blocks0, sites) && WiresIn(w, |src|, |blocks0|, locals0)
    requires KeptTidy(src, region, blocks, locals)
    ensures var (bb, idx) := sites[|cuts|];
            && bb < |blocks| && idx < |blocks[bb].stmts|
            && KeptTidy(src, region, CutAt(blocks, bb, idx, |cuts| + 1, w, locals),
                        locals + (if blocks[bb].stmts[idx].GuardedRecv? then 1 else 0))
  {
    hide CutDone, RegionsLeft, CutAt, KeptTidy, CleanCut, OwnMarkers;
    NextSiteIsWhole(blocks0, blocks, locals0, locals, m, sites, cuts);
    CutKeepsTidy(src, region, blocks, locals, sites[|cuts|].0, sites[|cuts|].1, |cuts| + 1, w);
  }

  method EmitCuts(body: Body<Stmt>, sites: seq<Site>, w: Wires, ghost m: Machine, ghost src: Blocks,
                  ghost region: Region)
    returns (cuts: seq<Cut>)
    requires SitesApart(body.blocks, sites) && w == WiresOf(m)
    requires CleanCuts(src, region, sites) && SitesIntact(src, body.blocks, sites)
             && WiresIn(w, |src|, |body.blocks|, body.locals)
    requires KeptTidy(src, region, body.blocks, body.locals)
    modifies body
    ensures |cuts| == |sites|
    ensures CutSoFar(old(body.blocks), body.blocks, old(body.locals), body.locals, m, sites, cuts)
    ensures KeptTidy(src, region, body.blocks, body.locals)
  {
    hide KeptTidy, CleanCuts, SitesIntact, WiresIn;
    cuts := [];
    for i := 0 to |sites|
      invariant |cuts| == i
      invariant CutSoFar(old(body.blocks), body.blocks, old(body.locals), body.locals, m, sites, cuts)
      invariant KeptTidy(src, region, body.blocks, body.locals)
    {
      CutSoFarStep(old(body.blocks), body.blocks, old(body.locals), body.locals, m, sites, cuts);
      NextCutIsClean(src, region, old(body.blocks), body.blocks, old(body.locals), body.locals, m, sites, cuts, w);
      var cut := EmitSite(body, sites[i].0, sites[i].1, i + 1, w);
      cuts := cuts + [cut];
    }
  }

  // ── One coroutine ────────────────────────────────────────────────────

  /** `sites` are the suspension points of `co`, as discovery lists them. */
  ghost predicate AllSites(src: Blocks, co: Coroutine, sites: seq<Site>) {
    InOrder(sites) && forall s :: s in sites <==> IsSite(src, co, s)
  }

  lemma SiteFacts(src: Blocks, region: Region, co: Coroutine, s: Site)
    requires CoroutineOk(src, region, co) && IsSite(src, co, s)
    ensures s.0 in BodyOf(src, co) && s.0 < |src| && s.0 != co.end.0
    ensures StartOf(co, s.0) <= s.1 < |src[s.0].stmts| && Suspends(src[s.0].stmts[s.1])
    ensures s.0 == co.begin.0 ==> co.begin.1 < s.1
  {
    hide Reachable;
  }

  lemma SitesAreApart(src: Blocks, region: Region, co: Coroutine, sites: seq<Site>)
    requires CoroutineOk(src, region, co) && AllSites(src, co, sites)
    ensures SitesApart(src, sites)
  {
    hide Reachable, CoroutineOk, IsSite, BodyOf;
    forall k | 0 <= k < |sites|
      ensures sites[k].0 < |src| && sites[k].1 < |src[sites[k].0].stmts| && Suspends(src[sites[k].0].stmts[sites[k].1])
    {
      assert sites[k] in sites;
      SiteFacts(src, region, co, sites[k]);
    }
    forall j, k | 0 <= j < |sites| && 0 <= k < |sites| && j != k
      ensures sites[j].0 != sites[k].0
    {
      assert sites[j] in sites && sites[k] in sites;
      assert Before(sites[j], sites[k]) || Before(sites[k], sites[j]);
      SitesDiffer(src, region, co, sites[j], sites[k]);
    }
  }

  lemma SitesDiffer(src: Blocks, region: Region, co: Coroutine, s: Site, t: Site)
    requires CoroutineOk(src, region, co) && IsSite(src, co, s) && IsSite(src, co, t) && s != t
    ensures s.0 != t.0
  {
    SiteFacts(src, region, co, s);
    SiteFacts(src, region, co, t);
    assert AtMostOneSite(src[s.0].stmts, StartOf(co, s.0));
  }

  /** A block that holds no site holds no suspension of the coroutine. */
  lemma NoSiteNoSuspension(src: Blocks, region: Region, co: Coroutine, sites: seq<Site>, b: BlockId)
    requires CoroutineOk(src, region, co) && AllSites(src, co, sites)
    requires b in BodyOf(src, co) && !IsSiteBlock(sites, |sites|, b)
    ensures forall i :: StartOf(co, b) <= i < |src[b].stmts| ==> !Suspends(src[b].stmts[i])
  {
    if b != co.end.0 {
      forall i | StartOf(co, b) <= i < |src[b].stmts|
        ensures !Suspends(src[b].stmts[i])
      {
        if Suspends(src[b].stmts[i]) {
          assert IsSite(src, co, (b, i));
          NoSuchSite(src, co, sites, b, i);
        }
      }
    }
  }

  lemma NoSuchSite(src: Blocks, co: Coroutine, sites: seq<Site>, b: BlockId, i: nat)
    requires AllSites(src, co, sites) && IsSite(src, co, (b, i))
    ensures IsSiteBlock(sites, |sites|, b)
  {
    hide IsSite;
    assert (b, i) in sites;
    var k :| 0 <= k < |sites| && sites[k] == (b, i);
  }

  /** Which blocks and locals a machine has to itself. */
  ghost predicate MachineWithin(m: Machine, lo: nat, hi: nat, locals0: nat, locals: nat) {
    && m.dispatch == lo && m.exit == lo + 1 && lo + 2 <= m.done < hi
    && m.state == locals0 && m.poll == locals0 + 1 && locals0 + 2 <= locals
    && (forall i :: 0 <= i < |m.cuts| ==>
          CutWithin(m.cuts[i], lo + 2, hi) && (m.cuts[i].guard == m.cuts[i].bb ==> m.cuts[i].idx == 0))
    && (forall l: nat :: Temporary(m, l) ==> locals0 + 2 <= l < locals)
  }

  /** What a coroutine's machine adds to a body, and what it leaves alone. */
  ghost predicate Built(src: Blocks, blocks0: Blocks, blocks: Blocks, base: nat, locals0: nat, locals: nat,
                        co: Coroutine, m: Machine) {
    && |blocks0| <= |blocks|
    && MachineShape(src, blocks, base, co, m, co.begin.0, 0)
    && MachineWithin(m, |blocks0|, |blocks|, locals0, locals)
    && blocks[m.exit] == Block([], Unreachable)
    && (forall b :: 0 <= b < |blocks0| && b !in BodyOf(src, co) ==> blocks[b] == blocks0[b])
    && BeginsKept(src, blocks, co)
    && RegionsLeft(blocks) == RegionsLeft(blocks0)
  }

  /** Region markers of the body are where they were, unless they went to another block. */
  ghost predicate BeginsKept(src: Blocks, blocks: Blocks, co: Coroutine) {
    forall b, i :: b in BodyOf(src, co) && b < |blocks| && 0 <= i < |src[b].stmts| && i < |blocks[b].stmts| ==>
      (src[b].stmts[i].RegionBegin? ==> blocks[b].stmts[i].RegionBegin?)
  }

  /** The body's own code is still there. */
  ghost predicate BodyIntact(src: Blocks, blocks: Blocks, co: Coroutine) {
    |src| <= |blocks| && forall b :: b in BodyOf(src, co) ==> blocks[b] == src[b]
  }

  function DoneBlock(w: Wires): Block<Stmt> {
    Block([AssignI64(w.poll, POLL_READY), AssignI64(w.state, DONE_STATE)], Goto(w.exit))
  }

  method EmitDone(body: Body<Stmt>, w: Wires) returns (b: BlockId)
    modifies body`blocks
    ensures b == |old(body.blocks)| && body.blocks == old(body.blocks) + [DoneBlock(w)]
  {
    b := body.NewBlock();
    body.Append(b, AssignI64(w.poll, POLL_READY));
    body.Append(b, AssignI64(w.state, DONE_STATE));
    body.SetTerm(b, Goto(w.exit));
    assert body.blocks[b].stmts == [AssignI64(w.poll, POLL_READY), AssignI64(w.state, DONE_STATE)];
  }

  /** A coroutine without suspensions runs to its end in its first poll. */
  function NoSuspension(blocks: Blocks, co: Coroutine, w: Wires, dispatch: BlockId, check: LocalId): Blocks
    requires dispatch < |blocks| && co.end.0 < |blocks| && dispatch != co.end.0
  {
    blocks[dispatch := Block([EqCheck(check, w.state, DONE_STATE)], Branch(check, w.exit, co.begin.0))]
          [co.end.0 := blocks[co.end.0].(term := Goto(|blocks|))]
      + [DoneBlock(w)]
  }

  method EmitNoSuspensionMachine(body: Body<Stmt>, co: Coroutine, w: Wires, dispatch: BlockId)
    returns (done: BlockId, check: LocalId)
    requires dispatch < |body.blocks| && co.end.0 < |body.blocks| && dispatch != co.end.0
    requires body.blocks[dispatch].stmts == []
    modifies body
    ensures check == old(body.locals) && body.locals == check + 1 && done == |old(body.blocks)|
    ensures body.blocks == NoSuspension(old(body.blocks), co, w, dispatch, check)
  {
    done := EmitDone(body, w);
    check := body.NewLocal();
    body.Append(dispatch, EqCheck(check, w.state, DONE_STATE));
    body.SetTerm(dispatch, Branch(check, w.exit, co.begin.0));
    body.SetTerm(co.end.0, Goto(done));
    assert body.blocks[dispatch].stmts == [EqCheck(check, w.state, DONE_STATE)];
  }

  /** Done and dispatch, once every site is cut. */
  function Dispatched(blocks: Blocks, co: Coroutine, w: Wires, dispatch: BlockId, cuts: seq<Cut>): Blocks
    requires dispatch < |blocks| && co.end.0 < |blocks| && dispatch != co.end.0
  {
    blocks[dispatch := blocks[dispatch].(term := Switch(w.state, Targets(co.begin.0, cuts), w.exit))]
          [co.end.0 := blocks[co.end.0].(term := Goto(|blocks|))]
      + [DoneBlock(w)]
  }

  /** State 0 is the entry, state `i` the resume block of suspension `i`. */
  method EmitMultiStateMachine(body: Body<Stmt>, co: Coroutine, sites: seq<Site>, w: Wires, dispatch: BlockId,
                               ghost m: Machine, ghost src: Blocks, ghost region: Region)
    returns (done: BlockId, cuts: seq<Cut>, ghost cut: Blocks)
    requires SitesApart(body.blocks, sites) && w == WiresOf(m)
    requires CleanCuts(src, region, sites) && SitesIntact(src, body.blocks, sites)
             && WiresIn(w, |src|, |body.blocks|, body.locals)
    requires KeptTidy(src, region, body.blocks, body.locals)
    requires dispatch < |body.blocks| && co.end.0 < |body.blocks| && dispatch != co.end.0
    modifies body
    ensures |cuts| == |sites|
    ensures |old(body.blocks)| <= |cut|
            && CutSoFar(old(body.blocks), cut, old(body.locals), body.locals, m, sites, cuts)
    ensures done == |cut| && body.blocks == Dispatched(cut, co, w, dispatch, cuts)
    ensures KeptTidy(src, region, cut, body.locals)
  {
    hide KeptTidy, CleanCuts, SitesIntact, WiresIn;
    cuts := EmitCuts(body, sites, w, m, src, region);
    cut := body.blocks;
    done := EmitDone(body, w);
    body.SetTerm(co.end.0, Goto(done));
    var targets := Targets(co.begin.0, cuts);
    body.SetTerm(dispatch, Switch(w.state, targets, w.exit));
    assert body.blocks == Dispatched(cut, co, w, dispatch, cuts);
  }

  lemma NoSuspensionShape(src: Blocks, blocks: Blocks, out: Blocks, base: nat, locals: nat, region: Region,
                          co: Coroutine, m: Machine)
    requires CoroutineOk(src, region, co) && AllSites(src, co, []) && BodyIntact(src, blocks, co)
    requires base <= locals && base <= m.progress < locals
    requires m == Machine(locals, locals + 1, m.progress, Some(locals + 2), |blocks|, |blocks| + 1, |blocks| + 2, [])
    requires co.end.0 < |blocks|
    requires out
             == NoSuspension(blocks + [Block([], Unreachable), Block([], Unreachable)], co, WiresOf(m), m.dispatch,
                             locals + 2)
    ensures MachineShape(src, out, base, co, m, co.begin.0, 0)
  {
    hide CoroutineOk, AllSites, PlainShape, BodyOf, BodyIntact;
    forall b | b in BodyOf(src, co)
      ensures PlainShape(src, out, co, m, co.begin.0, 0, b)
    {
      NoSuspensionPlain(src, blocks, out, locals, region, co, m, b);
    }
    assert forall l: nat :: Temporary(m, l) ==> l == locals + 2;
  }

  lemma NoSuspensionPlain(src: Blocks, blocks: Blocks, out: Blocks, locals: nat, region: Region, co: Coroutine,
                          m: Machine, b: BlockId)
    requires CoroutineOk(src, region, co) && AllSites(src, co, []) && BodyIntact(src, blocks, co)
    requires m.dispatch == |blocks| && m.exit == |blocks| + 1 && m.done == |blocks| + 2 && co.end.0 < |blocks|
    requires out
             == NoSuspension(blocks + [Block([], Unreachable), Block([], Unreachable)], co, WiresOf(m), m.dispatch,
                             locals + 2)
    requires b in BodyOf(src, co)
    ensures PlainShape(src, out, co, m, co.begin.0, 0, b)
  {
    NoSiteNoSuspension(src, region, co, [], b);
    hide CoroutineOk, AllSites, BodyOf;
    assert blocks[b] == src[b];
    assert src[b].stmts[0..] == src[b].stmts;
  }

  lemma NoSuspensionBuilt(src: Blocks, blocks: Blocks, out: Blocks, base: nat, locals: nat, region: Region,
                          co: Coroutine, m: Machine)
    requires CoroutineOk(src, region, co) && AllSites(src, co, []) && BodyIntact(src, blocks, co)
    requires base <= locals && base <= m.progress < locals
    requires m == Machine(locals, locals + 1, m.progress, Some(locals + 2), |blocks|, |blocks| + 1, |blocks| + 2, [])
    requires co.end.0 < |blocks|
    requires out
             == NoSuspension(blocks + [Block([], Unreachable), Block([], Unreachable)], co, WiresOf(m), m.dispatch,
                             locals + 2)
    ensures Built(src, blocks, out, base, locals, locals + 3, co, m)
  {
    hide CoroutineOk, AllSites, MachineShape, BodyOf, RegionsLeft;
    EndInBody(src, region, co);
    NoSuspensionShape(src, blocks, out, base, locals, region, co, m);
    NoSuspensionRegions(blocks, co, WiresOf(m), m.dispatch, locals + 2);
    assert forall l: nat :: Temporary(m, l) ==> l == locals + 2;
  }

  lemma TwoBlocks(blocks: Blocks)
    ensures RegionsLeft(blocks + [Block([], Unreachable), Block([], Unreachable)]) == RegionsLeft(blocks)
  {
    RegionsAppend(blocks, Block([], Unreachable));
    RegionsAppend(blocks + [Block([], Unreachable)], Block([], Unreachable));
    assert blocks + [Block([], Unreachable), Block([], Unreachable)] == blocks + [Block([], Unreachable)]
           + [Block([], Unreachable)];
  }

  lemma NoSuspensionRegions(blocks: Blocks, co: Coroutine, w: Wires, dispatch: BlockId, check: LocalId)
    requires dispatch == |blocks| && co.end.0 < |blocks|
    ensures RegionsLeft(NoSuspension(blocks + [Block([], Unreachable), Block([], Unreachable)], co, w, dispatch, check))
         == RegionsLeft(blocks)
  {
    hide RegionsLeft;
    var blocks1: Blocks := blocks + [Block([], Unreachable), Block([], Unreachable)];
    var b1: Block<Stmt> := Block([EqCheck(check, w.state, DONE_STATE)], Branch(check, w.exit, co.begin.0));
    var blocks2: Blocks := blocks1[dispatch := b1];
    TwoBlocks(blocks);
    NoBegins(b1.stmts);
    RegionsUpdate(blocks1, dispatch, b1);
    RegionsTerm(blocks2, co.end.0, Goto(|blocks1|));
    RegionsAppend(blocks2[co.end.0 := blocks2[co.end.0].(term := Goto(|blocks1|))], DoneBlock(w));
  }

  lemma DispatchedRegions(blocks: Blocks, co: Coroutine, w: Wires, dispatch: BlockId, cuts: seq<Cut>)
    requires dispatch < |blocks| && co.end.0 < |blocks| && dispatch != co.end.0
    ensures RegionsLeft(Dispatched(blocks, co, w, dispatch, cuts)) == RegionsLeft(blocks)
  {
    hide RegionsLeft;
    var t := Switch(w.state, Targets(co.begin.0, cuts), w.exit);
    var blocks1: Blocks := blocks[dispatch := blocks[dispatch].(term := t)];
    RegionsTerm(blocks, dispatch, t);
    RegionsTerm(blocks1, co.end.0, Goto(|blocks|));
    RegionsAppend(blocks1[co.end.0 := blocks1[co.end.0].(term := Goto(|blocks|))], DoneBlock(w));
  }

  /** The cuts survive the wiring of the end block and the dispatch. */
  lemma CutsOkAfter(src: Blocks, blocks0: Blocks, cut: Blocks, out: Blocks, locals0: nat, locals: nat,
                    region: Region, co: Coroutine, m: Machine, sites: seq<Site>)
    requires CoroutineOk(src, region, co) && AllSites(src, co, sites) && BodyIntact(src, blocks0, co)
    requires CutSoFar(blocks0, cut, locals0, locals, m, sites, m.cuts) && |m.cuts| == |sites| < DONE_STATE
    requires m.dispatch < |blocks0| && |src| <= m.dispatch && co.end.0 < |blocks0|
    requires |cut| <= |out| && forall b :: 0 <= b < |cut| && b != m.dispatch && b != co.end.0 ==> out[b] == cut[b]
    ensures CutsOk(src, out, co, m, co.begin.0, 0)
  {
    hide CoroutineOk, AllSites, IsSite, CutShape, BodyOf, Reachable, RegionsLeft, BodyIntact, CutWithin;
    SitesAreApart(src, region, co, sites);
    forall i | 0 <= i < |m.cuts|
      ensures m.cuts[i].bb in BodyOf(src, co) && StartOf(co, m.cuts[i].bb) <= m.cuts[i].idx
      ensures CutShape(src[m.cuts[i].bb], FromOf(co, 0, m.cuts[i].bb), HeadOf(co, co.begin.0, m.cuts[i].bb), out, m,
                       i + 1, m.cuts[i])
      ensures m.cuts[i].bb == sites[i].0
    {
      assert CutDone(blocks0, cut, locals0, locals, m, sites[i], i + 1, m.cuts[i]);
      CutOkAfter(src, blocks0, cut, out, locals0, locals, region, co, m, sites, i);
    }
  }

  lemma CutOkAfter(src: Blocks, blocks0: Blocks, cut: Blocks, out: Blocks, locals0: nat, locals: nat,
                   region: Region, co: Coroutine, m: Machine, sites: seq<Site>, i: nat)
    requires CoroutineOk(src, region, co) && AllSites(src, co, sites) && BodyIntact(src, blocks0, co)
    requires i < |sites| && i < |m.cuts| && CutDone(blocks0, cut, locals0, locals, m, sites[i], i + 1, m.cuts[i])
    requires m.dispatch < |blocks0| <= |cut| && |src| <= m.dispatch && co.end.0 < |blocks0|
    requires |cut| <= |out| && forall b :: 0 <= b < |cut| && b != m.dispatch && b != co.end.0 ==> out[b] == cut[b]
    ensures m.cuts[i].bb == sites[i].0 && m.cuts[i].bb in BodyOf(src, co) && StartOf(co, m.cuts[i].bb) <= m.cuts[i].idx
    ensures CutShape(src[m.cuts[i].bb], 0, m.cuts[i].bb, out, m, i + 1, m.cuts[i])
  {
    hide CoroutineOk, AllSites, IsSite, CutShape, BodyOf;
    SiteIsOne(src, co, sites, i);
    SiteFacts(src, region, co, sites[i]);
    var c := m.cuts[i];
    CutShapeKept(src[c.bb], 0, c.bb, cut, out, m, i + 1, c);
  }

  lemma SiteIsOne(src: Blocks, co: Coroutine, sites: seq<Site>, i: nat)
    requires AllSites(src, co, sites) && i < |sites|
    ensures IsSite(src, co, sites[i])
  {
    hide IsSite;
    assert sites[i] in sites;
  }

  lemma PlainAfter(src: Blocks, blocks0: Blocks, cut: Blocks, out: Blocks, locals0: nat, locals: nat,
                   region: Region, co: Coroutine, m: Machine, sites: seq<Site>, b: BlockId)
    requires CoroutineOk(src, region, co) && AllSites(src, co, sites) && BodyIntact(src, blocks0, co)
    requires CutSoFar(blocks0, cut, locals0, locals, m, sites, m.cuts) && |m.cuts| == |sites|
    requires |src| <= m.dispatch && co.end.0 < |blocks0|
    requires |cut| <= |out| && forall b :: 0 <= b < |cut| && b != m.dispatch && b != co.end.0 ==> out[b] == cut[b]
    requires out[co.end.0] == cut[co.end.0].(term := Goto(m.done))
    requires b in BodyOf(src, co) && !IsCutAt(m, b)
    ensures PlainShape(src, out, co, m, co.begin.0, 0, b)
  {
    hide CutShape, RegionsLeft;
    NotASite(blocks0, cut, locals0, locals, m, sites, b);
    NoSiteNoSuspension(src, region, co, sites, b);
    hide CoroutineOk, AllSites, BodyOf;
    assert cut[b] == blocks0[b] == src[b];
    assert src[b].stmts[0..] == src[b].stmts;
  }

  lemma NotASite(blocks0: Blocks, cut: Blocks, locals0: nat, locals: nat, m: Machine, sites: seq<Site>, b: BlockId)
    requires CutSoFar(blocks0, cut, locals0, locals, m, sites, m.cuts) && |m.cuts| == |sites| && !IsCutAt(m, b)
    ensures !IsSiteBlock(sites, |sites|, b)
  {
    hide CutShape, RegionsLeft;
    forall k | 0 <= k < |sites|
      ensures sites[k].0 != b
    {
      CutIsFor(blocks0, cut, locals0, locals, m, sites[k], k + 1, m.cuts[k]);
    }
  }

  lemma CutIsFor(blocks0: Blocks, cut: Blocks, locals0: nat, locals: nat, m: Machine, site: Site, code: int, c: Cut)
    requires CutDone(blocks0, cut, locals0, locals, m, site, code, c)
    ensures c.bb == site.0 && CutWithin(c, |blocks0|, |cut|) && (c.peek.Some? ==> locals0 <= c.peek.value < locals)
    ensures c.guard == c.bb ==> c.idx == 0
  {
  }

  lemma MultiShape(src: Blocks, blocks: Blocks, blocks0: Blocks, cut: Blocks, out: Blocks, base: nat, locals0: nat,
                   locals: nat, region: Region, co: Coroutine, m: Machine, sites: seq<Site>)
    requires CoroutineOk(src, region, co) && AllSites(src, co, sites) && BodyIntact(src, blocks0, co)
    requires blocks0 == blocks + [Block([], Unreachable), Block([], Unreachable)] && |src| <= |blocks|
    requires base <= locals0 && base <= m.progress < locals0
    requires m == Machine(locals0, locals0 + 1, m.progress, None, |blocks|, |blocks| + 1, |cut|, m.cuts)
    requires 0 < |m.cuts| == |sites| < DONE_STATE && co.end.0 < |blocks| && |blocks0| <= |cut|
    requires CutSoFar(blocks0, cut, locals0 + 2, locals, m, sites, m.cuts)
    requires out == Dispatched(cut, co, WiresOf(m), m.dispatch, m.cuts)
    ensures MachineShape(src, out, base, co, m, co.begin.0, 0)
  {
    hide CoroutineOk, AllSites, PlainShape, CutsOk, BodyOf, CutDone, BodyIntact, CutSoFar;
    DispatchIsBare(src, blocks, blocks0, cut, locals0 + 2, locals, region, co, m, sites);
    CutsOkAfter(src, blocks0, cut, out, locals0 + 2, locals, region, co, m, sites);
    CutsWithin(blocks0, cut, locals0 + 2, locals, m, sites);
    forall b | b in BodyOf(src, co) && !IsCutAt(m, b)
      ensures PlainShape(src, out, co, m, co.begin.0, 0, b)
    {
      PlainAfter(src, blocks0, cut, out, locals0 + 2, locals, region, co, m, sites, b);
    }
  }

  lemma DispatchIsBare(src: Blocks, blocks: Blocks, blocks0: Blocks, cut: Blocks, locals0: nat, locals: nat,
                       region: Region, co: Coroutine, m: Machine, sites: seq<Site>)
    requires CoroutineOk(src, region, co) && AllSites(src, co, sites)
    requires blocks0 == blocks + [Block([], Unreachable), Block([], Unreachable)] && |src| <= |blocks|
    requires CutSoFar(blocks0, cut, locals0, locals, m, sites, m.cuts) && |m.cuts| == |sites|
    ensures |blocks0| <= |cut| && cut[|blocks|] == Block([], Unreachable) && cut[|blocks| + 1] == Block([], Unreachable)
  {
    UntouchedByCuts(src, blocks0, cut, locals0, locals, region, co, m, sites);
    hide CoroutineOk, AllSites, CutDone, RegionsLeft;
    assert |blocks| !in BodyOf(src, co) && |blocks| + 1 !in BodyOf(src, co);
  }

  lemma MultiBuilt(src: Blocks, blocks: Blocks, cut: Blocks, out: Blocks, base: nat, locals0: nat, locals: nat,
                   region: Region, co: Coroutine, m: Machine, sites: seq<Site>)
    requires CoroutineOk(src, region, co) && AllSites(src, co, sites) && BodyIntact(src, blocks, co)
    requires base <= locals0 && base <= m.progress < locals0
    requires m == Machine(locals0, locals0 + 1, m.progress, None, |blocks|, |blocks| + 1, |cut|, m.cuts)
    requires 0 < |m.cuts| == |sites| < DONE_STATE && co.end.0 < |blocks| && |blocks| + 2 <= |cut|
    requires CutSoFar(blocks + [Block([], Unreachable), Block([], Unreachable)], cut, locals0 + 2, locals, m, sites,
                      m.cuts)
    requires out == Dispatched(cut, co, WiresOf(m), m.dispatch, m.cuts)
    ensures Built(src, blocks, out, base, locals0, locals, co, m)
  {
    hide CoroutineOk, AllSites, BodyOf, CutDone, MachineShape, BodyIntact, RegionsLeft, Temporary, CutSoFar, SitesApart,
         BeginsKept;
    var blocks0 := blocks + [Block([], Unreachable), Block([], Unreachable)];
    EndInBody(src, region, co);
    IntactLonger(src, blocks, blocks0, co);
    SitesAreApart(src, region, co, sites);
    MultiShape(src, blocks, blocks0, cut, out, base, locals0, locals, region, co, m, sites);
    DispatchIsBare(src, blocks, blocks0, cut, locals0 + 2, locals, region, co, m, sites);
    UntouchedByCuts(src, blocks0, cut, locals0 + 2, locals, region, co, m, sites);
    CutsWithin(blocks0, cut, locals0 + 2, locals, m, sites);
    DispatchedRegions(cut, co, WiresOf(m), m.dispatch, m.cuts);
    TwoBlocks(blocks);
    CutsKeepRegions(blocks0, cut, locals0 + 2, locals, m, sites);
    CutsKeepBegins(src, blocks0, cut, locals0 + 2, locals, region, co, m, sites);
    BeginsKeptAfter(src, cut, out, co);
  }

  lemma BeginsKeptAfter(src: Blocks, blocks: Blocks, out: Blocks, co: Coroutine)
    requires BeginsKept(src, blocks, co) && |src| <= |blocks| <= |out|
    requires forall b :: 0 <= b < |src| ==> out[b].stmts == blocks[b].stmts
    ensures BeginsKept(src, out, co)
  {
    hide BodyOf;
  }

  lemma CutsKeepBegins(src: Blocks, blocks0: Blocks, cut: Blocks, locals0: nat, locals: nat, region: Region,
                       co: Coroutine, m: Machine, sites: seq<Site>)
    requires BodyIntact(src, blocks0, co) && SitesApart(src, sites) && |m.cuts| == |sites|
    requires CutSoFar(blocks0, cut, locals0, locals, m, sites, m.cuts)
    ensures BeginsKept(src, cut, co)
  {
    hide CutShape, RegionsLeft, BodyOf;
    forall b, i | b in BodyOf(src, co) && b < |cut| && 0 <= i < |src[b].stmts| && i < |cut[b].stmts|
      && src[b].stmts[i].RegionBegin?
      ensures cut[b].stmts[i].RegionBegin?
    {
      if IsSiteBlock(sites, |sites|, b) {
        var k :| 0 <= k < |sites| && sites[k].0 == b;
        assert CutDone(blocks0, cut, locals0, locals, m, sites[k], k + 1, m.cuts[k]);
        assert HeadKept(blocks0[b].stmts, cut[b].stmts, sites[k].1);
        assert i != sites[k].1;
      }
    }
  }

  lemma CutsKeepRegions(blocks0: Blocks, cut: Blocks, locals0: nat, locals: nat, m: Machine, sites: seq<Site>)
    requires CutSoFar(blocks0, cut, locals0, locals, m, sites, m.cuts)
    ensures RegionsLeft(cut) == RegionsLeft(blocks0) && |blocks0| <= |cut| && locals0 <= locals
  {
  }

  lemma IntactLonger(src: Blocks, blocks: Blocks, blocks': Blocks, co: Coroutine)
    requires BodyIntact(src, blocks, co) && blocks <= blocks'
    ensures BodyIntact(src, blocks', co) && |src| <= |blocks|
  {
  }

  lemma CutsWithin(blocks0: Blocks, cut: Blocks, locals0: nat, locals: nat, m: Machine, sites: seq<Site>)
    requires CutSoFar(blocks0, cut, locals0, locals, m, sites, m.cuts) && m.check.None?
    ensures forall i :: 0 <= i < |m.cuts| ==>
              CutWithin(m.cuts[i], |blocks0|, |cut|) && (m.cuts[i].guard == m.cuts[i].bb ==> m.cuts[i].idx == 0)
    ensures forall l: nat :: Temporary(m, l) ==> locals0 <= l < locals
  {
    hide CutDone, CutWithin, RegionsLeft;
    forall i | 0 <= i < |m.cuts|
      ensures CutWithin(m.cuts[i], |blocks0|, |cut|) && (m.cuts[i].guard == m.cuts[i].bb ==> m.cuts[i].idx == 0)
      ensures m.cuts[i].peek.Some? ==> locals0 <= m.cuts[i].peek.value < locals
    {
      CutIsFor(blocks0, cut, locals0, locals, m, sites[i], i + 1, m.cuts[i]);
    }
  }

  lemma UntouchedByCuts(src: Blocks, blocks0: Blocks, cut: Blocks, locals0: nat, locals: nat,
                        region: Region, co: Coroutine, m: Machine, sites: seq<Site>)
    requires CoroutineOk(src, region, co) && AllSites(src, co, sites)
    requires CutSoFar(blocks0, cut, locals0, locals, m, sites, m.cuts) && |m.cuts| == |sites|
    ensures forall b: nat :: b < |blocks0| && b !in BodyOf(src, co) ==> cut[b] == blocks0[b]
  {
    hide CutDone, RegionsLeft, CoroutineOk, AllSites, BodyOf;
    forall b: nat | b < |blocks0| && b !in BodyOf(src, co)
      ensures cut[b] == blocks0[b]
    {
      if IsSiteBlock(sites, |sites|, b) {
        var k :| 0 <= k < |sites| && sites[k].0 == b;
        SiteIsOne(src, co, sites, k);
        SiteFacts(src, region, co, sites[k]);
        assert false;
      }
    }
  }

  // ── A machine leaves the body tidy ───────────────────────────────────

  /** Where a coroutine stands in its region: its markers are the region's, and its suspensions
      can be cut cleanly. */
  ghost predicate BelongsTo(src: Blocks, region: Region, co: Coroutine) {
    && co.begin.0 < |src| && co.end.0 < |src| && Touched(src, region, co.begin.0) && Touched(src, region, co.end.0)
    && (co.begin.0 == region.begin.0 ==> SharesFirst(region))
    && (OwnMarkers(src, region) ==> forall s :: IsSite(src, co, s) ==> CleanCut(src, region, s))
  }

  lemma EntryIsTidy(src: Blocks, region: Region, co: Coroutine, dispatch: BlockId, n: nat)
    requires BelongsTo(src, region, co) && |src| <= n && (co.begin.0 == region.begin.0 ==> dispatch == |src|)
    ensures TidyTarget(src, region, dispatch, co.begin.0, n)
  {
    hide OwnMarkers, IsSite, CleanCut, Touched, FromTouched;
  }

  lemma TidyBares(src: Blocks, region: Region, blocks: Blocks, locals: nat)
    requires KeptTidy(src, region, blocks, locals)
    ensures KeptTidy(src, region, blocks + [Block([], Unreachable), Block([], Unreachable)], locals + 2)
  {
    hide OwnMarkers, Tidy, TidyBlock;
    if OwnMarkers(src, region) {
      var bare: Block<Stmt> := Block([], Unreachable);
      var n := |blocks| + 2;
      TidyMore(src, region, blocks, |blocks|, locals, n, locals + 2);
      SystemIsTidy(src, region, |blocks|, bare, n, locals + 2);
      SystemIsTidy(src, region, |blocks| + 1, bare, n, locals + 2);
      TwoMore(src, region, blocks, n, locals + 2, bare, bare);
    }
  }

  lemma DoneIsTidy(src: Blocks, region: Region, w: Wires, n: nat, locals: nat)
    requires WiresIn(w, |src|, n, locals)
    ensures TidyBlock(src, region, n - 1, DoneBlock(w), n, locals)
  {
    SystemIsTidy(src, region, n - 1, DoneBlock(w), n, locals);
  }

  /** Wiring the dispatch and the end block. */
  lemma WiredTidy(src: Blocks, region: Region, blocks: Blocks, locals: nat, co: Coroutine, w: Wires, dispatch: BlockId,
                  block: Block<Stmt>)
    requires Tidy(src, region, blocks, |blocks| + 1, locals) && BelongsTo(src, region, co)
             && WiresIn(w, |src|, |blocks|, locals)
    requires |src| <= dispatch < |blocks| && co.end.0 < |blocks|
    requires TidyBlock(src, region, dispatch, block, |blocks| + 1, locals)
    ensures var out := blocks[dispatch := block][co.end.0 := blocks[co.end.0].(term := Goto(|blocks|))]
            + [DoneBlock(w)];
            Tidy(src, region, out, |out|, locals)
  {
    hide OwnMarkers, IsSite, CleanCut, Touched, TidyBlock, Tidy;
    TidyLength(src, region, blocks, |blocks| + 1, locals);
    TidySet(src, region, blocks, |blocks| + 1, locals, dispatch, block);
    var blocks1: Blocks := blocks[dispatch := block];
    SystemTermIsTidy(src, region, co.end.0, Goto(|blocks|), |blocks| + 1, locals);
    TidySetTerm(src, region, blocks1, |blocks| + 1, locals, co.end.0, Goto(|blocks|));
    DoneIsTidy(src, region, w, |blocks| + 1, locals);
    TidyAdd(src, region, blocks1[co.end.0 := blocks1[co.end.0].(term := Goto(|blocks|))], |blocks| + 1, locals,
            DoneBlock(w));
  }

  lemma NoSuspensionTidy(src: Blocks, region: Region, blocks: Blocks, locals: nat, co: Coroutine, w: Wires,
                         dispatch: BlockId)
    requires KeptTidy(src, region, blocks, locals) && BelongsTo(src, region, co) && WiresIn(w, |src|, |blocks|, locals)
    requires |src| <= dispatch < |blocks| && co.end.0 < |blocks| && (co.begin.0 == region.begin.0 ==> dispatch == |src|)
    ensures KeptTidy(src, region, NoSuspension(blocks, co, w, dispatch, locals), locals + 1)
  {
    hide OwnMarkers, IsSite, CleanCut, Touched, Tidy, BelongsTo, TidyTarget;
    if OwnMarkers(src, region) {
      var n := |blocks| + 1;
      var block: Block<Stmt> := Block([EqCheck(locals, w.state, DONE_STATE)], Branch(locals, w.exit, co.begin.0));
      TidyMore(src, region, blocks, |blocks|, locals, n, locals + 1);
      SystemTermIsTidy(src, region, dispatch, Goto(w.exit), n, locals + 1);
      assert w.exit in Successors(Goto(w.exit));
      EntryIsTidy(src, region, co, dispatch, n);
      WiredTidy(src, region, blocks, locals + 1, co, w, dispatch, block);
    }
  }

  /** Every resume leads to a new block or to the block its suspension opened. */
  lemma ResumesAreTidy(src: Blocks, region: Region, dispatch: BlockId, blocks0: Blocks, cut: Blocks, locals0: nat,
                       locals: nat, m: Machine, sites: seq<Site>, cuts: seq<Cut>, k: nat)
    requires CutSoFar(blocks0, cut, locals0, locals, m, sites, cuts) && k < |cuts| && |src| <= |blocks0|
    requires CleanCut(src, region, sites[k])
    ensures TidyTarget(src, region, dispatch, cuts[k].reentry, |cut| + 1)
  {
    hide RegionsLeft, Touched, FromTouched, CutShape;
    assert CutDone(blocks0, cut, locals0, locals, m, sites[k], k + 1, cuts[k]);
    ReentryIs(blocks0[sites[k].0], sites[k].0, cut, m, k + 1, cuts[k]);
  }

  lemma ReentryIs(block: Block<Stmt>, head: BlockId, out: Blocks, m: Machine, code: int, c: Cut)
    requires CutShape(block, 0, head, out, m, code, c)
    ensures c.reentry == c.guard || c.reentry == c.resume
  {
  }

  lemma DispatchedTidy(src: Blocks, region: Region, blocks0: Blocks, cut: Blocks, locals0: nat, locals: nat,
                       co: Coroutine, m: Machine, sites: seq<Site>, cuts: seq<Cut>, w: Wires, dispatch: BlockId)
    requires KeptTidy(src, region, cut, locals) && BelongsTo(src, region, co) && WiresIn(w, |src|, |cut|, locals)
    requires |src| <= |blocks0| && CutSoFar(blocks0, cut, locals0, locals, m, sites, cuts)
             && CleanCuts(src, region, sites)
    requires |src| <= dispatch < |cut| && co.end.0 < |cut| && dispatch != co.end.0
             && cut[dispatch] == Block([], Unreachable)
    requires co.begin.0 == region.begin.0 ==> dispatch == |src|
    ensures KeptTidy(src, region, Dispatched(cut, co, w, dispatch, cuts), locals)
  {
    hide OwnMarkers, IsSite, CleanCut, Touched, Tidy, BelongsTo, TidyTarget, CutSoFar;
    if OwnMarkers(src, region) {
      var n := |cut| + 1;
      var targets := Targets(co.begin.0, cuts);
      var t := Switch(w.state, targets, w.exit);
      TidyMore(src, region, cut, |cut|, locals, n, locals);
      SystemTermIsTidy(src, region, dispatch, Goto(w.exit), n, locals);
      assert w.exit in Successors(Goto(w.exit));
      EntryIsTidy(src, region, co, dispatch, n);
      CutsFit(blocks0, cut, locals0, locals, m, sites, cuts);
      forall next | next in Successors(t)
        ensures TidyTarget(src, region, dispatch, next, n)
      {
        if next != w.exit {
          var i :| 0 <= i < |targets| && targets[i].1 == next;
          if i > 0 {
            ResumesAreTidy(src, region, dispatch, blocks0, cut, locals0, locals, m, sites, cuts, i - 1);
          }
        }
      }
      WiredTidy(src, region, cut, locals, co, w, dispatch, Block([], t));
    }
  }

  lemma CutsFit(blocks0: Blocks, cut: Blocks, locals0: nat, locals: nat, m: Machine, sites: seq<Site>, cuts: seq<Cut>)
    requires CutSoFar(blocks0, cut, locals0, locals, m, sites, cuts)
    ensures |cuts| <= |sites|
  {
    hide CutDone, RegionsLeft;
  }

  lemma SitesAreClean(src: Blocks, region: Region, co: Coroutine, sites: seq<Site>)
    requires BelongsTo(src, region, co) && AllSites(src, co, sites)
    ensures CleanCuts(src, region, sites)
  {
    hide OwnMarkers, IsSite, CleanCut, Touched;
    forall k | 0 <= k < |sites|
      ensures IsSite(src, co, sites[k])
    {
      assert sites[k] in sites;
    }
  }

  method BuildPlain(body: Body<Stmt>, co: Coroutine, w: Wires, dispatch: BlockId, ghost src: Blocks, ghost base: nat,
                    ghost region: Region, ghost blocks0: Blocks) returns (m: Machine)
    requires CoroutineOk(src, region, co) && AllSites(src, co, []) && BodyIntact(src, blocks0, co)
    requires body.blocks == blocks0 + [Block([], Unreachable), Block([], Unreachable)] && body.locals >= 2
    requires w == Wires(body.locals - 2, body.locals - 1, w.progress, |blocks0| + 1) && dispatch == |blocks0|
    requires base <= w.progress < body.locals - 2
    requires BelongsTo(src, region, co) && (co.begin.0 == region.begin.0 ==> |blocks0| == |src|)
    requires KeptTidy(src, region, body.blocks, body.locals)
    modifies body
    ensures Built(src, blocks0, body.blocks, base, old(body.locals) - 2, body.locals, co, m)
    ensures m.progress == w.progress && m.cuts == []
    ensures KeptTidy(src, region, body.blocks, body.locals)
  {
    hide CoroutineOk, AllSites, BodyIntact, Built, NoSuspension, BodyOf, KeptTidy, BelongsTo;
    EndInBody(src, region, co);
    IntactLonger(src, blocks0, blocks0, co);
    NoSuspensionTidy(src, region, body.blocks, body.locals, co, w, dispatch);
    var done, check := EmitNoSuspensionMachine(body, co, w, dispatch);
    m := Machine(w.state, w.poll, w.progress, Some(check), dispatch, w.exit, done, []);
    NoSuspensionBuilt(src, blocks0, body.blocks, base, w.state, region, co, m);
  }

  method BuildMulti(body: Body<Stmt>, co: Coroutine, sites: seq<Site>, w: Wires, dispatch: BlockId, ghost src: Blocks,
                    ghost base: nat, ghost region: Region, ghost blocks0: Blocks) returns (m: Machine)
    requires CoroutineOk(src, region, co) && AllSites(src, co, sites) && BodyIntact(src, blocks0, co)
    requires 0 < |sites| < DONE_STATE
    requires body.blocks == blocks0 + [Block([], Unreachable), Block([], Unreachable)] && body.locals >= 2
    requires w == Wires(body.locals - 2, body.locals - 1, w.progress, |blocks0| + 1) && dispatch == |blocks0|
    requires base <= w.progress < body.locals - 2
    requires BelongsTo(src, region, co) && (co.begin.0 == region.begin.0 ==> |blocks0| == |src|)
    requires KeptTidy(src, region, body.blocks, body.locals)
    modifies body
    ensures Built(src, blocks0, body.blocks, base, old(body.locals) - 2, body.locals, co, m)
    ensures m.progress == w.progress && |m.cuts| == |sites|
    ensures KeptTidy(src, region, body.blocks, body.locals)
  {
    hide CoroutineOk, AllSites, BodyIntact, Built, CutSoFar, Dispatched, SitesApart, BodyOf, KeptTidy, BelongsTo,
         CleanCuts, SitesIntact;
    EndInBody(src, region, co);
    IntactLonger(src, blocks0, body.blocks, co);
    SitesAreApart(src, region, co, sites);
    SitesStayApart(src, body.blocks, region, co, sites);
    SitesAreClean(src, region, co, sites);
    SitesAreIntact(src, body.blocks, region, co, sites);
    ghost var m0 := Machine(w.state, w.poll, w.progress, None, dispatch, w.exit, 0, []);
    ghost var blocks1, locals1 := body.blocks, body.locals;
    var done, cuts, cut := EmitMultiStateMachine(body, co, sites, w, dispatch, m0, src, region);
    DispatchStaysBare(src, blocks0, cut, locals1, body.locals, region, co, m0, sites, cuts);
    DispatchedTidy(src, region, blocks1, cut, locals1, body.locals, co, m0, sites, cuts, w, dispatch);
    m := Machine(w.state, w.poll, w.progress, None, dispatch, w.exit, done, cuts);
    SameWires(blocks1, cut, locals1, body.locals, m0, m, sites, cuts);
    MultiBuilt(src, blocks0, cut, body.blocks, base, w.state, body.locals, region, co, m, sites);
  }

  /** Builds the machine of one coroutine of `src`, whose body is as it was. */
  method BuildStateMachine(body: Body<Stmt>, co: Coroutine, sites: seq<Site>, progress: LocalId,
                           ghost src: Blocks, ghost base: nat, ghost region: Region) returns (m: Machine)
    requires CoroutineOk(src, region, co) && AllSites(src, co, sites) && BodyIntact(src, body.blocks, co)
    requires |sites| < DONE_STATE && base <= progress < body.locals
    requires BelongsTo(src, region, co) && (co.begin.0 == region.begin.0 ==> |body.blocks| == |src|)
    requires KeptTidy(src, region, body.blocks, body.locals)
    modifies body
    ensures Built(src, old(body.blocks), body.blocks, base, old(body.locals), body.locals, co, m)
    ensures m.progress == progress && |m.cuts| == |sites|
    ensures KeptTidy(src, region, body.blocks, body.locals)
  {
    hide CoroutineOk, AllSites, BodyIntact, Built, KeptTidy, BelongsTo;
    ghost var blocks0 := body.blocks;
    TidyBares(src, region, blocks0, body.locals);
    var state := body.NewLocal();
    var poll := body.NewLocal();
    var dispatch := body.NewBlock();
    var exit := body.NewBlock();
    assert body.blocks == blocks0 + [Block([], Unreachable), Block([], Unreachable)];
    var w := Wires(state, poll, progress, exit);
    if |sites| == 0 {
      SitesEmpty(src, co, sites);
      m := BuildPlain(body, co, w, dispatch, src, base, region, blocks0);
    } else {
      m := BuildMulti(body, co, sites, w, dispatch, src, base, region, blocks0);
    }
  }

  lemma EndInBody(src: Blocks, region: Region, co: Coroutine)
    requires CoroutineOk(src, region, co)
    ensures co.end.0 in BodyOf(src, co) && co.end.0 < |src|
  {
  }

  lemma SitesEmpty(src: Blocks, co: Coroutine, sites: seq<Site>)
    requires AllSites(src, co, sites) && |sites| == 0
    ensures AllSites(src, co, [])
  {
    assert sites == [];
  }

  lemma SitesStayApart(src: Blocks, blocks: Blocks, region: Region, co: Coroutine, sites: seq<Site>)
    requires CoroutineOk(src, region, co) && AllSites(src, co, sites) && SitesApart(src, sites)
             && BodyIntact(src, blocks, co)
    ensures SitesApart(blocks, sites)
  {
    hide CoroutineOk, AllSites, BodyOf;
    forall k | 0 <= k < |sites|
      ensures sites[k].0 in BodyOf(src, co)
    {
      SiteIsOne(src, co, sites, k);
      SiteFacts(src, region, co, sites[k]);
    }
  }

  lemma SitesAreIntact(src: Blocks, blocks: Blocks, region: Region, co: Coroutine, sites: seq<Site>)
    requires CoroutineOk(src, region, co) && AllSites(src, co, sites) && BodyIntact(src, blocks, co)
    ensures SitesIntact(src, blocks, sites) && |src| <= |blocks|
  {
    hide CoroutineOk, AllSites, BodyOf;
    forall k | 0 <= k < |sites|
      ensures sites[k].0 in BodyOf(src, co) && sites[k].0 < |src|
    {
      SiteIsOne(src, co, sites, k);
      SiteFacts(src, region, co, sites[k]);
    }
  }

  lemma DispatchStaysBare(src: Blocks, blocks: Blocks, cut: Blocks, locals0: nat, locals: nat,
                          region: Region, co: Coroutine, m: Machine, sites: seq<Site>, cuts: seq<Cut>)
    requires CoroutineOk(src, region, co) && AllSites(src, co, sites) && |src| <= |blocks| && |cuts| == |sites|
    requires CutSoFar(blocks + [Block([], Unreachable), Block([], Unreachable)], cut, locals0, locals, m, sites, cuts)
    ensures |blocks| + 2 <= |cut| && cut[|blocks|] == Block([], Unreachable) && locals0 <= locals
  {
    hide CoroutineOk, AllSites, CutSoFar;
    var m1 := m.(cuts := cuts);
    SameWires(blocks + [Block([], Unreachable), Block([], Unreachable)], cut, locals0, locals, m, m1, sites, cuts);
    DispatchIsBare(src, blocks, blocks + [Block([], Unreachable), Block([], Unreachable)], cut, locals0, locals, region,
                   co, m1, sites);
    CutsKeepRegions(blocks + [Block([], Unreachable), Block([], Unreachable)], cut, locals0, locals, m1, sites);
  }

  lemma SameWires(blocks0: Blocks, blocks: Blocks, locals0: nat, locals: nat, m: Machine, m': Machine, sites: seq<Site>,
                  cuts: seq<Cut>)
    requires CutSoFar(blocks0, blocks, locals0, locals, m, sites, cuts) && WiresOf(m) == WiresOf(m')
    ensures CutSoFar(blocks0, blocks, locals0, locals, m', sites, cuts)
  {
    hide RegionsLeft, CutDone;
    forall k | 0 <= k < |cuts|
      ensures CutDone(blocks0, blocks, locals0, locals, m', sites[k], k + 1, cuts[k])
    {
      OneSameWires(blocks0, blocks, locals0, locals, m, m', sites[k], k + 1, cuts[k]);
    }
  }

  lemma OneSameWires(blocks0: Blocks, blocks: Blocks, locals0: nat, locals: nat, m: Machine, m': Machine, site: Site,
                     code: int, c: Cut)
    requires CutDone(blocks0, blocks, locals0, locals, m, site, code, c) && WiresOf(m) == WiresOf(m')
    ensures CutDone(blocks0, blocks, locals0, locals, m', site, code, c)
  {
  }
}
