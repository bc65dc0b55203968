/** Emitting the one-shot structure.

The structure visits the machines in order: a check, the machine's dispatch, and the blocks
that take its exit to the next check. The methods follow the source's loop. What they leave
behind is said by a predicate on how many visits are laid out: those have their final shape,
the next one begins in an empty block, and everything older is as it was, machines' exits and
the region's end aside. The two ways out are created first, and the pending one stays empty.
*/
module OneShotEmission {
  import opened Cfg
  import opened Coroutines
  import opened Regions
  import opened Machines
  import opened OneShot
  import opened Markers
  import opened Footprint
  import opened Finishing
  import opened CoopEmission

  // ── One coroutine's visit ────────────────────────────────────────────

  function VisitAt(n: nat, l: nat, check: BlockId): Visit {
    Visit(check, n, n + 1, n + 2, n + 3, l, l + 1)
  }

  function VisitOf(blocks: Blocks, cur: BlockId, first: bool, isDone: LocalId): Visit {
    if first then VisitAt(|blocks|, isDone, cur) else VisitAt(|blocks| + 1, isDone, |blocks|)
  }

  function ReadyBlock(m: Machine, v: Visit): Block<Stmt> {
    Block([EqCheck(v.isReady, m.poll, POLL_READY)], Branch(v.isReady, v.markDone, v.markPending))
  }

  /** What follows a poll: latch completion, or note that the region is not done. */
  function Outcomes(m: Machine, allDone: LocalId, v: Visit): Blocks {
    [Block([AssignI64(m.state, DONE_STATE)], Goto(v.next)), Block([AssignBool(allDone, false)], Goto(v.next)), BARE]
  }

  /** A whole visit. */
  function WithVisit(blocks: Blocks, m: Machine, cur: BlockId, first: bool, allDone: LocalId, isDone: LocalId): Blocks
    requires cur < |blocks| && m.exit < |blocks|
  {
    var checked := Checked(blocks, m, cur, first, isDone);
    var v := VisitOf(blocks, cur, first, isDone);
    checked[|checked| - 1 := ReadyBlock(m, v)] + Outcomes(m, allDone, v)
  }

  method EmitOutcomes(body: Body<Stmt>, m: Machine, check: BlockId, after: BlockId, isDone: LocalId, allDone: LocalId)
    returns (v: Visit)
    requires after < |body.blocks| && body.blocks[after] == BARE && after + 1 == |body.blocks|
             && body.locals == isDone + 1
    modifies body
    ensures v == VisitAt(after, isDone, check) && body.locals == isDone + 2
    ensures body.blocks == old(body.blocks)[after := ReadyBlock(m, v)] + Outcomes(m, allDone, v)
  {
    var isReady := body.NewLocal();
    body.Append(after, EqCheck(isReady, m.poll, POLL_READY));
    var markDone := body.NewBlock();
    var markPending := body.NewBlock();
    var next := body.NewBlock();
    body.SetTerm(after, Branch(isReady, markDone, markPending));
    body.Append(markDone, AssignI64(m.state, DONE_STATE));
    body.SetTerm(markDone, Goto(next));
    body.Append(markPending, AssignBool(allDone, false));
    body.SetTerm(markPending, Goto(next));
    v := Visit(check, after, markDone, markPending, next, isDone, isReady);
    assert body.blocks[after].stmts == [EqCheck(isReady, m.poll, POLL_READY)];
    assert body.blocks[markDone].stmts == [AssignI64(m.state, DONE_STATE)];
    assert body.blocks[markPending].stmts == [AssignBool(allDone, false)];
  }

  method EmitVisit(body: Body<Stmt>, m: Machine, cur: BlockId, first: bool, allDone: LocalId) returns (v: Visit)
    requires cur < |body.blocks| && m.exit < |body.blocks| && cur != m.exit
    modifies body
    ensures v == VisitOf(old(body.blocks), cur, first, old(body.locals)) && body.locals == old(body.locals) + 2
    ensures body.blocks == WithVisit(old(body.blocks), m, cur, first, allDone, old(body.locals))
  {
    var check, after, isDone := EmitCheck(body, m, cur, first);
    v := EmitOutcomes(body, m, check, after, isDone, allDone);
  }

  ghost predicate VisitIn(v: Visit, top: BlockId, first: bool, lo: nat, hi: nat) {
    && (if first then v.check == top && top < lo else lo <= v.check < hi)
    && lo <= v.after < hi && lo <= v.markDone < hi && lo <= v.markPending < hi && lo <= v.next < hi
    && v.next != v.check && v.next != v.after && v.next != v.markDone && v.next != v.markPending
  }

  ghost predicate VisitLocalsIn(v: Visit, lo: nat, hi: nat) {
    lo <= v.isDone < hi && lo <= v.isReady < hi
  }

  lemma VisitSize(blocks: Blocks, m: Machine, cur: BlockId, first: bool, allDone: LocalId, isDone: LocalId)
    requires cur < |blocks| && m.exit < |blocks| && cur != m.exit
    ensures var out := WithVisit(blocks, m, cur, first, allDone, isDone);
            && |out| == |blocks| + (if first then 4 else 5)
            && forall b :: 0 <= b < |blocks| && b != cur && b != m.exit ==> out[b] == blocks[b]
    ensures VisitIn(VisitOf(blocks, cur, first, isDone), cur, first, |blocks|,
                    |WithVisit(blocks, m, cur, first, allDone, isDone)|)
    ensures VisitLocalsIn(VisitOf(blocks, cur, first, isDone), isDone, isDone + 2)
  {
  }

  lemma VisitIsShaped(blocks: Blocks, m: Machine, cur: BlockId, first: bool, allDone: LocalId, isDone: LocalId)
    requires cur < |blocks| && m.exit < |blocks| && cur != m.exit && blocks[m.exit] == BARE
    requires blocks[cur] == if first then Block([AssignBool(allDone, true)], Unreachable) else BARE
    ensures var out := WithVisit(blocks, m, cur, first, allDone, isDone);
            var v := VisitOf(blocks, cur, first, isDone);
            && VisitShape(out, m, allDone, v, first) && out[v.next] == BARE
            && (!first ==> Is(out, cur, [], Goto(v.check)))
  {
    var out := WithVisit(blocks, m, cur, first, allDone, isDone);
    if first {
      assert out[cur].stmts == [AssignBool(allDone, true), EqCheck(isDone, m.state, DONE_STATE)];
    }
  }

  lemma VisitRegions(blocks: Blocks, m: Machine, cur: BlockId, first: bool, allDone: LocalId, isDone: LocalId)
    requires cur < |blocks| && m.exit < |blocks| && cur != m.exit
    ensures RegionsLeft(WithVisit(blocks, m, cur, first, allDone, isDone)) == RegionsLeft(blocks)
  {
    hide RegionsLeft, Begins, Checked, Outcomes, ReadyBlock;
    CheckedRegions(blocks, m, cur, first, isDone);
    CheckedLast(blocks, m, cur, first, isDone);
    var checked := Checked(blocks, m, cur, first, isDone);
    var after: nat := |checked| - 1;
    var v := VisitOf(blocks, cur, first, isDone);
    OutcomeRegions(m, allDone, v);
    RegionsUpdate(checked, after, ReadyBlock(m, v));
    RegionsConcat(checked[after := ReadyBlock(m, v)], Outcomes(m, allDone, v));
  }

  lemma OutcomeRegions(m: Machine, allDone: LocalId, v: Visit)
    ensures RegionsLeft(Outcomes(m, allDone, v)) == 0 && Begins(ReadyBlock(m, v).stmts) == 0
  {
    var outcomes := Outcomes(m, allDone, v);
    NoBegins(ReadyBlock(m, v).stmts);
    forall b | 0 <= b < |outcomes|
      ensures Begins(outcomes[b].stmts) == 0
    {
      NoBegins(outcomes[b].stmts);
    }
    NoRegions(outcomes);
  }

  // ── The chain of visits ──────────────────────────────────────────────

  /** Visit `k` is laid out, all but its last block. */
  ghost predicate VisitMade(blocks: Blocks, ms: seq<Machine>, lay: Shot, k: nat, n1: nat, l1: nat, locals: nat) {
    && k < |ms| && k < |lay.visits|
    && VisitShape(blocks, ms[k], lay.allDone, lay.visits[k], k == 0)
    && VisitIn(lay.visits[k], lay.top, k == 0, n1, |blocks|)
    && VisitLocalsIn(lay.visits[k], l1, locals)
  }

  /** The blocks of visit `k` other than its last. */
  ghost predicate OfVisit(ms: seq<Machine>, v: Visit, k: nat, b: BlockId)
    requires k < |ms|
  {
    b == v.check || b == v.after || b == v.markDone || b == v.markPending || b == ms[k].exit
  }

  /** The first `|lay.visits|` visits are laid out behind `lay.top`; the next begins in `cur`. */
  ghost predicate VisitsMade(blocks1: Blocks, blocks: Blocks, ms: seq<Machine>, lay: Shot, cur: BlockId, l1: nat,
                             locals: nat) {
    var i := |lay.visits|;
    && i <= |ms| && |blocks1| <= |blocks| && lay.top < |blocks1| && l1 <= locals
    && (forall k :: 0 <= k < i ==> VisitMade(blocks, ms, lay, k, |blocks1|, l1, locals))
    && (forall k :: 0 <= k < i - 1 ==> Is(blocks, lay.visits[k].next, [], Goto(lay.visits[k + 1].check)))
    && (if i == 0 then cur == lay.top && blocks == blocks1
        else cur == lay.visits[i - 1].next && cur < |blocks| && blocks[cur] == BARE)
    && (forall k :: 0 <= k < i ==> !OfVisit(ms, lay.visits[k], k, cur) && (k < i - 1 ==> lay.visits[k].next != cur))
    && (forall b: nat :: b < |blocks1| && b != lay.top && !IsExit(ms, i, b) ==> blocks[b] == blocks1[b])
    && RegionsLeft(blocks) == RegionsLeft(blocks1)
  }

  lemma VisitShapeKept(out: Blocks, out': Blocks, m: Machine, allDone: LocalId, v: Visit, first: bool)
    requires VisitShape(out, m, allDone, v, first) && |out| <= |out'|
    requires out'[v.check] == out[v.check] && out'[v.after] == out[v.after] && out'[m.exit] == out[m.exit]
    requires out'[v.markDone] == out[v.markDone] && out'[v.markPending] == out[v.markPending]
    ensures VisitShape(out', m, allDone, v, first)
  {
  }

  lemma VisitShapeInRange(out: Blocks, m: Machine, allDone: LocalId, v: Visit, first: bool)
    requires VisitShape(out, m, allDone, v, first)
    ensures v.check < |out| && v.after < |out| && m.exit < |out| && v.markDone < |out| && v.markPending < |out|
  {
  }

  lemma OldVisit(blocks1: Blocks, blocks: Blocks, out: Blocks, ms: seq<Machine>, lay: Shot, lay': Shot, cur: BlockId,
                 k: nat, l1: nat, locals: nat, locals': nat)
    requires VisitMade(blocks, ms, lay, k, |blocks1|, l1, locals) && !OfVisit(ms, lay.visits[k], k, cur)
    requires |lay.visits| < |ms| && k < |lay.visits| && lay'.top == lay.top && lay'.allDone == lay.allDone
    requires |lay'.visits| == |lay.visits| + 1 && lay'.visits[k] == lay.visits[k] && locals <= locals'
    requires |blocks1| <= |blocks| <= |out|
    requires ExitsApart(ms, |blocks1|) && lay.top != ms[|lay.visits|].exit
    requires forall b :: 0 <= b < |blocks| && b != cur && b != ms[|lay.visits|].exit ==> out[b] == blocks[b]
    ensures VisitMade(out, ms, lay', k, |blocks1|, l1, locals')
  {
    var v, e := lay.visits[k], ms[|lay.visits|].exit;
    VisitShapeInRange(blocks, ms[k], lay.allDone, v, k == 0);
    assert ms[k].exit != e && e < |blocks1|;
    assert v.check != e && v.after != e && v.markDone != e && v.markPending != e;
    VisitShapeKept(blocks, out, ms[k], lay.allDone, v, k == 0);
    hide VisitShape;
  }

  lemma VisitsMadeStep(blocks1: Blocks, blocks: Blocks, ms: seq<Machine>, lay: Shot, cur: BlockId, l1: nat, locals: nat)
    requires VisitsMade(blocks1, blocks, ms, lay, cur, l1, locals) && |lay.visits| < |ms|
    requires ExitsApart(ms, |blocks1|) && forall i :: 0 <= i < |ms| ==>
               ms[i].exit != lay.top && blocks1[ms[i].exit] == BARE
    requires blocks1[lay.top] == Block([AssignBool(lay.allDone, true)], Unreachable)
    ensures var m := ms[|lay.visits|]; var first := |lay.visits| == 0;
            && cur < |blocks| && m.exit < |blocks| && cur != m.exit
            && var v := VisitOf(blocks, cur, first, locals);
               VisitsMade(blocks1, WithVisit(blocks, m, cur, first, lay.allDone, locals), ms,
                          lay.(visits := lay.visits + [v]), v.next, l1, locals + 2)
  {
    hide WithVisit, RegionsLeft, VisitShape, OfVisit;
    var i := |lay.visits|;
    var m, first := ms[i], i == 0;
    HereIsReady(blocks1, blocks, ms, lay, cur, l1, locals);
    var out := WithVisit(blocks, m, cur, first, lay.allDone, locals);
    var v := VisitOf(blocks, cur, first, locals);
    var lay' := lay.(visits := lay.visits + [v]);
    VisitSize(blocks, m, cur, first, lay.allDone, locals);
    VisitIsShaped(blocks, m, cur, first, lay.allDone, locals);
    VisitRegions(blocks, m, cur, first, lay.allDone, locals);
    forall k | 0 <= k < i
      ensures VisitMade(out, ms, lay', k, |blocks1|, l1, locals + 2)
      ensures !OfVisit(ms, lay'.visits[k], k, v.next) && lay'.visits[k].next != v.next
    {
      OldVisit(blocks1, blocks, out, ms, lay, lay', cur, k, l1, locals, locals + 2);
      VisitIsOlder(blocks, ms, lay, k, |blocks1|, l1, locals, v.next);
    }
    NewVisit(blocks1, blocks, out, ms, lay, lay', cur, v, l1, locals);
    forall k | 0 <= k < i
      ensures Is(out, lay'.visits[k].next, [], Goto(lay'.visits[k + 1].check))
    {
      NextVisitKept(blocks1, blocks, out, ms, lay, lay', cur, k, v, l1, locals);
    }
    forall b: nat | b < |blocks1| && b != lay.top && !IsExit(ms, i + 1, b)
      ensures out[b] == blocks1[b]
    {
      assert ms[i].exit != b;
      assert !IsExit(ms, i, b);
      HereIsHigh(blocks1, blocks, ms, lay, cur, l1, locals);
    }
  }

  lemma HereIsHigh(blocks1: Blocks, blocks: Blocks, ms: seq<Machine>, lay: Shot, cur: BlockId, l1: nat, locals: nat)
    requires VisitsMade(blocks1, blocks, ms, lay, cur, l1, locals)
    ensures if |lay.visits| == 0 then cur == lay.top else |blocks1| <= cur < |blocks|
  {
    hide VisitShape, OfVisit, RegionsLeft;
    if |lay.visits| > 0 {
      assert VisitMade(blocks, ms, lay, |lay.visits| - 1, |blocks1|, l1, locals);
    }
  }

  lemma HereIsReady(blocks1: Blocks, blocks: Blocks, ms: seq<Machine>, lay: Shot, cur: BlockId, l1: nat, locals: nat)
    requires VisitsMade(blocks1, blocks, ms, lay, cur, l1, locals) && |lay.visits| < |ms|
    requires ExitsApart(ms, |blocks1|) && forall i :: 0 <= i < |ms| ==>
               ms[i].exit != lay.top && blocks1[ms[i].exit] == BARE
    requires blocks1[lay.top] == Block([AssignBool(lay.allDone, true)], Unreachable)
    ensures var m := ms[|lay.visits|];
            && cur < |blocks| && m.exit < |blocks1| <= |blocks| && cur != m.exit && blocks[m.exit] == BARE
            && blocks[cur] == if |lay.visits| == 0 then Block([AssignBool(lay.allDone, true)], Unreachable) else BARE
  {
    hide VisitShape, OfVisit, RegionsLeft, VisitMade;
    HereIsHigh(blocks1, blocks, ms, lay, cur, l1, locals);
    var i := |lay.visits|;
    assert forall k :: 0 <= k < i ==> ms[k].exit != ms[i].exit;
    assert !IsExit(ms, i, ms[i].exit);
  }

  lemma VisitIsOlder(blocks: Blocks, ms: seq<Machine>, lay: Shot, k: nat, n1: nat, l1: nat, locals: nat, next: BlockId)
    requires VisitMade(blocks, ms, lay, k, n1, l1, locals) && |blocks| <= next && n1 <= |blocks|
    ensures !OfVisit(ms, lay.visits[k], k, next) && lay.visits[k].next != next
  {
    VisitShapeInRange(blocks, ms[k], lay.allDone, lay.visits[k], k == 0);
    hide VisitShape;
  }

  lemma NewVisit(blocks1: Blocks, blocks: Blocks, out: Blocks, ms: seq<Machine>, lay: Shot, lay': Shot, cur: BlockId,
                 v: Visit, l1: nat, locals: nat)
    requires VisitsMade(blocks1, blocks, ms, lay, cur, l1, locals) && |lay.visits| < |ms|
    requires lay' == lay.(visits := lay.visits + [v])
    requires VisitShape(out, ms[|lay.visits|], lay.allDone, v, |lay.visits| == 0)
    requires VisitIn(v, cur, |lay.visits| == 0, |blocks|, |out|) && VisitLocalsIn(v, locals, locals + 2)
    requires ms[|lay.visits|].exit < |blocks1|
    ensures VisitMade(out, ms, lay', |lay.visits|, |blocks1|, l1, locals + 2)
    ensures !OfVisit(ms, v, |lay.visits|, v.next)
  {
    hide RegionsLeft, VisitMade, VisitShape;
    var i := |lay.visits|;
    assert lay'.visits[i] == v;
    MakeVisit(out, ms, lay', i, |blocks1|, l1, locals + 2);
  }

  lemma MakeVisit(blocks: Blocks, ms: seq<Machine>, lay: Shot, k: nat, n1: nat, l1: nat, locals: nat)
    requires k < |ms| && k < |lay.visits| && VisitShape(blocks, ms[k], lay.allDone, lay.visits[k], k == 0)
    requires VisitIn(lay.visits[k], lay.top, k == 0, n1, |blocks|) && VisitLocalsIn(lay.visits[k], l1, locals)
    ensures VisitMade(blocks, ms, lay, k, n1, l1, locals)
  {
    hide VisitShape;
  }

  lemma NextVisitKept(blocks1: Blocks, blocks: Blocks, out: Blocks, ms: seq<Machine>, lay: Shot, lay': Shot,
                      cur: BlockId, k: nat, v: Visit, l1: nat, locals: nat)
    requires VisitsMade(blocks1, blocks, ms, lay, cur, l1, locals) && k < |lay.visits| < |ms|
    requires lay' == lay.(visits := lay.visits + [v]) && |blocks| <= |out|
    requires forall b :: 0 <= b < |blocks| && b != cur && b != ms[|lay.visits|].exit ==> out[b] == blocks[b]
    requires Is(out, cur, [], Goto(v.check)) && ms[|lay.visits|].exit < |blocks1|
    ensures Is(out, lay'.visits[k].next, [], Goto(lay'.visits[k + 1].check))
  {
    hide VisitShape, OfVisit, RegionsLeft;
    assert VisitMade(blocks, ms, lay, k, |blocks1|, l1, locals);
    if k < |lay.visits| - 1 {
      assert Is(blocks, lay.visits[k].next, [], Goto(lay.visits[k + 1].check));
    }
  }

  // ── The whole structure ──────────────────────────────────────────────

  /** The top of the structure and its two ways out. */
  function Opened(blocks: Blocks, region: Region, allDone: LocalId): Blocks
    requires region.end.0 < |blocks|
  {
    var re := blocks[region.end.0];
    blocks[region.end.0 := Block(re.stmts, Unreachable)]
      + [Block([AssignBool(allDone, true)], Unreachable), Block([], Goto(|blocks| + 3)), BARE, Block([], re.term)]
  }

  method EmitOpening(body: Body<Stmt>, region: Region) returns (lay: Shot)
    requires region.end.0 < |body.blocks| && |body.blocks[region.end.0].stmts| > 0
    modifies body
    ensures body.locals == old(body.locals) + 1
    ensures var n := |old(body.blocks)|; lay == Shot(n, n + 1, n + 2, n + 3, old(body.locals), [])
    ensures body.blocks == Opened(old(body.blocks), region, lay.allDone)
  {
    var top := body.NewBlock();
    var done := body.NewBlock();
    var pending := body.NewBlock();
    var last := |body.blocks[region.end.0].stmts| - 1;
    var post := body.SplitAfter(region.end.0, last);
    body.SetTerm(done, Goto(post));
    var allDone := body.NewLocal();
    body.Append(top, AssignBool(allDone, true));
    lay := Shot(top, done, pending, post, allDone, []);
    ghost var re := old(body.blocks)[region.end.0];
    assert re.stmts[..last + 1] == re.stmts && re.stmts[last + 1..] == [];
    assert body.blocks[top].stmts == [AssignBool(allDone, true)];
  }

  /** The fork at the end of the pass, with `waiting` in the pending block. */
  function Forked(blocks: Blocks, cur: BlockId, waiting: Term, lay: Shot): Blocks
    requires cur < |blocks| && lay.pending < |blocks|
  {
    blocks[cur := blocks[cur].(term := Branch(lay.allDone, lay.done, lay.pending))]
          [lay.pending := Block([], waiting)]
  }

  /** The executor's blocks lie above `n`. */
  ghost predicate ShotAbove(lay: Shot, n: nat) {
    && n <= lay.top && n <= lay.pending
    && forall k :: 0 <= k < |lay.visits| ==>
         && n <= lay.visits[k].check && n <= lay.visits[k].after && n <= lay.visits[k].markDone
         && n <= lay.visits[k].markPending && n <= lay.visits[k].next
  }

  /** The structure is in place and the rest as it was, exits and the region's end aside. */
  ghost predicate ShotEmitted(blocks0: Blocks, blocks: Blocks, base: nat, region: Region, ms: seq<Machine>,
                              waiting: Term, lay: Shot) {
    && ExecutorIn(blocks0, blocks, region, ms, lay.done, lay.post)
    && VisitsShape(blocks, base, ms, waiting, lay) && ShotAbove(lay, |blocks0|)
  }

  /** With the host's own way of waiting in the pending block. */
  function Waiting(blocks: Blocks, lay: Shot, waiting: Term): Blocks
    requires lay.pending < |blocks|
  {
    blocks[lay.pending := Block([], waiting)]
  }

  lemma OpenedFacts(blocks: Blocks, region: Region, allDone: LocalId)
    requires region.end.0 < |blocks|
    ensures var out := Opened(blocks, region, allDone); var n := |blocks|;
            && |out| == n + 4 && RegionsLeft(out) == RegionsLeft(blocks)
            && out[n] == Block([AssignBool(allDone, true)], Unreachable)
            && out[n + 1] == Block([], Goto(n + 3)) && out[n + 2] == BARE
            && out[n + 3] == Block([], blocks[region.end.0].term)
            && out[region.end.0].stmts == blocks[region.end.0].stmts
            && forall b :: 0 <= b < n && b != region.end.0 ==> out[b] == blocks[b]
  {
    hide RegionsLeft;
    var re := blocks[region.end.0];
    var blocks1: Blocks := blocks[region.end.0 := re.(term := Unreachable)];
    var b0: Block<Stmt> := Block([AssignBool(allDone, true)], Unreachable);
    var b1: Block<Stmt> := Block([], Goto(|blocks| + 3));
    var b3: Block<Stmt> := Block([], re.term);
    RegionsTerm(blocks, region.end.0, Unreachable);
    RegionsAppend(blocks1, b0);
    RegionsAppend(blocks1 + [b0], b1);
    RegionsAppend(blocks1 + [b0] + [b1], BARE);
    RegionsAppend(blocks1 + [b0] + [b1] + [BARE], b3);
    assert Opened(blocks, region, allDone) == blocks1 + [b0] + [b1] + [BARE] + [b3];
  }

  lemma ForkedFacts(blocks: Blocks, cur: BlockId, waiting: Term, lay: Shot)
    requires cur < |blocks| && lay.pending < |blocks| && cur != lay.pending && blocks[lay.pending] == BARE
    ensures var out := Forked(blocks, cur, waiting, lay);
            && |out| == |blocks| && RegionsLeft(out) == RegionsLeft(blocks)
            && out[cur] == blocks[cur].(term := Branch(lay.allDone, lay.done, lay.pending))
            && Is(out, lay.pending, [], waiting)
            && forall b :: 0 <= b < |blocks| && b != cur && b != lay.pending ==> out[b] == blocks[b]
  {
    hide RegionsLeft;
    var t := Branch(lay.allDone, lay.done, lay.pending);
    var blocks1: Blocks := blocks[cur := blocks[cur].(term := t)];
    RegionsTerm(blocks, cur, t);
    RegionsTerm(blocks1, lay.pending, waiting);
    assert Forked(blocks, cur, waiting, lay) == blocks1[lay.pending := blocks1[lay.pending].(term := waiting)];
  }

  lemma VisitLocals(blocks: Blocks, ms: seq<Machine>, lay: Shot, k: nat, n1: nat, base: nat, l1: nat, locals: nat)
    requires VisitMade(blocks, ms, lay, k, n1, l1, locals) && LocalsBelow(ms, lay.allDone) && l1 == lay.allDone + 1
             && base <= l1
    ensures OwnLocal(base, ms, lay.visits[k].isDone) && lay.visits[k].isDone != lay.allDone
    ensures OwnLocal(base, ms, lay.visits[k].isReady) && lay.visits[k].isReady != lay.allDone
  {
    hide VisitShape;
  }

  lemma VisitEnds(blocks: Blocks, out: Blocks, ms: seq<Machine>, lay: Shot, k: nat, n1: nat, l1: nat, locals: nat,
                  cur: BlockId)
    requires VisitMade(blocks, ms, lay, k, n1, l1, locals) && !OfVisit(ms, lay.visits[k], k, cur)
    requires |blocks| == |out| && forall b :: 0 <= b < |blocks| && b != cur && b != lay.pending ==> out[b] == blocks[b]
    requires lay.pending < n1 && lay.pending != lay.top && lay.pending != ms[k].exit
    ensures VisitShape(out, ms[k], lay.allDone, lay.visits[k], k == 0)
    ensures k == 0 ==> lay.visits[k].check == lay.top
  {
    VisitShapeInRange(blocks, ms[k], lay.allDone, lay.visits[k], k == 0);
    VisitShapeKept(blocks, out, ms[k], lay.allDone, lay.visits[k], k == 0);
    hide VisitShape;
  }

  /** The structure from its visits and its fork. */
  lemma ShotFromVisits(blocks1: Blocks, blocks: Blocks, out: Blocks, ms: seq<Machine>, waiting: Term, lay: Shot,
                       cur: BlockId, base: nat, locals: nat)
    requires VisitsMade(blocks1, blocks, ms, lay, cur, lay.allDone + 1, locals) && |lay.visits| == |ms| > 0
    requires LocalsBelow(ms, lay.allDone) && base <= lay.allDone
    requires lay.pending < |blocks1| && lay.pending != lay.top && blocks[lay.pending] == BARE
    requires forall i :: 0 <= i < |ms| ==> ms[i].exit != lay.pending
    requires out == Forked(blocks, cur, waiting, lay)
    ensures VisitsShape(out, base, ms, waiting, lay)
  {
    hide Forked, VisitShape, RegionsLeft, OfVisit, VisitMade, OwnLocal;
    HereIsHigh(blocks1, blocks, ms, lay, cur, lay.allDone + 1, locals);
    ForkedFacts(blocks, cur, waiting, lay);
    AllDoneIsOwn(base, ms, lay.allDone);
    forall k | 0 <= k < |ms|
      ensures VisitShape(out, ms[k], lay.allDone, lay.visits[k], k == 0)
      ensures k == 0 ==> lay.visits[k].check == lay.top
      ensures OwnLocal(base, ms, lay.visits[k].isDone) && lay.visits[k].isDone != lay.allDone
      ensures OwnLocal(base, ms, lay.visits[k].isReady) && lay.visits[k].isReady != lay.allDone
    {
      VisitLocals(blocks, ms, lay, k, |blocks1|, base, lay.allDone + 1, locals);
      VisitEnds(blocks, out, ms, lay, k, |blocks1|, lay.allDone + 1, locals, cur);
    }
    forall k | 0 <= k < |ms| - 1
      ensures Is(out, lay.visits[k].next, [], Goto(lay.visits[k + 1].check))
    {
      NextIsHigh(blocks1, blocks, ms, lay, k, lay.allDone + 1, locals);
    }
  }

  lemma NextIsHigh(blocks1: Blocks, blocks: Blocks, ms: seq<Machine>, lay: Shot, k: nat, l1: nat, locals: nat)
    requires k < |lay.visits| && VisitMade(blocks, ms, lay, k, |blocks1|, l1, locals)
    ensures |blocks1| <= lay.visits[k].next < |blocks|
  {
    hide VisitShape;
  }

  lemma AllDoneIsOwn(base: nat, ms: seq<Machine>, l: LocalId)
    requires LocalsBelow(ms, l) && base <= l
    ensures OwnLocal(base, ms, l)
  {
  }

  lemma ShotAboveFrom(blocks1: Blocks, blocks: Blocks, ms: seq<Machine>, lay: Shot, cur: BlockId, l1: nat, locals: nat,
                      n: nat)
    requires VisitsMade(blocks1, blocks, ms, lay, cur, l1, locals) && n <= lay.top && n <= |blocks1| && n <= lay.pending
    ensures ShotAbove(lay, n)
  {
    hide VisitShape, OfVisit, RegionsLeft;
    forall k | 0 <= k < |lay.visits|
      ensures && n <= lay.visits[k].check && n <= lay.visits[k].after && n <= lay.visits[k].markDone
              && n <= lay.visits[k].markPending && n <= lay.visits[k].next
    {
      assert VisitMade(blocks, ms, lay, k, |blocks1|, l1, locals);
    }
  }

  lemma ShotIsEmitted(blocks0: Blocks, blocks1: Blocks, blocks: Blocks, out: Blocks, base: nat, region: Region,
                      ms: seq<Machine>, waiting: Term, lay: Shot, cur: BlockId, locals: nat)
    requires region.end.0 < |blocks0| && blocks1 == Opened(blocks0, region, lay.allDone)
    requires lay.top == |blocks0| && lay.done == |blocks0| + 1 && lay.pending == |blocks0| + 2
             && lay.post == |blocks0| + 3
    requires VisitsMade(blocks1, blocks, ms, lay, cur, lay.allDone + 1, locals) && |lay.visits| == |ms| > 0
    requires LocalsBelow(ms, lay.allDone) && base <= lay.allDone && ExitsApart(ms, |blocks0|)
    requires forall i :: 0 <= i < |ms| ==> ms[i].exit != region.end.0
    requires lay.pending < |blocks| && cur < |blocks| && out == Forked(blocks, cur, waiting, lay)
    ensures ShotEmitted(blocks0, out, base, region, ms, waiting, lay)
  {
    hide Forked, Opened, RegionsLeft, OfVisit, VisitMade, VisitsShape, ShotAbove;
    OpenedFacts(blocks0, region, lay.allDone);
    assert !IsExit(ms, |ms|, lay.done) && !IsExit(ms, |ms|, lay.post) && !IsExit(ms, |ms|, lay.pending)
           && !IsExit(ms, |ms|, region.end.0);
    HereIsHigh(blocks1, blocks, ms, lay, cur, lay.allDone + 1, locals);
    ForkedFacts(blocks, cur, waiting, lay);
    ShotFromVisits(blocks1, blocks, out, ms, waiting, lay, cur, base, locals);
    ShotAboveFrom(blocks1, blocks, ms, lay, cur, lay.allDone + 1, locals, |blocks0|);
  }

  lemma ForkedWaits(blocks: Blocks, cur: BlockId, waiting: Term, lay: Shot)
    requires cur < |blocks| && lay.pending < |blocks| && cur != lay.pending && blocks[lay.pending] == BARE
    ensures Forked(blocks, cur, Unreachable, lay)
            == blocks[cur := blocks[cur].(term := Branch(lay.allDone, lay.done, lay.pending))]
    ensures Waiting(Forked(blocks, cur, Unreachable, lay), lay, waiting) == Forked(blocks, cur, waiting, lay)
  {
  }

  /** The pending block is still as it was created. */
  lemma PendingIsBare(blocks0: Blocks, blocks1: Blocks, blocks: Blocks, region: Region, ms: seq<Machine>, lay: Shot,
                      cur: BlockId, locals: nat)
    requires region.end.0 < |blocks0| && blocks1 == Opened(blocks0, region, lay.allDone)
    requires lay.top == |blocks0| && lay.pending == |blocks0| + 2
    requires VisitsMade(blocks1, blocks, ms, lay, cur, lay.allDone + 1, locals) && |lay.visits| == |ms| > 0
    requires ExitsApart(ms, |blocks0|)
    ensures lay.pending < |blocks| && cur < |blocks| && cur != lay.pending && blocks[lay.pending] == BARE
  {
    hide Opened, RegionsLeft, OfVisit, VisitMade;
    OpenedFacts(blocks0, region, lay.allDone);
    assert !IsExit(ms, |ms|, lay.pending);
    HereIsHigh(blocks1, blocks, ms, lay, cur, lay.allDone + 1, locals);
  }

  // ── Only blocks of its own ───────────────────────────────────────────

  lemma OpenedAdds(blocks: Blocks, region: Region, allDone: LocalId, lo: nat, locals: nat)
    requires region.end.0 < |blocks| && lo <= |blocks| && allDone < locals
    ensures Adds(blocks, Opened(blocks, region, allDone), lo, |blocks| + 3, locals)
  {
    var out := Opened(blocks, region, allDone);
    var n := |blocks|;
    assert SystemBlock(out[n], lo, |out|, locals) && SystemBlock(out[n + 1], lo, |out|, locals)
           && SystemBlock(out[n + 2], lo, |out|, locals);
    assert SystemTerm(Unreachable, lo, |out|, locals);
  }

  lemma OutcomesAreSystem(m: Machine, allDone: LocalId, v: Visit, lo: nat, n: nat, locals: nat)
    requires Within(m, lo, n, locals) && allDone < locals && v.isReady < locals
    requires lo <= v.markDone < n && lo <= v.markPending < n && lo <= v.next < n
    ensures SystemBlock(ReadyBlock(m, v), lo, n, locals) && |Outcomes(m, allDone, v)| == 3
    ensures forall b :: 0 <= b < |Outcomes(m, allDone, v)| ==> SystemBlock(Outcomes(m, allDone, v)[b], lo, n, locals)
  {
  }

  lemma VisitAdds(blocks: Blocks, m: Machine, cur: BlockId, first: bool, allDone: LocalId, isDone: LocalId, lo: nat,
                  post: BlockId)
    requires cur < |blocks| && cur != m.exit && lo <= cur && Within(m, lo, |blocks|, isDone) && allDone < isDone
    requires forall i :: 0 <= i < |blocks[cur].stmts| ==> SystemStmt(blocks[cur].stmts[i], isDone)
    ensures Adds(blocks, WithVisit(blocks, m, cur, first, allDone, isDone), lo, post, isDone + 2)
  {
    hide Outcomes, ReadyBlock, SystemBlock, SystemTerm, SystemStmt;
    var checked := Checked(blocks, m, cur, first, isDone);
    CheckedAdds(blocks, m, cur, first, isDone, lo, post);
    var v := VisitOf(blocks, cur, first, isDone);
    var out := WithVisit(blocks, m, cur, first, allDone, isDone);
    assert v.after == |checked| - 1;
    hide Checked;
    OutcomesSize(m, allDone, v);
    OutcomesAreSystem(m, allDone, v, lo, |out|, isDone + 2);
    assert Adds(checked, out, lo, post, isDone + 2);
    AddsMore(blocks, checked, out, lo, post, isDone + 1, isDone + 2);
  }

  lemma OutcomesSize(m: Machine, allDone: LocalId, v: Visit)
    ensures |Outcomes(m, allDone, v)| == 3
  {
  }

  lemma ForkAdds(blocks: Blocks, cur: BlockId, lay: Shot, lo: nat, post: BlockId, locals: nat)
    requires lo <= cur < |blocks| && lay.allDone < locals && lo <= lay.done < |blocks| && lo <= lay.pending < |blocks|
    ensures Adds(blocks, blocks[cur := blocks[cur].(term := Branch(lay.allDone, lay.done, lay.pending))], lo, post,
                 locals)
  {
    assert SystemTerm(Branch(lay.allDone, lay.done, lay.pending), lo, |blocks|, locals);
  }

  /** The next visit adds blocks of its own only. */
  lemma NextVisitAdds(blocks0: Blocks, blocks1: Blocks, blocks: Blocks, ms: seq<Machine>, lay: Shot, cur: BlockId,
                      l1: nat, locals: nat, lo: nat, n: nat)
    requires VisitsMade(blocks1, blocks, ms, lay, cur, l1, locals) && |lay.visits| < |ms|
    requires ExitsApart(ms, |blocks1|) && forall i :: 0 <= i < |ms| ==>
               ms[i].exit != lay.top && blocks1[ms[i].exit] == BARE
    requires blocks1[lay.top] == Block([AssignBool(lay.allDone, true)], Unreachable)
    requires AllWithin(ms, lo, n, lay.allDone) && n <= |blocks| && lo <= lay.top && lo <= |blocks1| && lay.allDone < l1
    requires Adds(blocks0, blocks, lo, lay.post, locals)
    ensures var m := ms[|lay.visits|]; var first := |lay.visits| == 0;
            && cur < |blocks| && m.exit < |blocks|
            && Adds(blocks0, WithVisit(blocks, m, cur, first, lay.allDone, locals), lo, lay.post, locals + 2)
            && |blocks| <= |WithVisit(blocks, m, cur, first, lay.allDone, locals)|
  {
    hide WithVisit, RegionsLeft, VisitShape, OfVisit, VisitMade, Adds;
    var m, first := ms[|lay.visits|], |lay.visits| == 0;
    HereIsReady(blocks1, blocks, ms, lay, cur, l1, locals);
    HereIsHigh(blocks1, blocks, ms, lay, cur, l1, locals);
    assert Within(m, lo, n, lay.allDone);
    VisitAdds(blocks, m, cur, first, lay.allDone, locals, lo, lay.post);
    VisitSize(blocks, m, cur, first, lay.allDone, locals);
    AddsMore(blocks0, blocks, WithVisit(blocks, m, cur, first, lay.allDone, locals), lo, lay.post, locals, locals + 2);
  }

  /** The one-shot structure, up to entering it. Its pending block is left as created, and
      whatever the host puts there, the rest stands. */
  method EmitShot(body: Body<Stmt>, region: Region, ms: seq<Machine>, ghost base: nat, ghost lo: nat)
    returns (lay: Shot)
    requires region.end.0 < |body.blocks| && |body.blocks[region.end.0].stmts| > 0
    requires |ms| > 0 && LocalsBelow(ms, body.locals) && base <= body.locals && ExitsApart(ms, |body.blocks|)
    requires forall i :: 0 <= i < |ms| ==> ms[i].exit != region.end.0 && body.blocks[ms[i].exit] == BARE
    requires AllWithin(ms, lo, |body.blocks|, body.locals) && lo <= |body.blocks|
    modifies body
    ensures lay.pending < |body.blocks| && body.blocks[lay.pending] == BARE
    ensures Adds(old(body.blocks), body.blocks, lo, lay.post, body.locals) && old(body.locals) <= body.locals
    ensures |old(body.blocks)| <= lay.top < |body.blocks|
    ensures forall waiting ::
              ShotEmitted(old(body.blocks), Waiting(body.blocks, lay, waiting), base, region, ms, waiting, lay)
  {
    hide Opened, Forked, Waiting, WithVisit, VisitsMade, ShotEmitted, LocalsBelow, RegionsLeft, Adds, AllWithin;
    ghost var blocks0 := body.blocks;
    OpenedFacts(blocks0, region, body.locals);
    OpenedAdds(blocks0, region, body.locals, lo, body.locals + 1);
    lay := EmitOpening(body, region);
    ghost var blocks1, lay1 := body.blocks, lay;
    var cur := lay.top;
    StartVisits(blocks1, ms, lay, body.locals);
    for i := 0 to |ms|
      invariant lay == lay1.(visits := lay.visits) && |lay.visits| == i
      invariant VisitsMade(blocks1, body.blocks, ms, lay, cur, lay1.allDone + 1, body.locals)
      invariant Adds(blocks0, body.blocks, lo, lay1.post, body.locals) && |blocks1| <= |body.blocks|
                && lay1.allDone < body.locals
    {
      NextVisitAdds(blocks0, blocks1, body.blocks, ms, lay, cur, lay1.allDone + 1, body.locals, lo, |blocks0|);
      VisitsMadeStep(blocks1, body.blocks, ms, lay, cur, lay1.allDone + 1, body.locals);
      var v := EmitVisit(body, ms[i], cur, i == 0, lay.allDone);
      lay := lay.(visits := lay.visits + [v]);
      cur := v.next;
    }
    ghost var blocks2 := body.blocks;
    PendingIsBare(blocks0, blocks1, blocks2, region, ms, lay, cur, body.locals);
    HereIsHigh(blocks1, blocks2, ms, lay, cur, lay.allDone + 1, body.locals);
    ForkAdds(blocks2, cur, lay, lo, lay.post, body.locals);
    body.SetTerm(cur, Branch(lay.allDone, lay.done, lay.pending));
    AddsMore(blocks0, blocks2, body.blocks, lo, lay.post, body.locals, body.locals);
    forall waiting: Term
      ensures ShotEmitted(blocks0, Waiting(body.blocks, lay, waiting), base, region, ms, waiting, lay)
    {
      ForkedWaits(blocks2, cur, waiting, lay);
      ShotIsEmitted(blocks0, blocks1, blocks2, Forked(blocks2, cur, waiting, lay), base, region, ms, waiting, lay, cur,
                    body.locals);
    }
  }

  lemma StartVisits(blocks1: Blocks, ms: seq<Machine>, lay: Shot, locals: nat)
    requires lay.visits == [] && lay.top < |blocks1|
    ensures VisitsMade(blocks1, blocks1, ms, lay, lay.top, locals, locals)
  {
  }
}
