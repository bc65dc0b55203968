/** Emitting the round-robin loop.

The loop is a chain of turns, one for each machine: a check, the machine's dispatch, and the
blocks that latch completion or note progress on the way to the next check. The methods follow
the source's loop. What they leave behind is said by a predicate on how many turns are laid
out: those have their final shape, the next one begins in an empty block, and everything older
is as it was, machines' exits and the region's end aside. At the end these facts are the shape
that Cooperative simulates.
*/
module CoopEmission {
  import opened Cfg
  import opened Coroutines
  import opened Regions
  import opened Machines
  import opened Cooperative
  import opened Markers
  import opened Footprint
  import opened Finishing

  // ── One coroutine's turn ─────────────────────────────────────────────

  /** The blocks of a turn whose first new block is `n` and first new local `l`. */
  function LinkAt(n: nat, l: nat, check: BlockId): Link {
    Link(check, n, n + 1, n + 2, n + 4, n + 3, l, l + 1, l + 2)
  }

  /** The check at the end of block `cur`, or in a block of its own behind it. */
  function Checked(blocks: Blocks, m: Machine, cur: BlockId, first: bool, isDone: LocalId): Blocks
    requires cur < |blocks| && m.exit < |blocks|
  {
    var eq := EqCheck(isDone, m.state, DONE_STATE);
    if first then
      blocks[cur := Block(blocks[cur].stmts + [eq], Branch(isDone, |blocks|, m.dispatch))]
            [m.exit := blocks[m.exit].(term := Goto(|blocks|))]
        + [BARE]
    else
      blocks[cur := blocks[cur].(term := Goto(|blocks|))]
            [m.exit := blocks[m.exit].(term := Goto(|blocks| + 1))]
        + [Block([eq], Branch(isDone, |blocks| + 1, m.dispatch)), BARE]
  }

  method EmitCheck(body: Body<Stmt>, m: Machine, cur: BlockId, first: bool)
    returns (check: BlockId, after: BlockId, isDone: LocalId)
    requires cur < |body.blocks| && m.exit < |body.blocks| && cur != m.exit
    modifies body
    ensures isDone == old(body.locals) && body.locals == isDone + 1
    ensures check == (if first then cur else |old(body.blocks)|) && after == |body.blocks| - 1
    ensures body.blocks == Checked(old(body.blocks), m, cur, first, isDone)
  {
    check := cur;
    if !first {
      check := body.NewBlock();
      body.SetTerm(cur, Goto(check));
    }
    isDone := body.NewLocal();
    body.Append(check, EqCheck(isDone, m.state, DONE_STATE));
    after := body.NewBlock();
    body.SetTerm(check, Branch(isDone, after, m.dispatch));
    body.SetTerm(m.exit, Goto(after));
    assert !first ==> body.blocks[check].stmts == [EqCheck(isDone, m.state, DONE_STATE)];
  }

  /** What follows a poll: latch completion, or note that the region is not done. */
  function Latches(m: Machine, allDone: LocalId, link: Link): Blocks {
    [Block([AssignI64(m.state, DONE_STATE), AssignI64(m.progress, 1)], Goto(link.next)),
     Block([AssignBool(allDone, false), EqCheck(link.blocked, m.poll, POLL_BLOCKED)],
           Branch(link.blocked, link.next, link.ran)),
     BARE,
     Block([AssignI64(m.progress, 1)], Goto(link.next))]
  }

  function AfterBlock(m: Machine, link: Link): Block<Stmt> {
    Block([EqCheck(link.isReady, m.poll, POLL_READY)], Branch(link.isReady, link.markDone, link.markPending))
  }

  method EmitMarkDone(body: Body<Stmt>, m: Machine, after: BlockId)
    returns (isReady: LocalId, markDone: BlockId, markPending: BlockId, next: BlockId)
    requires after < |body.blocks| && body.blocks[after] == BARE
    modifies body
    ensures isReady == old(body.locals) && body.locals == isReady + 1
    ensures markDone == |old(body.blocks)| && markPending == markDone + 1 && next == markDone + 2
    ensures body.blocks
         == old(body.blocks)[after :=
                             Block([EqCheck(isReady, m.poll, POLL_READY)], Branch(isReady, markDone, markPending))]
              + [Block([AssignI64(m.state, DONE_STATE), AssignI64(m.progress, 1)], Goto(next)), BARE, BARE]
  {
    isReady := body.NewLocal();
    body.Append(after, EqCheck(isReady, m.poll, POLL_READY));
    markDone := body.NewBlock();
    markPending := body.NewBlock();
    next := body.NewBlock();
    body.SetTerm(after, Branch(isReady, markDone, markPending));
    body.Append(markDone, AssignI64(m.state, DONE_STATE));
    body.SetTerm(markDone, Goto(next));
    body.Append(markDone, AssignI64(m.progress, 1));
    assert body.blocks[after].stmts == [EqCheck(isReady, m.poll, POLL_READY)];
    assert body.blocks[markDone].stmts == [AssignI64(m.state, DONE_STATE), AssignI64(m.progress, 1)];
  }

  method EmitMarkPending(body: Body<Stmt>, m: Machine, markPending: BlockId, next: BlockId, allDone: LocalId)
    returns (blocked: LocalId, ran: BlockId)
    requires markPending < |body.blocks| && body.blocks[markPending] == BARE
    modifies body
    ensures blocked == old(body.locals) && body.locals == blocked + 1 && ran == |old(body.blocks)|
    ensures body.blocks
         == old(body.blocks)[markPending := Block([AssignBool(allDone, false), EqCheck(blocked, m.poll, POLL_BLOCKED)],
                                                  Branch(blocked, next, ran))]
              + [Block([AssignI64(m.progress, 1)], Goto(next))]
  {
    body.Append(markPending, AssignBool(allDone, false));
    blocked := body.NewLocal();
    body.Append(markPending, EqCheck(blocked, m.poll, POLL_BLOCKED));
    ran := body.NewBlock();
    body.SetTerm(markPending, Branch(blocked, next, ran));
    body.Append(ran, AssignI64(m.progress, 1));
    body.SetTerm(ran, Goto(next));
    assert body.blocks[markPending].stmts == [AssignBool(allDone, false), EqCheck(blocked, m.poll, POLL_BLOCKED)];
    assert body.blocks[ran].stmts == [AssignI64(m.progress, 1)];
  }

  method EmitLatch(body: Body<Stmt>, m: Machine, check: BlockId, after: BlockId, isDone: LocalId, allDone: LocalId)
    returns (link: Link)
    requires after < |body.blocks| && body.blocks[after] == BARE && after + 1 == |body.blocks|
             && body.locals == isDone + 1
    modifies body
    ensures link == LinkAt(after, isDone, check) && body.locals == isDone + 3
    ensures body.blocks == old(body.blocks)[after := AfterBlock(m, link)] + Latches(m, allDone, link)
  {
    var isReady, markDone, markPending, next := EmitMarkDone(body, m, after);
    var blocked, ran := EmitMarkPending(body, m, markPending, next, allDone);
    link := Link(check, after, markDone, markPending, ran, next, isDone, isReady, blocked);
  }

  /** A whole turn. */
  function WithTurn(blocks: Blocks, m: Machine, cur: BlockId, first: bool, allDone: LocalId, isDone: LocalId): Blocks
    requires cur < |blocks| && m.exit < |blocks|
  {
    var checked := Checked(blocks, m, cur, first, isDone);
    var after := |checked| - 1;
    var link := LinkAt(after, isDone, if first then cur else |blocks|);
    checked[after := AfterBlock(m, link)] + Latches(m, allDone, link)
  }

  function LinkOf(blocks: Blocks, cur: BlockId, first: bool, isDone: LocalId): Link {
    if first then LinkAt(|blocks|, isDone, cur) else LinkAt(|blocks| + 1, isDone, |blocks|)
  }

  method EmitTurn(body: Body<Stmt>, m: Machine, cur: BlockId, first: bool, allDone: LocalId) returns (link: Link)
    requires cur < |body.blocks| && m.exit < |body.blocks| && cur != m.exit
    modifies body
    ensures link == LinkOf(old(body.blocks), cur, first, old(body.locals)) && body.locals == old(body.locals) + 3
    ensures body.blocks == WithTurn(old(body.blocks), m, cur, first, allDone, old(body.locals))
  {
    var check, after, isDone := EmitCheck(body, m, cur, first);
    link := EmitLatch(body, m, check, after, isDone, allDone);
  }

  ghost predicate LinkIn(link: Link, top: BlockId, first: bool, lo: nat, hi: nat) {
    && (if first then link.check == top && top < lo else lo <= link.check < hi)
    && lo <= link.after < hi && lo <= link.markDone < hi && lo <= link.markPending < hi && lo <= link.ran < hi
    && lo <= link.next < hi
    && link.next != link.check && link.next != link.after && link.next != link.markDone
    && link.next != link.markPending && link.next != link.ran
  }

  ghost predicate LinkLocalsIn(link: Link, lo: nat, hi: nat) {
    lo <= link.isDone < hi && lo <= link.isReady < hi && lo <= link.blocked < hi
  }

  lemma TurnSize(blocks: Blocks, m: Machine, cur: BlockId, first: bool, allDone: LocalId, isDone: LocalId)
    requires cur < |blocks| && m.exit < |blocks| && cur != m.exit
    ensures var out := WithTurn(blocks, m, cur, first, allDone, isDone);
            && |out| == |blocks| + (if first then 5 else 6)
            && forall b :: 0 <= b < |blocks| && b != cur && b != m.exit ==> out[b] == blocks[b]
    ensures LinkIn(LinkOf(blocks, cur, first, isDone), cur, first, |blocks|,
                   |WithTurn(blocks, m, cur, first, allDone, isDone)|)
    ensures LinkLocalsIn(LinkOf(blocks, cur, first, isDone), isDone, isDone + 3)
  {
  }

  lemma TurnShape(blocks: Blocks, m: Machine, cur: BlockId, first: bool, lay: Loop, isDone: LocalId)
    requires cur < |blocks| && m.exit < |blocks| && cur != m.exit && blocks[m.exit] == BARE
    requires blocks[cur] == if first then Block([AssignBool(lay.allDone, true), AssignI64(m.progress, 0)], Unreachable)
             else BARE
    ensures var out := WithTurn(blocks, m, cur, first, lay.allDone, isDone);
            var link := LinkOf(blocks, cur, first, isDone);
            && LinkShape(out, m, lay, link, first) && out[link.next] == BARE
            && (!first ==> Is(out, cur, [], Goto(link.check)))
  {
    var out := WithTurn(blocks, m, cur, first, lay.allDone, isDone);
    var link := LinkOf(blocks, cur, first, isDone);
    if first {
      assert out[cur].stmts
             == [AssignBool(lay.allDone, true), AssignI64(m.progress, 0), EqCheck(isDone, m.state, DONE_STATE)];
    }
  }

  lemma TurnRegions(blocks: Blocks, m: Machine, cur: BlockId, first: bool, allDone: LocalId, isDone: LocalId)
    requires cur < |blocks| && m.exit < |blocks| && cur != m.exit
    ensures RegionsLeft(WithTurn(blocks, m, cur, first, allDone, isDone)) == RegionsLeft(blocks)
  {
    hide RegionsLeft, Begins, Checked, Latches, AfterBlock;
    CheckedRegions(blocks, m, cur, first, isDone);
    CheckedLast(blocks, m, cur, first, isDone);
    var checked := Checked(blocks, m, cur, first, isDone);
    var after: nat := |checked| - 1;
    var link := LinkAt(after, isDone, if first then cur else |blocks|);
    AfterRegions(m, link);
    RegionsUpdate(checked, after, AfterBlock(m, link));
    LatchRegions(m, allDone, link);
    RegionsConcat(checked[after := AfterBlock(m, link)], Latches(m, allDone, link));
  }

  lemma CheckedLast(blocks: Blocks, m: Machine, cur: BlockId, first: bool, isDone: LocalId)
    requires cur < |blocks| && m.exit < |blocks| && cur != m.exit
    ensures |Checked(blocks, m, cur, first, isDone)| > |blocks|
    ensures var checked := Checked(blocks, m, cur, first, isDone); Begins(checked[|checked| - 1].stmts) == 0
  {
  }

  lemma AfterRegions(m: Machine, link: Link)
    ensures Begins(AfterBlock(m, link).stmts) == 0
  {
    NoBegins(AfterBlock(m, link).stmts);
  }

  lemma LatchRegions(m: Machine, allDone: LocalId, link: Link)
    ensures RegionsLeft(Latches(m, allDone, link)) == 0
  {
    var latches := Latches(m, allDone, link);
    forall b | 0 <= b < |latches|
      ensures Begins(latches[b].stmts) == 0
    {
      NoBegins(latches[b].stmts);
    }
    NoRegions(latches);
  }

  lemma CheckedRegions(blocks: Blocks, m: Machine, cur: BlockId, first: bool, isDone: LocalId)
    requires cur < |blocks| && m.exit < |blocks| && cur != m.exit
    ensures RegionsLeft(Checked(blocks, m, cur, first, isDone)) == RegionsLeft(blocks)
  {
    hide RegionsLeft;
    var eq := EqCheck(isDone, m.state, DONE_STATE);
    if first {
      var b1: Block<Stmt> := Block(blocks[cur].stmts + [eq], Branch(isDone, |blocks|, m.dispatch));
      var blocks1: Blocks := blocks[cur := b1];
      NoBegins([eq]);
      BeginsConcat(blocks[cur].stmts, [eq]);
      RegionsUpdate(blocks, cur, b1);
      RegionsTerm(blocks1, m.exit, Goto(|blocks|));
      RegionsAppend(blocks1[m.exit := blocks1[m.exit].(term := Goto(|blocks|))], BARE);
    } else {
      var blocks1: Blocks := blocks[cur := blocks[cur].(term := Goto(|blocks|))];
      RegionsTerm(blocks, cur, Goto(|blocks|));
      RegionsTerm(blocks1, m.exit, Goto(|blocks| + 1));
      var blocks2: Blocks := blocks1[m.exit := blocks1[m.exit].(term := Goto(|blocks| + 1))];
      var b1: Block<Stmt> := Block([eq], Branch(isDone, |blocks| + 1, m.dispatch));
      RegionsAppend(blocks2, b1);
      RegionsAppend(blocks2 + [b1], BARE);
      assert blocks2 + [b1, BARE] == blocks2 + [b1] + [BARE];
    }
  }

  // ── The chain of turns ───────────────────────────────────────────────

  /** Turn `k` is laid out, all but its last block. */
  ghost predicate TurnDone(blocks: Blocks, ms: seq<Machine>, lay: Loop, k: nat, n1: nat, l1: nat, locals: nat) {
    && k < |ms| && k < |lay.links|
    && LinkShape(blocks, ms[k], lay, lay.links[k], k == 0)
    && LinkIn(lay.links[k], lay.top, k == 0, n1, |blocks|)
    && LinkLocalsIn(lay.links[k], l1, locals)
  }

  /** The blocks of turn `k` other than `cur`. */
  ghost predicate OfTurn(ms: seq<Machine>, link: Link, k: nat, b: BlockId)
    requires k < |ms|
  {
    b == link.check || b == link.after || b == link.markDone || b == link.markPending || b == link.ran
      || b == ms[k].exit
  }

  /** The first `|lay.links|` turns are laid out behind `lay.top`; the next begins in `cur`. */
  ghost predicate TurnsDone(blocks1: Blocks, blocks: Blocks, ms: seq<Machine>, lay: Loop, cur: BlockId, l1: nat,
                            locals: nat) {
    var i := |lay.links|;
    && i <= |ms| && |blocks1| <= |blocks| && lay.top < |blocks1| && l1 <= locals
    && (forall k :: 0 <= k < i ==> TurnDone(blocks, ms, lay, k, |blocks1|, l1, locals))
    && (forall k :: 0 <= k < i - 1 ==> Is(blocks, lay.links[k].next, [], Goto(lay.links[k + 1].check)))
    && (if i == 0 then cur == lay.top && blocks == blocks1
        else cur == lay.links[i - 1].next && cur < |blocks| && blocks[cur] == BARE)
    && (forall k :: 0 <= k < i ==> !OfTurn(ms, lay.links[k], k, cur) && (k < i - 1 ==> lay.links[k].next != cur))
    && (forall b: nat :: b < |blocks1| && b != lay.top && !IsExit(ms, i, b) ==> blocks[b] == blocks1[b])
    && RegionsLeft(blocks) == RegionsLeft(blocks1)
  }

  lemma LinkShapeKept(out: Blocks, out': Blocks, m: Machine, lay: Loop, lay': Loop, link: Link, first: bool)
    requires LinkShape(out, m, lay, link, first) && |out| <= |out'| && lay.allDone == lay'.allDone
    requires out'[link.check] == out[link.check] && out'[link.after] == out[link.after] && out'[m.exit] == out[m.exit]
    requires out'[link.markDone] == out[link.markDone] && out'[link.markPending] == out[link.markPending]
    requires out'[link.ran] == out[link.ran]
    ensures LinkShape(out', m, lay', link, first)
  {
  }

  lemma LinkShapeInRange(out: Blocks, m: Machine, lay: Loop, link: Link, first: bool)
    requires LinkShape(out, m, lay, link, first)
    ensures link.check < |out| && link.after < |out| && m.exit < |out|
    ensures link.markDone < |out| && link.markPending < |out| && link.ran < |out|
  {
  }

  lemma OldTurn(blocks1: Blocks, blocks: Blocks, out: Blocks, ms: seq<Machine>, lay: Loop, lay': Loop, cur: BlockId,
                k: nat, l1: nat, locals: nat, locals': nat)
    requires TurnDone(blocks, ms, lay, k, |blocks1|, l1, locals) && !OfTurn(ms, lay.links[k], k, cur)
    requires |lay.links| < |ms| && k < |lay.links| && lay'.top == lay.top && lay'.allDone == lay.allDone
    requires |lay'.links| == |lay.links| + 1 && lay'.links[k] == lay.links[k] && locals <= locals'
    requires |blocks1| <= |blocks| <= |out|
    requires ExitsApart(ms, |blocks1|) && lay.top != ms[|lay.links|].exit
    requires forall b :: 0 <= b < |blocks| && b != cur && b != ms[|lay.links|].exit ==> out[b] == blocks[b]
    ensures TurnDone(out, ms, lay', k, |blocks1|, l1, locals')
  {
    var link, e := lay.links[k], ms[|lay.links|].exit;
    LinkShapeInRange(blocks, ms[k], lay, link, k == 0);
    assert ms[k].exit != e && e < |blocks1|;
    assert link.check != e && link.after != e && link.markDone != e && link.markPending != e && link.ran != e;
    LinkShapeKept(blocks, out, ms[k], lay, lay', link, k == 0);
    hide LinkShape;
  }

  lemma TurnsDoneStep(blocks1: Blocks, blocks: Blocks, ms: seq<Machine>, lay: Loop, cur: BlockId, l1: nat, locals: nat)
    requires TurnsDone(blocks1, blocks, ms, lay, cur, l1, locals) && |lay.links| < |ms|
    requires ExitsApart(ms, |blocks1|) && forall i :: 0 <= i < |ms| ==>
               ms[i].exit != lay.top && blocks1[ms[i].exit] == BARE
    requires blocks1[lay.top] == Block([AssignBool(lay.allDone, true), AssignI64(ms[0].progress, 0)], Unreachable)
    ensures var m := ms[|lay.links|]; var first := |lay.links| == 0;
            && cur < |blocks| && m.exit < |blocks| && cur != m.exit
            && var link := LinkOf(blocks, cur, first, locals);
               TurnsDone(blocks1, WithTurn(blocks, m, cur, first, lay.allDone, locals), ms,
                         lay.(links := lay.links + [link]), link.next, l1, locals + 3)
  {
    hide WithTurn, RegionsLeft, LinkShape, OfTurn;
    var i := |lay.links|;
    var m, first := ms[i], i == 0;
    CurIsReady(blocks1, blocks, ms, lay, cur, l1, locals);
    var out := WithTurn(blocks, m, cur, first, lay.allDone, locals);
    var link := LinkOf(blocks, cur, first, locals);
    var lay' := lay.(links := lay.links + [link]);
    TurnSize(blocks, m, cur, first, lay.allDone, locals);
    TurnShape(blocks, m, cur, first, lay, locals);
    TurnRegions(blocks, m, cur, first, lay.allDone, locals);
    forall k | 0 <= k < i
      ensures TurnDone(out, ms, lay', k, |blocks1|, l1, locals + 3)
      ensures !OfTurn(ms, lay'.links[k], k, link.next) && lay'.links[k].next != link.next
    {
      OldTurn(blocks1, blocks, out, ms, lay, lay', cur, k, l1, locals, locals + 3);
      HighNext(blocks, ms, lay, k, |blocks1|, l1, locals, link.next);
    }
    NewTurn(blocks1, blocks, out, ms, lay, lay', cur, link, l1, locals);
    forall k | 0 <= k < i
      ensures Is(out, lay'.links[k].next, [], Goto(lay'.links[k + 1].check))
    {
      NextKept(blocks1, blocks, out, ms, lay, lay', cur, k, link, l1, locals);
    }
    forall b: nat | b < |blocks1| && b != lay.top && !IsExit(ms, i + 1, b)
      ensures out[b] == blocks1[b]
    {
      assert ms[i].exit != b;
      assert !IsExit(ms, i, b);
      CurIsHigh(blocks1, blocks, ms, lay, cur, l1, locals);
    }
  }

  lemma CurIsHigh(blocks1: Blocks, blocks: Blocks, ms: seq<Machine>, lay: Loop, cur: BlockId, l1: nat, locals: nat)
    requires TurnsDone(blocks1, blocks, ms, lay, cur, l1, locals)
    ensures cur == lay.top || |blocks1| <= cur < |blocks|
  {
    hide LinkShape, OfTurn, RegionsLeft;
    if |lay.links| > 0 {
      assert TurnDone(blocks, ms, lay, |lay.links| - 1, |blocks1|, l1, locals);
    }
  }

  lemma CurIsReady(blocks1: Blocks, blocks: Blocks, ms: seq<Machine>, lay: Loop, cur: BlockId, l1: nat, locals: nat)
    requires TurnsDone(blocks1, blocks, ms, lay, cur, l1, locals) && |lay.links| < |ms|
    requires ExitsApart(ms, |blocks1|) && forall i :: 0 <= i < |ms| ==>
               ms[i].exit != lay.top && blocks1[ms[i].exit] == BARE
    requires blocks1[lay.top] == Block([AssignBool(lay.allDone, true), AssignI64(ms[0].progress, 0)], Unreachable)
    ensures var m := ms[|lay.links|];
            && cur < |blocks| && m.exit < |blocks1| <= |blocks| && cur != m.exit && blocks[m.exit] == BARE
            && blocks[cur] == if |lay.links| == 0
            then Block([AssignBool(lay.allDone, true), AssignI64(m.progress, 0)], Unreachable) else BARE
  {
    hide LinkShape, OfTurn, RegionsLeft, TurnDone;
    CurIsHigh(blocks1, blocks, ms, lay, cur, l1, locals);
    var i := |lay.links|;
    assert forall k :: 0 <= k < i ==> ms[k].exit != ms[i].exit;
    assert !IsExit(ms, i, ms[i].exit);
  }

  lemma HighNext(blocks: Blocks, ms: seq<Machine>, lay: Loop, k: nat, n1: nat, l1: nat, locals: nat, next: BlockId)
    requires TurnDone(blocks, ms, lay, k, n1, l1, locals) && |blocks| <= next && n1 <= |blocks|
    ensures !OfTurn(ms, lay.links[k], k, next) && lay.links[k].next != next
  {
    LinkShapeInRange(blocks, ms[k], lay, lay.links[k], k == 0);
    hide LinkShape;
  }

  lemma NewTurn(blocks1: Blocks, blocks: Blocks, out: Blocks, ms: seq<Machine>, lay: Loop, lay': Loop, cur: BlockId,
                link: Link, l1: nat, locals: nat)
    requires TurnsDone(blocks1, blocks, ms, lay, cur, l1, locals) && |lay.links| < |ms|
    requires lay' == lay.(links := lay.links + [link])
    requires LinkShape(out, ms[|lay.links|], lay, link, |lay.links| == 0)
    requires LinkIn(link, cur, |lay.links| == 0, |blocks|, |out|) && LinkLocalsIn(link, locals, locals + 3)
    requires ms[|lay.links|].exit < |blocks1|
    ensures TurnDone(out, ms, lay', |lay.links|, |blocks1|, l1, locals + 3)
    ensures !OfTurn(ms, link, |lay.links|, link.next)
  {
    hide RegionsLeft, TurnDone;
    var i := |lay.links|;
    assert lay'.links[i] == link;
    LinkShapeInRange(out, ms[i], lay, link, i == 0);
    LinkShapeKept(out, out, ms[i], lay, lay', link, i == 0);
    hide LinkShape;
    MakeTurn(out, ms, lay', i, |blocks1|, l1, locals + 3);
  }

  lemma MakeTurn(blocks: Blocks, ms: seq<Machine>, lay: Loop, k: nat, n1: nat, l1: nat, locals: nat)
    requires k < |ms| && k < |lay.links| && LinkShape(blocks, ms[k], lay, lay.links[k], k == 0)
    requires LinkIn(lay.links[k], lay.top, k == 0, n1, |blocks|) && LinkLocalsIn(lay.links[k], l1, locals)
    ensures TurnDone(blocks, ms, lay, k, n1, l1, locals)
  {
    hide LinkShape;
  }

  lemma NextKept(blocks1: Blocks, blocks: Blocks, out: Blocks, ms: seq<Machine>, lay: Loop, lay': Loop, cur: BlockId,
                 k: nat, link: Link, l1: nat, locals: nat)
    requires TurnsDone(blocks1, blocks, ms, lay, cur, l1, locals) && k < |lay.links| < |ms|
    requires lay' == lay.(links := lay.links + [link]) && |blocks| <= |out|
    requires forall b :: 0 <= b < |blocks| && b != cur && b != ms[|lay.links|].exit ==> out[b] == blocks[b]
    requires Is(out, cur, [], Goto(link.check)) && ms[|lay.links|].exit < |blocks1|
    ensures Is(out, lay'.links[k].next, [], Goto(lay'.links[k + 1].check))
  {
    hide LinkShape, OfTurn, RegionsLeft;
    assert TurnDone(blocks, ms, lay, k, |blocks1|, l1, locals);
    if k < |lay.links| - 1 {
      assert Is(blocks, lay.links[k].next, [], Goto(lay.links[k + 1].check));
    }
  }

  // ── The whole loop ───────────────────────────────────────────────────

  /** The top of the loop and the way out of the region. */
  function Topped(blocks: Blocks, region: Region, allDone: LocalId, progress: LocalId): Blocks
    requires region.end.0 < |blocks|
  {
    var re := blocks[region.end.0];
    blocks[region.end.0 := Block(re.stmts, Unreachable)]
      + [Block([AssignBool(allDone, true), AssignI64(progress, 0)], Unreachable), Block([], Goto(|blocks| + 2)),
         Block([], re.term)]
  }

  method EmitTop(body: Body<Stmt>, region: Region, progress: LocalId)
    returns (top: BlockId, exit: BlockId, post: BlockId, allDone: LocalId)
    requires region.end.0 < |body.blocks| && |body.blocks[region.end.0].stmts| > 0
    modifies body
    ensures allDone == old(body.locals) && body.locals == allDone + 1
    ensures top == |old(body.blocks)| && exit == top + 1 && post == top + 2
    ensures body.blocks == Topped(old(body.blocks), region, allDone, progress)
  {
    top := body.NewBlock();
    exit, post := RegionExit(body, region);
    allDone := body.NewLocal();
    body.Append(top, AssignBool(allDone, true));
    body.Append(top, AssignI64(progress, 0));
    assert body.blocks[top].stmts == [AssignBool(allDone, true), AssignI64(progress, 0)];
  }

  /** The end of a pass, in block `cur`. */
  function Bottomed(blocks: Blocks, cur: BlockId, progress: LocalId, report: bool, lay: Loop): Blocks
    requires cur < |blocks|
  {
    blocks[cur := blocks[cur].(term := Branch(lay.allDone, lay.exit, lay.notDone))]
      + [Block([EqCheck(lay.progressed, progress, 1)], Branch(lay.progressed, lay.top, lay.stuck)),
         Block([], if report then Deadlock else Goto(lay.top))]
  }

  method EmitBottom(body: Body<Stmt>, cur: BlockId, progress: LocalId, report: bool, lay0: Loop) returns (lay: Loop)
    requires cur < |body.blocks|
    modifies body
    ensures lay == lay0.(notDone := |old(body.blocks)|, stuck := |old(body.blocks)| + 1, progressed := old(body.locals))
    ensures body.locals == old(body.locals) + 1
    ensures body.blocks == Bottomed(old(body.blocks), cur, progress, report, lay)
  {
    var notDone := body.NewBlock();
    body.SetTerm(cur, Branch(lay0.allDone, lay0.exit, notDone));
    var stuck := body.NewBlock();
    var progressed := body.NewLocal();
    body.Append(notDone, EqCheck(progressed, progress, 1));
    body.SetTerm(notDone, Branch(progressed, lay0.top, stuck));
    if report {
      body.SetTerm(stuck, Deadlock);
    } else {
      body.SetTerm(stuck, Goto(lay0.top));
    }
    lay := lay0.(notDone := notDone, stuck := stuck, progressed := progressed);
    assert body.blocks[notDone].stmts == [EqCheck(progressed, progress, 1)];
  }

  /** The executor's blocks lie above `n`. */
  ghost predicate LoopAbove(lay: Loop, n: nat) {
    && n <= lay.top && n <= lay.notDone && n <= lay.stuck
    && forall k :: 0 <= k < |lay.links| ==>
         && n <= lay.links[k].check && n <= lay.links[k].after && n <= lay.links[k].markDone
         && n <= lay.links[k].markPending && n <= lay.links[k].ran && n <= lay.links[k].next
  }

  /** The loop is in place and the rest as it was, exits and the region's end aside. */
  ghost predicate LoopEmitted(blocks0: Blocks, blocks: Blocks, base: nat, region: Region, ms: seq<Machine>,
                              report: bool, lay: Loop) {
    && ExecutorIn(blocks0, blocks, region, ms, lay.exit, lay.post)
    && LoopShape(blocks, base, ms, report, lay) && LoopAbove(lay, |blocks0|)
  }

  lemma ToppedFacts(blocks: Blocks, region: Region, allDone: LocalId, progress: LocalId)
    requires region.end.0 < |blocks|
    ensures var out := Topped(blocks, region, allDone, progress); var n := |blocks|;
            && |out| == n + 3 && RegionsLeft(out) == RegionsLeft(blocks)
            && out[n] == Block([AssignBool(allDone, true), AssignI64(progress, 0)], Unreachable)
            && out[n + 1] == Block([], Goto(n + 2)) && out[n + 2] == Block([], blocks[region.end.0].term)
            && out[region.end.0].stmts == blocks[region.end.0].stmts
            && forall b :: 0 <= b < n && b != region.end.0 ==> out[b] == blocks[b]
  {
    hide RegionsLeft;
    var re := blocks[region.end.0];
    var blocks1: Blocks := blocks[region.end.0 := re.(term := Unreachable)];
    var b0: Block<Stmt> := Block([AssignBool(allDone, true), AssignI64(progress, 0)], Unreachable);
    var b1: Block<Stmt> := Block([], Goto(|blocks| + 2));
    var b2: Block<Stmt> := Block([], re.term);
    RegionsTerm(blocks, region.end.0, Unreachable);
    RegionsAppend(blocks1, b0);
    RegionsAppend(blocks1 + [b0], b1);
    RegionsAppend(blocks1 + [b0] + [b1], b2);
    assert Topped(blocks, region, allDone, progress) == blocks1 + [b0] + [b1] + [b2];
  }

  lemma BottomedFacts(blocks: Blocks, cur: BlockId, progress: LocalId, report: bool, lay: Loop)
    requires cur < |blocks| && lay.notDone == |blocks| && lay.stuck == |blocks| + 1
    ensures var out := Bottomed(blocks, cur, progress, report, lay);
            && |out| == |blocks| + 2 && RegionsLeft(out) == RegionsLeft(blocks)
            && out[cur] == blocks[cur].(term := Branch(lay.allDone, lay.exit, lay.notDone))
            && (forall b :: 0 <= b < |blocks| && b != cur ==> out[b] == blocks[b])
            && Is(out, lay.notDone, [EqCheck(lay.progressed, progress, 1)], Branch(lay.progressed, lay.top, lay.stuck))
            && Is(out, lay.stuck, [], if report then Deadlock else Goto(lay.top))
  {
    hide RegionsLeft;
    var t := Branch(lay.allDone, lay.exit, lay.notDone);
    var blocks1: Blocks := blocks[cur := blocks[cur].(term := t)];
    var b0: Block<Stmt> := Block([EqCheck(lay.progressed, progress, 1)], Branch(lay.progressed, lay.top, lay.stuck));
    var b1: Block<Stmt> := Block([], if report then Deadlock else Goto(lay.top));
    RegionsTerm(blocks, cur, t);
    RegionsAppend(blocks1, b0);
    RegionsAppend(blocks1 + [b0], b1);
    assert Bottomed(blocks, cur, progress, report, lay) == blocks1 + [b0] + [b1];
  }

  lemma TurnLocals(blocks: Blocks, ms: seq<Machine>, lay: Loop, k: nat, n1: nat, base: nat, l1: nat, locals: nat)
    requires TurnDone(blocks, ms, lay, k, n1, l1, locals) && LocalsBelow(ms, lay.allDone) && l1 == lay.allDone + 1
             && base <= l1
    ensures LinkLocals(base, ms, lay, lay.links[k])
  {
    hide LinkShape;
    forall l: nat | l1 <= l
      ensures LoopLocal(base, ms, lay, l)
    {
    }
  }

  /** The loop from its turns and its end. */
  lemma LoopFromTurns(blocks1: Blocks, blocks: Blocks, out: Blocks, ms: seq<Machine>, report: bool, lay0: Loop,
                      lay: Loop, cur: BlockId, base: nat, locals: nat)
    requires TurnsDone(blocks1, blocks, ms, lay0, cur, lay0.allDone + 1, locals) && |lay0.links| == |ms| > 0
    requires LocalsBelow(ms, lay0.allDone) && base <= lay0.allDone && ExitsApart(ms, |blocks1|)
    requires lay == lay0.(notDone := |blocks|, stuck := |blocks| + 1, progressed := locals)
    requires cur < |blocks| && out == Bottomed(blocks, cur, ms[0].progress, report, lay)
    ensures LoopShape(out, base, ms, report, lay)
  {
    hide Bottomed, LinkShape, RegionsLeft, OfTurn, TurnDone, LinkLocals;
    BottomedFacts(blocks, cur, ms[0].progress, report, lay);
    forall k | 0 <= k < |ms|
      ensures LinkShape(out, ms[k], lay, lay.links[k], k == 0) && LinkLocals(base, ms, lay, lay.links[k])
      ensures k == 0 ==> lay.links[k].check == lay.top
    {
      TurnLocals(blocks, ms, lay0, k, |blocks1|, base, lay0.allDone + 1, locals);
      SameLinkLocals(base, ms, lay0, lay, k);
      TurnEnds(blocks, out, ms, lay0, lay, k, |blocks1|, lay0.allDone + 1, locals, cur);
    }
  }

  lemma SameLinkLocals(base: nat, ms: seq<Machine>, lay: Loop, lay': Loop, k: nat)
    requires k < |lay.links| && lay'.links == lay.links && lay'.allDone == lay.allDone
             && LinkLocals(base, ms, lay, lay.links[k])
    ensures LinkLocals(base, ms, lay', lay'.links[k])
  {
  }

  lemma TurnEnds(blocks: Blocks, out: Blocks, ms: seq<Machine>, lay0: Loop, lay: Loop, k: nat, n1: nat, l1: nat,
                 locals: nat, cur: BlockId)
    requires TurnDone(blocks, ms, lay0, k, n1, l1, locals) && !OfTurn(ms, lay0.links[k], k, cur)
    requires |blocks| <= |out| && forall b :: 0 <= b < |blocks| && b != cur ==> out[b] == blocks[b]
    requires lay.links == lay0.links && lay.allDone == lay0.allDone && lay.top == lay0.top
    ensures LinkShape(out, ms[k], lay, lay.links[k], k == 0)
    ensures k == 0 ==> lay.links[k].check == lay.top
  {
    LinkShapeInRange(blocks, ms[k], lay0, lay0.links[k], k == 0);
    LinkShapeKept(blocks, out, ms[k], lay0, lay, lay0.links[k], k == 0);
    hide LinkShape;
  }

  lemma LoopAboveFrom(blocks1: Blocks, blocks: Blocks, ms: seq<Machine>, lay: Loop, cur: BlockId, l1: nat, locals: nat,
                      n: nat)
    requires TurnsDone(blocks1, blocks, ms, lay, cur, l1, locals) && n <= lay.top && n <= |blocks1|
    ensures forall k :: 0 <= k < |lay.links| ==>
              && n <= lay.links[k].check && n <= lay.links[k].after && n <= lay.links[k].markDone
              && n <= lay.links[k].markPending && n <= lay.links[k].ran && n <= lay.links[k].next
  {
    hide LinkShape, OfTurn, RegionsLeft;
    forall k | 0 <= k < |lay.links|
      ensures && n <= lay.links[k].check && n <= lay.links[k].after && n <= lay.links[k].markDone
              && n <= lay.links[k].markPending && n <= lay.links[k].ran && n <= lay.links[k].next
    {
      assert TurnDone(blocks, ms, lay, k, |blocks1|, l1, locals);
    }
  }

  lemma LoopIsEmitted(blocks0: Blocks, blocks1: Blocks, blocks: Blocks, out: Blocks, base: nat, region: Region,
                      ms: seq<Machine>, report: bool, lay0: Loop, lay: Loop, cur: BlockId, locals: nat)
    requires |ms| > 0 && region.end.0 < |blocks0| && blocks1 == Topped(blocks0, region, lay0.allDone, ms[0].progress)
    requires lay0.top == |blocks0| && lay0.exit == |blocks0| + 1 && lay0.post == |blocks0| + 2
    requires TurnsDone(blocks1, blocks, ms, lay0, cur, lay0.allDone + 1, locals) && |lay0.links| == |ms| > 0
    requires LocalsBelow(ms, lay0.allDone) && base <= lay0.allDone && ExitsApart(ms, |blocks0|)
    requires forall i :: 0 <= i < |ms| ==> ms[i].exit != region.end.0
    requires lay == lay0.(notDone := |blocks|, stuck := |blocks| + 1, progressed := locals)
    requires cur < |blocks| && out == Bottomed(blocks, cur, ms[0].progress, report, lay)
    ensures LoopEmitted(blocks0, out, base, region, ms, report, lay)
  {
    hide Bottomed, Topped, RegionsLeft, OfTurn, TurnDone, LoopShape;
    ToppedFacts(blocks0, region, lay0.allDone, ms[0].progress);
    BottomedFacts(blocks, cur, ms[0].progress, report, lay);
    LoopFromTurns(blocks1, blocks, out, ms, report, lay0, lay, cur, base, locals);
    LoopAboveFrom(blocks1, blocks, ms, lay0, cur, lay0.allDone + 1, locals, |blocks0|);
    CurIsHigh(blocks1, blocks, ms, lay0, cur, lay0.allDone + 1, locals);
    LastIsNotTop(blocks1, blocks, ms, lay0, cur, lay0.allDone + 1, locals);
    assert !IsExit(ms, |ms|, lay0.exit) && !IsExit(ms, |ms|, lay0.post) && !IsExit(ms, |ms|, region.end.0);
  }

  lemma LastIsNotTop(blocks1: Blocks, blocks: Blocks, ms: seq<Machine>, lay: Loop, cur: BlockId, l1: nat, locals: nat)
    requires TurnsDone(blocks1, blocks, ms, lay, cur, l1, locals) && |lay.links| > 0
    ensures |blocks1| <= cur
  {
    hide LinkShape, OfTurn, RegionsLeft;
    assert TurnDone(blocks, ms, lay, |lay.links| - 1, |blocks1|, l1, locals);
  }

  // ── Only blocks of its own ───────────────────────────────────────────

  lemma ToppedAdds(blocks: Blocks, region: Region, allDone: LocalId, progress: LocalId, lo: nat, locals: nat)
    requires region.end.0 < |blocks| && lo <= |blocks| && allDone < locals && progress < locals
    ensures Adds(blocks, Topped(blocks, region, allDone, progress), lo, |blocks| + 2, locals)
  {
    var out := Topped(blocks, region, allDone, progress);
    var n := |blocks|;
    assert SystemBlock(out[n], lo, |out|, locals) && SystemBlock(out[n + 1], lo, |out|, locals);
    assert SystemTerm(Unreachable, lo, |out|, locals);
  }

  lemma CheckedAdds(blocks: Blocks, m: Machine, cur: BlockId, first: bool, isDone: LocalId, lo: nat, post: BlockId)
    requires cur < |blocks| && cur != m.exit && lo <= cur && Within(m, lo, |blocks|, isDone)
    requires forall i :: 0 <= i < |blocks[cur].stmts| ==> SystemStmt(blocks[cur].stmts[i], isDone)
    ensures Adds(blocks, Checked(blocks, m, cur, first, isDone), lo, post, isDone + 1)
  {
    var out := Checked(blocks, m, cur, first, isDone);
    var n := |blocks|;
    assert SystemTerm(out[m.exit].term, lo, |out|, isDone + 1) && SystemTerm(out[cur].term, lo, |out|, isDone + 1);
    assert SystemBlock(out[cur], lo, |out|, isDone + 1);
    assert forall b :: n <= b < |out| ==> SystemBlock(out[b], lo, |out|, isDone + 1);
  }

  lemma LatchesAreSystem(m: Machine, allDone: LocalId, link: Link, lo: nat, n: nat, locals: nat)
    requires Within(m, lo, n, locals) && allDone < locals && link.isReady < locals && link.blocked < locals
    requires lo <= link.markDone < n && lo <= link.markPending < n && lo <= link.next < n && lo <= link.ran < n
    ensures SystemBlock(AfterBlock(m, link), lo, n, locals)
    ensures forall b :: 0 <= b < |Latches(m, allDone, link)| ==>
              SystemBlock(Latches(m, allDone, link)[b], lo, n, locals)
  {
  }

  lemma TurnAdds(blocks: Blocks, m: Machine, cur: BlockId, first: bool, allDone: LocalId, isDone: LocalId, lo: nat,
                 post: BlockId)
    requires cur < |blocks| && cur != m.exit && lo <= cur && Within(m, lo, |blocks|, isDone) && allDone < isDone
    requires forall i :: 0 <= i < |blocks[cur].stmts| ==> SystemStmt(blocks[cur].stmts[i], isDone)
    ensures Adds(blocks, WithTurn(blocks, m, cur, first, allDone, isDone), lo, post, isDone + 3)
  {
    hide Latches, AfterBlock, SystemBlock, SystemTerm, SystemStmt;
    var checked := Checked(blocks, m, cur, first, isDone);
    CheckedAdds(blocks, m, cur, first, isDone, lo, post);
    CheckedEnd(blocks, m, cur, first, isDone);
    var after: nat := |checked| - 1;
    var link := LinkAt(after, isDone, if first then cur else |blocks|);
    var out := WithTurn(blocks, m, cur, first, allDone, isDone);
    hide Checked;
    LatchesSize(m, allDone, link);
    LatchesAreSystem(m, allDone, link, lo, |out|, isDone + 3);
    assert Adds(checked, out, lo, post, isDone + 3);
    AddsMore(blocks, checked, out, lo, post, isDone + 1, isDone + 3);
  }

  lemma LatchesSize(m: Machine, allDone: LocalId, link: Link)
    ensures |Latches(m, allDone, link)| == 4
  {
  }

  lemma CheckedEnd(blocks: Blocks, m: Machine, cur: BlockId, first: bool, isDone: LocalId)
    requires cur < |blocks| && m.exit < |blocks|
    ensures |Checked(blocks, m, cur, first, isDone)| > |blocks|
  {
  }

  lemma BottomedAdds(blocks: Blocks, cur: BlockId, progress: LocalId, report: bool, lay: Loop, lo: nat, post: BlockId,
                     locals: nat)
    requires lo <= cur < |blocks| && progress < locals && lay.allDone < locals && lay.progressed < locals
    requires lay.notDone == |blocks| && lay.stuck == |blocks| + 1 && lo <= lay.exit < |blocks|
             && lo <= lay.top < |blocks|
    ensures Adds(blocks, Bottomed(blocks, cur, progress, report, lay), lo, post, locals)
  {
    var out := Bottomed(blocks, cur, progress, report, lay);
    assert SystemTerm(out[cur].term, lo, |out|, locals);
    assert SystemBlock(out[|blocks|], lo, |out|, locals) && SystemBlock(out[|blocks| + 1], lo, |out|, locals);
  }

  /** The next turn adds blocks of its own only. */
  lemma NextTurnAdds(blocks0: Blocks, blocks1: Blocks, blocks: Blocks, ms: seq<Machine>, lay: Loop, cur: BlockId,
                     l1: nat, locals: nat, lo: nat, n: nat)
    requires TurnsDone(blocks1, blocks, ms, lay, cur, l1, locals) && |lay.links| < |ms|
    requires ExitsApart(ms, |blocks1|) && forall i :: 0 <= i < |ms| ==>
               ms[i].exit != lay.top && blocks1[ms[i].exit] == BARE
    requires blocks1[lay.top] == Block([AssignBool(lay.allDone, true), AssignI64(ms[0].progress, 0)], Unreachable)
    requires AllWithin(ms, lo, n, lay.allDone) && n <= |blocks| && lo <= lay.top && lo <= |blocks1| && lay.allDone < l1
    requires Adds(blocks0, blocks, lo, lay.post, locals)
    ensures var m := ms[|lay.links|]; var first := |lay.links| == 0;
            && cur < |blocks| && m.exit < |blocks|
            && Adds(blocks0, WithTurn(blocks, m, cur, first, lay.allDone, locals), lo, lay.post, locals + 3)
  {
    hide WithTurn, RegionsLeft, LinkShape, OfTurn, TurnDone, Adds;
    var m, first := ms[|lay.links|], |lay.links| == 0;
    CurIsReady(blocks1, blocks, ms, lay, cur, l1, locals);
    CurIsHigh(blocks1, blocks, ms, lay, cur, l1, locals);
    assert Within(m, lo, n, lay.allDone);
    assert Within(ms[0], lo, n, lay.allDone);
    TurnAdds(blocks, m, cur, first, lay.allDone, locals, lo, lay.post);
    AddsMore(blocks0, blocks, WithTurn(blocks, m, cur, first, lay.allDone, locals), lo, lay.post, locals, locals + 3);
  }

  lemma LoopAdds(blocks0: Blocks, blocks1: Blocks, blocks: Blocks, out: Blocks, ms: seq<Machine>, report: bool,
                 lay0: Loop, lay: Loop, cur: BlockId, locals: nat, lo: nat)
    requires TurnsDone(blocks1, blocks, ms, lay0, cur, lay0.allDone + 1, locals) && |lay0.links| == |ms| > 0
    requires lo <= |blocks0| == lay0.top && lay0.exit == |blocks0| + 1 && |blocks0| + 3 <= |blocks1|
    requires AllWithin(ms, lo, |blocks0|, lay0.allDone)
    requires lay == lay0.(notDone := |blocks|, stuck := |blocks| + 1, progressed := locals)
    requires cur < |blocks| && out == Bottomed(blocks, cur, ms[0].progress, report, lay)
    requires Adds(blocks0, blocks, lo, lay.post, locals)
    ensures Adds(blocks0, out, lo, lay.post, locals + 1)
  {
    hide Bottomed, RegionsLeft, LinkShape, OfTurn, TurnDone, Adds;
    CurIsHigh(blocks1, blocks, ms, lay0, cur, lay0.allDone + 1, locals);
    assert Within(ms[0], lo, |blocks0|, lay0.allDone);
    BottomedAdds(blocks, cur, ms[0].progress, report, lay, lo, lay.post, locals + 1);
    AddsMore(blocks0, blocks, out, lo, lay.post, locals, locals + 1);
  }

  /** The round-robin loop, up to entering it. */
  method EmitLoop(body: Body<Stmt>, region: Region, ms: seq<Machine>, report: bool, ghost base: nat, ghost lo: nat)
    returns (lay: Loop)
    requires region.end.0 < |body.blocks| && |body.blocks[region.end.0].stmts| > 0
    requires |ms| > 0 && LocalsBelow(ms, body.locals) && base <= body.locals && ExitsApart(ms, |body.blocks|)
    requires forall i :: 0 <= i < |ms| ==> ms[i].exit != region.end.0 && body.blocks[ms[i].exit] == BARE
    requires forall i :: 0 <= i < |ms| ==> ms[i].progress == ms[0].progress
    requires AllWithin(ms, lo, |body.blocks|, body.locals) && lo <= |body.blocks|
    modifies body
    ensures LoopEmitted(old(body.blocks), body.blocks, base, region, ms, report, lay)
    ensures Adds(old(body.blocks), body.blocks, lo, lay.post, body.locals) && old(body.locals) <= body.locals
    ensures |old(body.blocks)| <= lay.top < |body.blocks|
  {
    hide Topped, Bottomed, WithTurn, TurnsDone, LoopShape, LocalsBelow, RegionsLeft, Adds, AllWithin;
    ghost var blocks0 := body.blocks;
    var progress := ms[0].progress;
    ToppedFacts(blocks0, region, body.locals, progress);
    FirstWithin(ms, lo, |body.blocks|, body.locals);
    ToppedAdds(blocks0, region, body.locals, progress, lo, body.locals + 1);
    var top, exit, post, allDone := EmitTop(body, region, progress);
    ghost var blocks1 := body.blocks;
    lay := Loop(top, exit, post, 0, 0, allDone, 0, []);
    var cur := top;
    StartTurns(blocks1, ms, lay, body.locals);
    for i := 0 to |ms|
      invariant lay == Loop(top, exit, post, 0, 0, allDone, 0, lay.links) && |lay.links| == i
      invariant TurnsDone(blocks1, body.blocks, ms, lay, cur, allDone + 1, body.locals)
      invariant Adds(blocks0, body.blocks, lo, post, body.locals) && |blocks1| <= |body.blocks| && allDone < body.locals
    {
      TurnsDoneStep(blocks1, body.blocks, ms, lay, cur, allDone + 1, body.locals);
      NextTurnAdds(blocks0, blocks1, body.blocks, ms, lay, cur, allDone + 1, body.locals, lo, |blocks0|);
      TurnGrows(body.blocks, ms[i], cur, i == 0, allDone, body.locals);
      var link := EmitTurn(body, ms[i], cur, i == 0, allDone);
      lay := lay.(links := lay.links + [link]);
      cur := link.next;
    }
    TurnsInRange(blocks1, body.blocks, ms, lay, cur, allDone + 1, body.locals);
    ghost var lay0, blocks2, locals2 := lay, body.blocks, body.locals;
    lay := EmitBottom(body, cur, progress, report, lay);
    LoopIsEmitted(blocks0, blocks1, blocks2, body.blocks, base, region, ms, report, lay0, lay, cur, locals2);
    LoopAdds(blocks0, blocks1, blocks2, body.blocks, ms, report, lay0, lay, cur, locals2, lo);
    BottomedFacts(blocks2, cur, progress, report, lay);
  }

  lemma TurnGrows(blocks: Blocks, m: Machine, cur: BlockId, first: bool, allDone: LocalId, isDone: LocalId)
    requires cur < |blocks| && m.exit < |blocks| && cur != m.exit
    ensures |blocks| <= |WithTurn(blocks, m, cur, first, allDone, isDone)|
  {
    hide WithTurn;
    TurnSize(blocks, m, cur, first, allDone, isDone);
  }

  lemma StartTurns(blocks1: Blocks, ms: seq<Machine>, lay: Loop, locals: nat)
    requires lay.links == [] && lay.top < |blocks1|
    ensures TurnsDone(blocks1, blocks1, ms, lay, lay.top, locals, locals)
  {
  }

  lemma TurnsInRange(blocks1: Blocks, blocks: Blocks, ms: seq<Machine>, lay: Loop, cur: BlockId, l1: nat, locals: nat)
    requires TurnsDone(blocks1, blocks, ms, lay, cur, l1, locals) && |lay.links| > 0
    ensures cur < |blocks|
  {
    hide TurnDone, OfTurn, RegionsLeft;
  }
}
