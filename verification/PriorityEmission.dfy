/** Emitting the strict-priority loop.

The loop has two scan sites for each member of each band, a poll behind each, and the blocks
after a poll; a head that sets the bands' last indices; and a tail of completion checks with
the report. The methods follow the source's loops. What each leaves behind is said by a
predicate on how far the loops have come, kept from one member to the next: the sites done so
far have their final shape, the sites to come are still empty, and everything older is as it
was, machines' exits aside. At the end these facts are the shape that PriorityLoop simulates.
*/
module PriorityEmission {
  import opened Cfg
  import opened Coroutines
  import opened Regions
  import opened Machines
  import opened Fleets
  import opened Executors
  import opened Priority
  import opened PriorityRuns
  import opened PriorityLoop
  import opened Markers
  import opened Footprint
  import opened Finishing

  // ── Blocks and locals by the dozen ───────────────────────────────────

  /** `blocks` with only empty blocks added. */
  ghost predicate OnlyBare(blocks: Blocks, out: Blocks) {
    && |blocks| <= |out| && (forall b :: 0 <= b < |blocks| ==> out[b] == blocks[b])
    && (forall b :: |blocks| <= b < |out| ==> out[b] == BARE)
    && RegionsLeft(out) == RegionsLeft(blocks)
  }

  lemma OneMoreBare(blocks: Blocks, out: Blocks)
    requires OnlyBare(blocks, out)
    ensures OnlyBare(blocks, out + [BARE])
  {
    RegionsAppend(out, BARE);
  }

  /** The ids `lo, lo + 1, …` laid out band by band. */
  ghost predicate GridFrom(bands: Bands, grid: seq<seq<BlockId>>, lo: nat, hi: nat) {
    && |grid| <= |bands|
    && (forall b :: 0 <= b < |grid| ==> |grid[b]| == |bands[b]|)
    && (forall b, k :: 0 <= b < |grid| && 0 <= k < |grid[b]| ==> lo <= grid[b][k] < hi)
    && (forall b, k, c, l ::
          0 <= b < |grid| && 0 <= k < |grid[b]| && 0 <= c < |grid| && 0 <= l < |grid[c]| && grid[b][k] == grid[c][l] ==>
          b == c && k == l)
  }

  method NewRow(body: Body<Stmt>, n: nat) returns (row: seq<BlockId>)
    modifies body`blocks
    ensures |row| == n && OnlyBare(old(body.blocks), body.blocks) && |body.blocks| == |old(body.blocks)| + n
    ensures forall k :: 0 <= k < n ==> row[k] == |old(body.blocks)| + k
  {
    row := [];
    for k := 0 to n
      invariant |row| == k && OnlyBare(old(body.blocks), body.blocks) && |body.blocks| == |old(body.blocks)| + k
      invariant forall j :: 0 <= j < k ==> row[j] == |old(body.blocks)| + j
    {
      OneMoreBare(old(body.blocks), body.blocks);
      var b := body.NewBlock();
      row := row + [b];
    }
  }

  lemma BareTwice(a: Blocks, b: Blocks, c: Blocks)
    requires OnlyBare(a, b) && OnlyBare(b, c)
    ensures OnlyBare(a, c)
  {
    hide RegionsLeft;
  }

  method NewGrid(body: Body<Stmt>, bands: Bands) returns (grid: seq<seq<BlockId>>)
    modifies body`blocks
    ensures |grid| == |bands| && OnlyBare(old(body.blocks), body.blocks)
    ensures GridFrom(bands, grid, |old(body.blocks)|, |body.blocks|)
  {
    hide OnlyBare;
    grid := [];
    BareStart(body.blocks);
    for b := 0 to |bands|
      invariant |grid| == b && OnlyBare(old(body.blocks), body.blocks) && |old(body.blocks)| <= |body.blocks|
      invariant GridFrom(bands, grid, |old(body.blocks)|, |body.blocks|)
    {
      ghost var blocks1 := body.blocks;
      var row := NewRow(body, |bands[b]|);
      BareTwice(old(body.blocks), blocks1, body.blocks);
      NextRow(bands, grid, row, |old(body.blocks)|, |blocks1|);
      grid := grid + [row];
    }
  }

  lemma BareStart(blocks: Blocks)
    ensures OnlyBare(blocks, blocks)
  {
  }

  lemma NextRow(bands: Bands, grid: seq<seq<BlockId>>, row: seq<BlockId>, lo: nat, hi: nat)
    requires GridFrom(bands, grid, lo, hi) && |grid| < |bands| && lo <= hi
    requires |row| == |bands[|grid|]| && forall k :: 0 <= k < |row| ==> row[k] == hi + k
    ensures GridFrom(bands, grid + [row], lo, hi + |row|)
  {
  }

  method NewLocals(body: Body<Stmt>, n: nat) returns (ls: seq<LocalId>)
    modifies body`locals
    ensures |ls| == n && body.locals == old(body.locals) + n && forall i :: 0 <= i < n ==> ls[i] == old(body.locals) + i
  {
    ls := [];
    for i := 0 to n
      invariant |ls| == i && body.locals == old(body.locals) + i && forall j :: 0 <= j < i ==>
                  ls[j] == old(body.locals) + j
    {
      var l := body.NewLocal();
      ls := ls + [l];
    }
  }

  // ── One member's stop ────────────────────────────────────────────────

  /** Where a stop's blocks lie, its two sites aside. */
  function StopAt(n: nat, l: nat, first: BlockId, second: BlockId): Stop {
    Stop(first, second, n, n + 1, n + 2, n + 3, n + 4, l, l + 1, l + 2)
  }

  /** What a stop needs to know of its surroundings. */
  datatype Around = Around(last: LocalId, sweep: LocalId, next1: BlockId, next2: BlockId, top: BlockId, k: nat, n: nat)

  /** The blocks a stop adds. */
  function StopBlocks(m: Machine, a: Around, st: Stop): Blocks {
    [Block([AssignI64(a.sweep, 0), EqCheck(st.doneFirst, m.state, DONE_STATE)],
           Branch(st.doneFirst, a.next1, m.dispatch)),
     Block([AssignI64(a.sweep, 1), EqCheck(st.doneSecond, m.state, DONE_STATE)],
           Branch(st.doneSecond, a.next2, m.dispatch)),
     Block([EqCheck(st.blocked, m.poll, POLL_BLOCKED)], Branch(st.blocked, st.passOn, st.ran)),
     Block([AssignI64(a.last, a.k)], Goto(a.top)),
     Block([], Switch(a.sweep, [(0, a.next1)], a.next2))]
  }

  function WithStop(blocks: Blocks, m: Machine, a: Around, st: Stop): Blocks
    requires st.first < |blocks| && st.second < |blocks| && m.exit < |blocks| && a.k <= a.n
  {
    blocks[st.first := blocks[st.first].(term := Switch(a.last, Later(a.k, a.n, a.next1), st.pollFirst))]
          [st.second := blocks[st.second].(term := Switch(a.last, Later(a.k, a.n, st.pollSecond), a.next2))]
          [m.exit := blocks[m.exit].(term := Goto(st.after))]
      + StopBlocks(m, a, st)
  }

  method EmitPollBlock(body: Body<Stmt>, poll: BlockId, m: Machine, sweep: LocalId, half: int, next: BlockId)
    returns (done: LocalId)
    requires poll < |body.blocks| && body.blocks[poll] == BARE
    modifies body
    ensures done == old(body.locals) && body.locals == done + 1
    ensures body.blocks == old(body.blocks)[poll := Block([AssignI64(sweep, half), EqCheck(done, m.state, DONE_STATE)],
                                                          Branch(done, next, m.dispatch))]
  {
    body.Append(poll, AssignI64(sweep, half));
    done := body.NewLocal();
    body.Append(poll, EqCheck(done, m.state, DONE_STATE));
    body.SetTerm(poll, Branch(done, next, m.dispatch));
    assert body.blocks[poll].stmts == [AssignI64(sweep, half), EqCheck(done, m.state, DONE_STATE)];
  }

  /** The blocks after a poll. */
  method EmitAfterPoll(body: Body<Stmt>, m: Machine, a: Around)
    returns (after: BlockId, ran: BlockId, passOn: BlockId, blocked: LocalId)
    requires m.exit < |body.blocks|
    modifies body
    ensures blocked == old(body.locals) && body.locals == blocked + 1
    ensures after == |old(body.blocks)| && ran == after + 1 && passOn == after + 2
    ensures body.blocks
         == old(body.blocks)[m.exit := old(body.blocks)[m.exit].(term := Goto(after))]
              + [Block([EqCheck(blocked, m.poll, POLL_BLOCKED)], Branch(blocked, passOn, ran)),
                 Block([AssignI64(a.last, a.k)], Goto(a.top)),
                 Block([], Switch(a.sweep, [(0, a.next1)], a.next2))]
  {
    after := body.NewBlock();
    body.SetTerm(m.exit, Goto(after));
    blocked := body.NewLocal();
    body.Append(after, EqCheck(blocked, m.poll, POLL_BLOCKED));
    ran := body.NewBlock();
    passOn := body.NewBlock();
    body.SetTerm(after, Branch(blocked, passOn, ran));
    body.Append(ran, AssignI64(a.last, a.k));
    body.SetTerm(ran, Goto(a.top));
    body.SetTerm(passOn, Switch(a.sweep, [(0, a.next1)], a.next2));
    assert body.blocks[after].stmts == [EqCheck(blocked, m.poll, POLL_BLOCKED)];
    assert body.blocks[ran].stmts == [AssignI64(a.last, a.k)];
  }

  method EmitSwitches(body: Body<Stmt>, a: Around, first: BlockId, second: BlockId)
    returns (pollFirst: BlockId, pollSecond: BlockId)
    requires first < |body.blocks| && second < |body.blocks| && first != second && a.k <= a.n
    modifies body`blocks
    ensures pollFirst == |old(body.blocks)| && pollSecond == pollFirst + 1
    ensures body.blocks
         == old(body.blocks)[first :=
                             old(body.blocks)[first].(term := Switch(a.last, Later(a.k, a.n, a.next1), pollFirst))]
              [second := old(body.blocks)[second].(term := Switch(a.last, Later(a.k, a.n, pollSecond), a.next2))]
              + [BARE, BARE]
  {
    pollFirst := body.NewBlock();
    pollSecond := body.NewBlock();
    body.SetTerm(first, Switch(a.last, Later(a.k, a.n, a.next1), pollFirst));
    body.SetTerm(second, Switch(a.last, Later(a.k, a.n, pollSecond), a.next2));
  }

  method EmitStop(body: Body<Stmt>, m: Machine, a: Around, first: BlockId, second: BlockId) returns (st: Stop)
    requires first < |body.blocks| && second < |body.blocks| && m.exit < |body.blocks| && a.k <= a.n
    requires first != second && first != m.exit && second != m.exit
    modifies body
    ensures st == StopAt(|old(body.blocks)|, old(body.locals), first, second) && body.locals == old(body.locals) + 3
    ensures body.blocks == WithStop(old(body.blocks), m, a, st)
  {
    var pollFirst, pollSecond := EmitSwitches(body, a, first, second);
    var doneFirst := EmitPollBlock(body, pollFirst, m, a.sweep, 0, a.next1);
    var doneSecond := EmitPollBlock(body, pollSecond, m, a.sweep, 1, a.next2);
    var after, ran, passOn, blocked := EmitAfterPoll(body, m, a);
    st := Stop(first, second, pollFirst, pollSecond, after, ran, passOn, doneFirst, doneSecond, blocked);
  }

  lemma StopSize(blocks: Blocks, m: Machine, a: Around, st: Stop)
    requires st.first < |blocks| && st.second < |blocks| && m.exit < |blocks| && a.k <= a.n
    ensures var out := WithStop(blocks, m, a, st);
            && |out| == |blocks| + 5
            && forall x :: 0 <= x < |blocks| && x != st.first && x != st.second && x != m.exit ==> out[x] == blocks[x]
  {
  }

  lemma StopRegions(blocks: Blocks, m: Machine, a: Around, st: Stop)
    requires st.first < |blocks| && st.second < |blocks| && m.exit < |blocks| && a.k <= a.n
    requires st.first != st.second && st.first != m.exit && st.second != m.exit
    ensures RegionsLeft(WithStop(blocks, m, a, st)) == RegionsLeft(blocks)
  {
    hide RegionsLeft, StopBlocks;
    var t1, t2 := Switch(a.last, Later(a.k, a.n, a.next1), st.pollFirst),
      Switch(a.last, Later(a.k, a.n, st.pollSecond), a.next2);
    var blocks1: Blocks := blocks[st.first := blocks[st.first].(term := t1)];
    var blocks2: Blocks := blocks1[st.second := blocks1[st.second].(term := t2)];
    var blocks3: Blocks := blocks2[m.exit := blocks2[m.exit].(term := Goto(st.after))];
    RegionsTerm(blocks, st.first, t1);
    RegionsTerm(blocks1, st.second, t2);
    RegionsTerm(blocks2, m.exit, Goto(st.after));
    StopBlocksRegions(m, a, st);
    RegionsConcat(blocks3, StopBlocks(m, a, st));
    assert WithStop(blocks, m, a, st) == blocks3 + StopBlocks(m, a, st);
  }

  lemma StopBlocksRegions(m: Machine, a: Around, st: Stop)
    ensures RegionsLeft(StopBlocks(m, a, st)) == 0
  {
    var more := StopBlocks(m, a, st);
    forall b | 0 <= b < |more|
      ensures Begins(more[b].stmts) == 0
    {
      NoBegins(more[b].stmts);
    }
    NoRegions(more);
  }

  // ── All stops ────────────────────────────────────────────────────────

  function AroundOf(bands: Bands, lay: PrioLoop, p: Place): Around
    requires Fits(bands, lay) && NoEmptyBand(bands) && IsPlace(bands, p)
  {
    Around(lay.lasts[p.0], lay.sweeps[p.0], BlockOf(bands, lay, NextSpot(bands, Spot(p.0, false, p.1))),
           BlockOf(bands, lay, NextSpot(bands, Spot(p.0, true, p.1))), lay.top, p.1, |bands[p.0]|)
  }

  function StopOf(lay: PrioLoop, p: Place): Stop
    requires p.0 < |lay.stops| && p.1 < |lay.stops[p.0]|
  {
    lay.stops[p.0][p.1]
  }

  /** Layouts with the same sites and the same locals for the scan. */
  ghost predicate SameSites(bands: Bands, lay: PrioLoop, lay': PrioLoop)
    requires Fits(bands, lay) && Fits(bands, lay')
  {
    && lay'.lasts == lay.lasts && lay'.sweeps == lay.sweeps && lay'.top == lay.top && lay'.checks[0] == lay.checks[0]
    && forall p: Place :: IsPlace(bands, p) ==>
         StopOf(lay', p).first == StopOf(lay, p).first && StopOf(lay', p).second == StopOf(lay, p).second
  }

  lemma SameBlocks(bands: Bands, lay: PrioLoop, lay': PrioLoop, sp: Spot)
    requires Fits(bands, lay) && Fits(bands, lay') && SameSites(bands, lay, lay') && IsSpot(bands, sp)
    ensures BlockOf(bands, lay', sp) == BlockOf(bands, lay, sp)
  {
    if sp.Spot? {
      assert IsPlace(bands, (sp.b, sp.k));
      assert StopOf(lay', (sp.b, sp.k)).first == StopOf(lay, (sp.b, sp.k)).first;
    }
  }

  lemma StopShapeKept(out: Blocks, out': Blocks, bands: Bands, lay: PrioLoop, lay': PrioLoop, m: Machine, p: Place)
    requires Fits(bands, lay) && Fits(bands, lay') && NoEmptyBand(bands) && IsPlace(bands, p)
    requires StopShape(out, bands, lay, m, p.0, p.1) && SameSites(bands, lay, lay') && StopOf(lay', p) == StopOf(lay, p)
    requires |out| <= |out'|
    requires var st := StopOf(lay, p);
             forall x: nat ::
                 x in {st.first, st.second, st.pollFirst, st.pollSecond, st.after, st.ran, st.passOn, m.exit}
                   && x < |out| ==>
               out'[x] == out[x]
    ensures StopShape(out', bands, lay', m, p.0, p.1)
  {
    SameBlocks(bands, lay, lay', NextSpot(bands, Spot(p.0, false, p.1)));
    SameBlocks(bands, lay, lay', NextSpot(bands, Spot(p.0, true, p.1)));
    hide SameSites, BlockOf;
    var st := StopOf(lay, p);
    var ids := {st.first, st.second, st.pollFirst, st.pollSecond, st.after, st.ran, st.passOn, m.exit};
    assert st.first in ids && st.second in ids && st.pollFirst in ids && st.pollSecond in ids;
    assert st.after in ids && st.ran in ids && st.passOn in ids && m.exit in ids;
  }

  lemma NewStopShape(blocks: Blocks, bands: Bands, lay: PrioLoop, lay': PrioLoop, m: Machine, p: Place, st: Stop)
    requires Fits(bands, lay) && Fits(bands, lay') && NoEmptyBand(bands) && IsPlace(bands, p)
    requires SameSites(bands, lay, lay') && StopOf(lay', p) == st
    requires st.first < |blocks| && st.second < |blocks| && m.exit < |blocks|
    requires st.first != st.second && st.first != m.exit && st.second != m.exit
    requires blocks[st.first] == BARE && blocks[st.second] == BARE && blocks[m.exit] == BARE
    requires st.pollFirst == |blocks| && st.pollSecond == |blocks| + 1 && st.after == |blocks| + 2
    requires st.ran == |blocks| + 3 && st.passOn == |blocks| + 4
    ensures StopShape(WithStop(blocks, m, AroundOf(bands, lay, p), st), bands, lay', m, p.0, p.1)
  {
    SameBlocks(bands, lay, lay', NextSpot(bands, Spot(p.0, false, p.1)));
    SameBlocks(bands, lay, lay', NextSpot(bands, Spot(p.0, true, p.1)));
    hide SameSites, BlockOf;
  }

  predicate Earlier(p: Place, b: nat, k: nat) {
    p.0 < b || (p.0 == b && p.1 < k)
  }

  /** Machine `m`'s stop is in place, with all it added above `n1` and `l1`. */
  ghost predicate StopDone(blocks: Blocks, bands: Bands, ms: seq<Machine>, lay: PrioLoop, p: Place, n1: nat, l1: nat,
                           locals: nat)
    requires Fits(bands, lay) && NoEmptyBand(bands) && IsPlace(bands, p)
  {
    var st := StopOf(lay, p);
    && bands[p.0][p.1] < |ms| && StopShape(blocks, bands, lay, ms[bands[p.0][p.1]], p.0, p.1)
    && n1 <= st.pollFirst && n1 <= st.pollSecond && n1 <= st.after && n1 <= st.ran && n1 <= st.passOn
    && l1 <= st.doneFirst < locals && l1 <= st.doneSecond < locals && l1 <= st.blocked < locals
  }

  ghost predicate Touches(bands: Bands, ms: seq<Machine>, lay: PrioLoop, p: Place, x: BlockId)
    requires Fits(bands, lay) && IsPlace(bands, p)
  {
    x == StopOf(lay, p).first || x == StopOf(lay, p).second || (bands[p.0][p.1] < |ms| && x == ms[bands[p.0][p.1]].exit)
  }

  ghost predicate TouchedBefore(bands: Bands, ms: seq<Machine>, lay: PrioLoop, b: nat, k: nat, x: BlockId)
    requires Fits(bands, lay)
  {
    exists p: Place :: IsPlace(bands, p) && Earlier(p, b, k) && Touches(bands, ms, lay, p, x)
  }

  /** Sites and exits are below `n1`, empty, and all different. */
  ghost predicate SitesReady(blocks1: Blocks, bands: Bands, ms: seq<Machine>, lay: PrioLoop)
    requires Fits(bands, lay)
  {
    && (forall p: Place :: IsPlace(bands, p) ==>
          var st := StopOf(lay, p);
          && bands[p.0][p.1] < |ms| && st.first < |blocks1| && st.second < |blocks1|
          && ms[bands[p.0][p.1]].exit < |blocks1|
          && blocks1[st.first] == BARE && blocks1[st.second] == BARE && blocks1[ms[bands[p.0][p.1]].exit] == BARE
          && st.first != st.second && st.first != ms[bands[p.0][p.1]].exit && st.second != ms[bands[p.0][p.1]].exit)
    && (forall p: Place, q: Place, x ::
          IsPlace(bands, p) && IsPlace(bands, q) && p != q && Touches(bands, ms, lay, p, x) ==>
          !Touches(bands, ms, lay, q, x))
  }

  /** The stops before member `k` of band `b` are in place. */
  ghost predicate StopsDone(blocks1: Blocks, blocks: Blocks, bands: Bands, ms: seq<Machine>, lay: PrioLoop, b: nat,
                            k: nat, l1: nat, locals: nat)
    requires Fits(bands, lay) && NoEmptyBand(bands)
  {
    && |blocks1| <= |blocks| && l1 <= locals
    && (forall p: Place :: IsPlace(bands, p) && Earlier(p, b, k) ==>
          StopDone(blocks, bands, ms, lay, p, |blocks1|, l1, locals))
    && (forall x: nat :: x < |blocks1| && !TouchedBefore(bands, ms, lay, b, k, x) ==> blocks[x] == blocks1[x])
    && RegionsLeft(blocks) == RegionsLeft(blocks1)
  }

  function SetStop(lay: PrioLoop, p: Place, st: Stop): PrioLoop
    requires p.0 < |lay.stops| && p.1 < |lay.stops[p.0]|
  {
    lay.(stops := lay.stops[p.0 := lay.stops[p.0][p.1 := st]])
  }

  lemma SetStopFacts(bands: Bands, ms: seq<Machine>, lay: PrioLoop, p: Place, st: Stop)
    requires Fits(bands, lay) && IsPlace(bands, p) && st.first == StopOf(lay, p).first
             && st.second == StopOf(lay, p).second
    ensures Fits(bands, SetStop(lay, p, st)) && SameSites(bands, lay, SetStop(lay, p, st))
    ensures StopOf(SetStop(lay, p, st), p) == st
    ensures forall q: Place :: IsPlace(bands, q) && q != p ==> StopOf(SetStop(lay, p, st), q) == StopOf(lay, q)
    ensures forall q: Place, x :: IsPlace(bands, q) ==>
              (Touches(bands, ms, SetStop(lay, p, st), q, x) <==> Touches(bands, ms, lay, q, x))
  {
  }

  lemma OldStop(blocks1: Blocks, blocks: Blocks, out: Blocks, bands: Bands, ms: seq<Machine>, lay: PrioLoop,
                lay': PrioLoop, p: Place, q: Place, l1: nat, locals: nat, locals': nat)
    requires Fits(bands, lay) && Fits(bands, lay') && NoEmptyBand(bands) && IsPlace(bands, p) && IsPlace(bands, q)
             && p != q
    requires StopDone(blocks, bands, ms, lay, q, |blocks1|, l1, locals) && SitesReady(blocks1, bands, ms, lay)
    requires SameSites(bands, lay, lay') && StopOf(lay', q) == StopOf(lay, q) && locals <= locals'
             && |blocks1| <= |blocks| <= |out|
    requires forall x: nat :: x < |blocks| && !Touches(bands, ms, lay, p, x) ==> out[x] == blocks[x]
    ensures StopDone(out, bands, ms, lay', q, |blocks1|, l1, locals')
  {
    var st, e := StopOf(lay, q), ms[bands[q.0][q.1]].exit;
    assert Touches(bands, ms, lay, q, st.first) && Touches(bands, ms, lay, q, st.second)
           && Touches(bands, ms, lay, q, e);
    assert forall x: nat :: Touches(bands, ms, lay, p, x) ==> x < |blocks1|;
    hide StopShape, SameSites, SitesReady, Touches;
    forall x: nat | x in {st.first, st.second, st.pollFirst, st.pollSecond, st.after, st.ran, st.passOn, e}
      && x < |blocks|
      ensures out[x] == blocks[x]
    {
      SitesDiffer(blocks1, bands, ms, lay, p, q, x);
    }
    StopShapeKept(blocks, out, bands, lay, lay', ms[bands[q.0][q.1]], q);
  }

  lemma SitesDiffer(blocks1: Blocks, bands: Bands, ms: seq<Machine>, lay: PrioLoop, p: Place, q: Place, x: BlockId)
    requires Fits(bands, lay) && IsPlace(bands, p) && IsPlace(bands, q) && p != q && SitesReady(blocks1, bands, ms, lay)
    ensures Touches(bands, ms, lay, q, x) ==> !Touches(bands, ms, lay, p, x)
  {
  }

  lemma SiteIsReady(blocks1: Blocks, blocks: Blocks, bands: Bands, ms: seq<Machine>, lay: PrioLoop, b: nat, k: nat,
                    l1: nat, locals: nat)
    requires Fits(bands, lay) && NoEmptyBand(bands) && IsPlace(bands, (b, k))
    requires SitesReady(blocks1, bands, ms, lay) && StopsDone(blocks1, blocks, bands, ms, lay, b, k, l1, locals)
    ensures var st := StopOf(lay, (b, k));
            && bands[b][k] < |ms| && st.first < |blocks| && st.second < |blocks| && ms[bands[b][k]].exit < |blocks|
            && st.first != st.second && st.first != ms[bands[b][k]].exit && st.second != ms[bands[b][k]].exit
            && blocks[st.first] == BARE && blocks[st.second] == BARE && blocks[ms[bands[b][k]].exit] == BARE
  {
    hide StopDone, RegionsLeft;
    var p: Place := (b, k);
    var st := StopOf(lay, p);
    assert bands[p.0][p.1] < |ms|;
    var e := ms[bands[b][k]].exit;
    assert Touches(bands, ms, lay, p, st.first) && Touches(bands, ms, lay, p, st.second)
           && Touches(bands, ms, lay, p, e);
    forall x | Touches(bands, ms, lay, p, x)
      ensures !TouchedBefore(bands, ms, lay, b, k, x)
    {
      forall q: Place | IsPlace(bands, q) && Earlier(q, b, k)
        ensures !Touches(bands, ms, lay, q, x)
      {
        SitesDiffer(blocks1, bands, ms, lay, q, p, x);
      }
    }
  }

  lemma StopsDoneStep(blocks1: Blocks, blocks: Blocks, bands: Bands, ms: seq<Machine>, lay: PrioLoop, b: nat, k: nat,
                      l1: nat, locals: nat)
    requires Fits(bands, lay) && NoEmptyBand(bands) && IsPlace(bands, (b, k))
    requires SitesReady(blocks1, bands, ms, lay) && StopsDone(blocks1, blocks, bands, ms, lay, b, k, l1, locals)
    ensures var p: Place := (b, k); var old1 := StopOf(lay, p);
            var st := StopAt(|blocks|, locals, old1.first, old1.second);
            && bands[b][k] < |ms| && st.first < |blocks| && st.second < |blocks| && ms[bands[b][k]].exit < |blocks|
            && Fits(bands, SetStop(lay, p, st)) && SitesReady(blocks1, bands, ms, SetStop(lay, p, st))
            && StopsDone(blocks1, WithStop(blocks, ms[bands[b][k]], AroundOf(bands, lay, p), st), bands, ms,
                         SetStop(lay, p, st),
                         b, k + 1, l1, locals + 3)
  {
    hide WithStop, RegionsLeft, StopShape, SameSites, Touches, StopDone, SitesReady, SetStop;
    var p: Place := (b, k);
    SiteIsReady(blocks1, blocks, bands, ms, lay, b, k, l1, locals);
    var m, old1 := ms[bands[b][k]], StopOf(lay, p);
    var st := StopAt(|blocks|, locals, old1.first, old1.second);
    var lay' := SetStop(lay, p, st);
    SetStopFacts(bands, ms, lay, p, st);
    SitesStayReady(blocks1, bands, ms, lay, lay');
    var out := WithStop(blocks, m, AroundOf(bands, lay, p), st);
    StopSize(blocks, m, AroundOf(bands, lay, p), st);
    StopRegions(blocks, m, AroundOf(bands, lay, p), st);
    TouchesThese(bands, ms, lay, p);
    forall q: Place | IsPlace(bands, q) && Earlier(q, b, k + 1)
      ensures StopDone(out, bands, ms, lay', q, |blocks1|, l1, locals + 3)
    {
      if q == p {
        NewStopShape(blocks, bands, lay, lay', m, p, st);
        MakeStop(out, bands, ms, lay', p, |blocks1|, l1, locals, |blocks|);
      } else {
        OldStop(blocks1, blocks, out, bands, ms, lay, lay', p, q, l1, locals, locals + 3);
      }
    }
    forall x: nat | x < |blocks1| && !TouchedBefore(bands, ms, lay', b, k + 1, x)
      ensures out[x] == blocks1[x]
    {
      assert Earlier(p, b, k + 1);
      assert !Touches(bands, ms, lay', p, x);
      NotTouchedEarlier(bands, ms, lay, lay', b, k, x);
    }
  }

  lemma NotTouchedEarlier(bands: Bands, ms: seq<Machine>, lay: PrioLoop, lay': PrioLoop, b: nat, k: nat, x: BlockId)
    requires Fits(bands, lay) && Fits(bands, lay') && !TouchedBefore(bands, ms, lay', b, k + 1, x)
    requires forall q: Place :: IsPlace(bands, q) ==>
               (Touches(bands, ms, lay', q, x) <==> Touches(bands, ms, lay, q, x))
    ensures !TouchedBefore(bands, ms, lay, b, k, x)
  {
    hide Touches;
    forall q: Place | IsPlace(bands, q) && Earlier(q, b, k)
      ensures !Touches(bands, ms, lay, q, x)
    {
      assert Earlier(q, b, k + 1);
    }
  }

  lemma TouchesThese(bands: Bands, ms: seq<Machine>, lay: PrioLoop, p: Place)
    requires Fits(bands, lay) && IsPlace(bands, p) && bands[p.0][p.1] < |ms|
    ensures forall x :: Touches(bands, ms, lay, p, x) <==>
              x == StopOf(lay, p).first || x == StopOf(lay, p).second || x == ms[bands[p.0][p.1]].exit
  {
  }

  lemma SitesStayReady(blocks1: Blocks, bands: Bands, ms: seq<Machine>, lay: PrioLoop, lay': PrioLoop)
    requires Fits(bands, lay) && Fits(bands, lay') && SitesReady(blocks1, bands, ms, lay) && SameSites(bands, lay, lay')
    ensures SitesReady(blocks1, bands, ms, lay')
  {
    forall p: Place, x | IsPlace(bands, p)
      ensures Touches(bands, ms, lay', p, x) <==> Touches(bands, ms, lay, p, x)
    {
    }
    hide Touches;
  }

  lemma MakeStop(blocks: Blocks, bands: Bands, ms: seq<Machine>, lay: PrioLoop, p: Place, n1: nat, l1: nat, locals: nat,
                 n: nat)
    requires Fits(bands, lay) && NoEmptyBand(bands) && IsPlace(bands, p) && bands[p.0][p.1] < |ms|
    requires StopShape(blocks, bands, lay, ms[bands[p.0][p.1]], p.0, p.1)
    requires StopOf(lay, p) == StopAt(n, locals, StopOf(lay, p).first, StopOf(lay, p).second) && n1 <= n && l1 <= locals
    ensures StopDone(blocks, bands, ms, lay, p, n1, l1, locals + 3)
  {
    hide StopShape;
  }

  lemma NextBand(blocks1: Blocks, blocks: Blocks, bands: Bands, ms: seq<Machine>, lay: PrioLoop, b: nat, l1: nat,
                 locals: nat)
    requires Fits(bands, lay) && NoEmptyBand(bands) && b < |bands|
    requires StopsDone(blocks1, blocks, bands, ms, lay, b, |bands[b]|, l1, locals)
    ensures StopsDone(blocks1, blocks, bands, ms, lay, b + 1, 0, l1, locals)
  {
    hide StopDone, Touches, RegionsLeft;
    assert forall p: Place :: IsPlace(bands, p) ==> (Earlier(p, b + 1, 0) <==> Earlier(p, b, |bands[b]|));
    forall x: nat | !TouchedBefore(bands, ms, lay, b + 1, 0, x)
      ensures !TouchedBefore(bands, ms, lay, b, |bands[b]|, x)
    {
    }
  }

  // ── Only blocks of its own ───────────────────────────────────────────

  /** What a stop leads to lies in `lo..n`. */
  ghost predicate AroundWithin(a: Around, lo: nat, n: nat, locals: nat) {
    && lo <= a.next1 < n && lo <= a.next2 < n && lo <= a.top < n && a.last < locals && a.sweep < locals && a.k <= a.n
  }

  /** Sites, top and first check lie in `lo..n`. */
  ghost predicate ScanWithin(bands: Bands, lay: PrioLoop, lo: nat, n: nat, locals: nat)
    requires Fits(bands, lay)
  {
    && lo <= lay.top < n && lo <= lay.checks[0] < n
    && (forall b :: 0 <= b < |bands| ==> lay.lasts[b] < locals && lay.sweeps[b] < locals)
    && (forall p: Place :: IsPlace(bands, p) ==> lo <= StopOf(lay, p).first < n && lo <= StopOf(lay, p).second < n)
  }

  lemma SpotWithin(bands: Bands, lay: PrioLoop, lo: nat, n: nat, locals: nat, sp: Spot)
    requires Fits(bands, lay) && ScanWithin(bands, lay, lo, n, locals) && IsSpot(bands, sp)
    ensures lo <= BlockOf(bands, lay, sp) < n
  {
    if sp.Spot? {
      var p: Place := (sp.b, sp.k);
      assert IsPlace(bands, p) && lo <= StopOf(lay, p).first < n && lo <= StopOf(lay, p).second < n;
    }
  }

  lemma AroundIsWithin(bands: Bands, lay: PrioLoop, lo: nat, n: nat, locals: nat, p: Place)
    requires Fits(bands, lay) && NoEmptyBand(bands) && IsPlace(bands, p) && ScanWithin(bands, lay, lo, n, locals)
    ensures AroundWithin(AroundOf(bands, lay, p), lo, n, locals)
  {
    SpotWithin(bands, lay, lo, n, locals, NextSpot(bands, Spot(p.0, false, p.1)));
    SpotWithin(bands, lay, lo, n, locals, NextSpot(bands, Spot(p.0, true, p.1)));
    hide BlockOf;
  }

  lemma ScanStaysWithin(bands: Bands, lay: PrioLoop, lay': PrioLoop, lo: nat, n: nat, locals: nat)
    requires Fits(bands, lay) && Fits(bands, lay') && ScanWithin(bands, lay, lo, n, locals)
             && SameSites(bands, lay, lay')
    ensures ScanWithin(bands, lay', lo, n, locals)
  {
  }

  lemma StopBlocksAreSystem(m: Machine, a: Around, st: Stop, lo: nat, n: nat, locals: nat)
    requires AroundWithin(a, lo, n, locals) && Within(m, lo, n, locals)
    requires st.doneFirst < locals && st.doneSecond < locals && st.blocked < locals && lo <= st.ran < n
             && lo <= st.passOn < n
    ensures forall b :: 0 <= b < |StopBlocks(m, a, st)| ==> SystemBlock(StopBlocks(m, a, st)[b], lo, n, locals)
  {
  }

  lemma SwitchIsSystem(last: LocalId, k: nat, n: nat, to: BlockId, otherwise: BlockId, lo: nat, hi: nat, locals: nat)
    requires k <= n && last < locals && lo <= to < hi && lo <= otherwise < hi
    ensures SystemTerm(Switch(last, Later(k, n, to), otherwise), lo, hi, locals)
  {
  }

  lemma StopAdds(blocks: Blocks, m: Machine, a: Around, st: Stop, lo: nat, post: BlockId, locals: nat)
    requires lo <= st.first < |blocks| && lo <= st.second < |blocks| && st.first != st.second && st.first != m.exit
             && st.second != m.exit
    requires Within(m, lo, |blocks|, locals) && AroundWithin(a, lo, |blocks|, locals)
    requires st == StopAt(|blocks|, locals, st.first, st.second)
    ensures Adds(blocks, WithStop(blocks, m, a, st), lo, post, locals + 3)
  {
    hide StopBlocks, Later, SystemBlock, SystemTerm;
    var out := WithStop(blocks, m, a, st);
    StopBlocksSize(m, a, st);
    SwitchIsSystem(a.last, a.k, a.n, a.next1, st.pollFirst, lo, |out|, locals + 3);
    SwitchIsSystem(a.last, a.k, a.n, st.pollSecond, a.next2, lo, |out|, locals + 3);
    GotoIsSystem(st.after, lo, |out|, locals + 3);
    StopBlocksAreSystem(m, a, st, lo, |out|, locals + 3);
  }

  lemma StopBlocksSize(m: Machine, a: Around, st: Stop)
    ensures |StopBlocks(m, a, st)| == 5
  {
  }

  lemma GotoIsSystem(to: BlockId, lo: nat, n: nat, locals: nat)
    requires lo <= to < n
    ensures SystemTerm(Goto(to), lo, n, locals) && SystemTerm(Unreachable, lo, n, locals)
  {
  }

  /** The next stop adds blocks of its own only. */
  lemma NextStopAdds(blocks0: Blocks, blocks1: Blocks, blocks: Blocks, bands: Bands, ms: seq<Machine>, lay: PrioLoop,
                     b: nat, k: nat, l1: nat, locals: nat, lo: nat, n: nat, post: BlockId)
    requires Fits(bands, lay) && NoEmptyBand(bands) && IsPlace(bands, (b, k))
    requires SitesReady(blocks1, bands, ms, lay) && StopsDone(blocks1, blocks, bands, ms, lay, b, k, l1, locals)
    requires AllWithin(ms, lo, n, l1) && ScanWithin(bands, lay, lo, n, l1) && n <= |blocks|
    requires Adds(blocks0, blocks, lo, post, locals)
    ensures var p: Place := (b, k); var old1 := StopOf(lay, p);
            var st := StopAt(|blocks|, locals, old1.first, old1.second);
            && bands[b][k] < |ms| && st.first < |blocks| && st.second < |blocks| && ms[bands[b][k]].exit < |blocks|
            && Adds(blocks0, WithStop(blocks, ms[bands[b][k]], AroundOf(bands, lay, p), st), lo, post, locals + 3)
            && n <= |WithStop(blocks, ms[bands[b][k]], AroundOf(bands, lay, p), st)|
  {
    hide WithStop, SitesReady, StopDone, Adds, RegionsLeft, AroundOf, Touches;
    var p: Place := (b, k);
    SiteIsReady(blocks1, blocks, bands, ms, lay, b, k, l1, locals);
    var m, old1 := ms[bands[b][k]], StopOf(lay, p);
    var st := StopAt(|blocks|, locals, old1.first, old1.second);
    AroundIsWithin(bands, lay, lo, n, l1, p);
    assert Within(m, lo, n, l1);
    assert lo <= StopOf(lay, p).first < n && lo <= StopOf(lay, p).second < n;
    var a := AroundOf(bands, lay, p);
    StopAdds(blocks, m, a, st, lo, post, locals);
    StopSize(blocks, m, a, st);
    AddsMore(blocks0, blocks, WithStop(blocks, m, a, st), lo, post, locals, locals + 3);
  }

  /** All stops, band by band. */
  method EmitStops(body: Body<Stmt>, bands: Bands, ms: seq<Machine>, lay0: PrioLoop, ghost lo: nat)
    returns (lay: PrioLoop)
    requires Fits(bands, lay0) && NoEmptyBand(bands) && SitesReady(body.blocks, bands, ms, lay0)
    requires lo <= |body.blocks| && AllWithin(ms, lo, |body.blocks|, body.locals)
    requires ScanWithin(bands, lay0, lo, |body.blocks|, body.locals)
    modifies body
    ensures Adds(old(body.blocks), body.blocks, lo, lay0.post, body.locals)
    ensures old(body.locals) <= body.locals && |old(body.blocks)| <= |body.blocks|
    ensures lay == lay0.(stops := lay.stops) && Fits(bands, lay) && SameSites(bands, lay0, lay)
    ensures StopsDone(old(body.blocks), body.blocks, bands, ms, lay, |bands|, 0, old(body.locals), body.locals)
  {
    hide StopDone, StopShape, Touches, SitesReady, SameSites, WithStop, RegionsLeft, StopsDone, Adds, ScanWithin,
         AllWithin;
    ghost var blocks1, l1 := body.blocks, body.locals;
    lay := lay0;
    NoStops(blocks1, bands, ms, lay, l1);
    AddsNothing(blocks1, lo, lay0.post, l1);
    for b := 0 to |bands|
      invariant lay == lay0.(stops := lay.stops) && Fits(bands, lay) && SameSites(bands, lay0, lay)
      invariant SitesReady(blocks1, bands, ms, lay)
      invariant StopsDone(blocks1, body.blocks, bands, ms, lay, b, 0, l1, body.locals)
      invariant Adds(blocks1, body.blocks, lo, lay0.post, body.locals) && l1 <= body.locals
                && |blocks1| <= |body.blocks|
    {
      for k := 0 to |bands[b]|
        invariant lay == lay0.(stops := lay.stops) && Fits(bands, lay) && SameSites(bands, lay0, lay)
        invariant SitesReady(blocks1, bands, ms, lay)
        invariant StopsDone(blocks1, body.blocks, bands, ms, lay, b, k, l1, body.locals)
        invariant Adds(blocks1, body.blocks, lo, lay0.post, body.locals) && l1 <= body.locals
                  && |blocks1| <= |body.blocks|
      {
        SiteIsReady(blocks1, body.blocks, bands, ms, lay, b, k, l1, body.locals);
        StopsDoneStep(blocks1, body.blocks, bands, ms, lay, b, k, l1, body.locals);
        ScanStaysWithin(bands, lay0, lay, lo, |blocks1|, l1);
        NextStopAdds(blocks1, blocks1, body.blocks, bands, ms, lay, b, k, l1, body.locals, lo, |blocks1|, lay0.post);
        var at := lay.stops[b][k];
        ghost var was := StopAt(|body.blocks|, body.locals, at.first, at.second);
        var st := EmitStop(body, ms[bands[b][k]], AroundOf(bands, lay, (b, k)), at.first, at.second);
        SetStopFacts(bands, ms, lay, (b, k), was);
        SitesTransitive(bands, lay0, lay, SetStop(lay, (b, k), was));
        lay := lay.(stops := lay.stops[b := lay.stops[b][k := st]]);
      }
      NextBand(blocks1, body.blocks, bands, ms, lay, b, l1, body.locals);
    }
  }

  lemma NoStops(blocks1: Blocks, bands: Bands, ms: seq<Machine>, lay: PrioLoop, l1: nat)
    requires Fits(bands, lay) && NoEmptyBand(bands)
    ensures StopsDone(blocks1, blocks1, bands, ms, lay, 0, 0, l1, l1) && SameSites(bands, lay, lay)
  {
  }

  lemma SitesTransitive(bands: Bands, lay: PrioLoop, lay1: PrioLoop, lay2: PrioLoop)
    requires Fits(bands, lay) && Fits(bands, lay1) && Fits(bands, lay2) && SameSites(bands, lay, lay1)
             && SameSites(bands, lay1, lay2)
    ensures SameSites(bands, lay, lay2)
  {
  }

  // ── Before the stops ─────────────────────────────────────────────────

  method EmitLastInits(body: Body<Stmt>, init: BlockId, lasts: seq<LocalId>, top: BlockId)
    requires init < |body.blocks| && body.blocks[init] == BARE
    modifies body`blocks
    ensures body.blocks == old(body.blocks)[init := Block(LastInits(lasts), Goto(top))]
  {
    ghost var blocks0 := body.blocks;
    assert LastInits(lasts[..0]) == [];
    for i := 0 to |lasts|
      invariant body.blocks == blocks0[init := Block(LastInits(lasts[..i]), Unreachable)]
    {
      body.Append(init, AssignI64(lasts[i], -1));
      assert LastInits(lasts[..i]) + [AssignI64(lasts[i], -1)] == LastInits(lasts[..i + 1]);
    }
    assert lasts[..|lasts|] == lasts;
    body.SetTerm(init, Goto(top));
  }

  /** The ways in and out of the loop, and its sites, still empty. */
  datatype Head = Head(
    exit: BlockId, post: BlockId, init: BlockId, top: BlockId, checkDone: BlockId,
    lasts: seq<LocalId>, sweeps: seq<LocalId>, firsts: seq<seq<BlockId>>, seconds: seq<seq<BlockId>>)

  ghost predicate HeadIn(blocks0: Blocks, blocks: Blocks, region: Region, bands: Bands, progress: LocalId, h: Head,
                         mid: nat) {
    var n := |blocks0|;
    && region.end.0 < n && n + 5 <= mid <= |blocks|
    && h.exit == n && h.post == n + 1 && h.init == n + 2 && h.top == n + 3 && h.checkDone == n + 4
    && |h.firsts| == |h.seconds| == |bands| > 0 && |bands[0]| > 0
    && GridFrom(bands, h.firsts, n + 5, mid) && GridFrom(bands, h.seconds, mid, |blocks|)
    && Is(blocks, h.exit, [], Goto(h.post)) && Is(blocks, h.post, [], blocks0[region.end.0].term)
    && Is(blocks, h.init, LastInits(h.lasts), Goto(h.top))
    && Is(blocks, h.top, [AssignI64(progress, 0)], Goto(h.firsts[0][0]))
    && (forall b :: n + 4 <= b < |blocks| ==> blocks[b] == BARE)
    && blocks[region.end.0] == Block(blocks0[region.end.0].stmts, Unreachable)
    && (forall b :: 0 <= b < n && b != region.end.0 ==> blocks[b] == blocks0[b])
    && RegionsLeft(blocks) == RegionsLeft(blocks0)
  }

  /** The blocks of a head before its sites. */
  function Headed(blocks: Blocks, region: Region, lasts: seq<LocalId>, progress: LocalId): Blocks
    requires region.end.0 < |blocks|
  {
    Exited(blocks, region)
      + [Block(LastInits(lasts), Goto(|blocks| + 3)), Block([AssignI64(progress, 0)], Unreachable), BARE]
  }

  lemma HeadedRegions(blocks: Blocks, region: Region, lasts: seq<LocalId>, progress: LocalId)
    requires region.end.0 < |blocks|
    ensures RegionsLeft(Headed(blocks, region, lasts, progress)) == RegionsLeft(blocks)
  {
    hide RegionsLeft;
    var re := blocks[region.end.0];
    var blocks1: Blocks := blocks[region.end.0 := re.(term := Unreachable)];
    RegionsTerm(blocks, region.end.0, Unreachable);
    HeadBlocksRegions(|blocks|, re.term, lasts, progress);
    RegionsConcat(blocks1, HeadBlocks(|blocks|, re.term, lasts, progress));
    assert Headed(blocks, region, lasts, progress) == blocks1 + HeadBlocks(|blocks|, re.term, lasts, progress);
  }

  function HeadBlocks(n: nat, t: Term, lasts: seq<LocalId>, progress: LocalId): Blocks {
    [Block([], Goto(n + 1)), Block([], t), Block(LastInits(lasts), Goto(n + 3)),
     Block([AssignI64(progress, 0)], Unreachable), BARE]
  }

  lemma HeadBlocksRegions(n: nat, t: Term, lasts: seq<LocalId>, progress: LocalId)
    ensures RegionsLeft(HeadBlocks(n, t, lasts, progress)) == 0
  {
    var more := HeadBlocks(n, t, lasts, progress);
    forall b | 0 <= b < |more|
      ensures Begins(more[b].stmts) == 0
    {
      NoBegins(more[b].stmts);
    }
    NoRegions(more);
  }

  method EmitHeadBlocks(body: Body<Stmt>, region: Region, bands: Bands, progress: LocalId)
    returns (exit: BlockId, post: BlockId, init: BlockId, top: BlockId, checkDone: BlockId, lasts: seq<LocalId>,
             sweeps: seq<LocalId>)
    requires region.end.0 < |body.blocks| && |body.blocks[region.end.0].stmts| > 0
    modifies body
    ensures var n, l := |old(body.blocks)|, old(body.locals);
            && exit == n && post == n + 1 && init == n + 2 && top == n + 3 && checkDone == n + 4
            && |lasts| == |sweeps| == |bands| && body.locals == l + 2 * |bands|
            && (forall b :: 0 <= b < |bands| ==> lasts[b] == l + b && sweeps[b] == l + |bands| + b)
    ensures body.blocks == Headed(old(body.blocks), region, lasts, progress)
  {
    ghost var blocks0 := body.blocks;
    exit, post := RegionExit(body, region);
    init := body.NewBlock();
    top := body.NewBlock();
    checkDone := body.NewBlock();
    lasts := NewLocals(body, |bands|);
    sweeps := NewLocals(body, |bands|);
    EmitLastInits(body, init, lasts, top);
    body.Append(top, AssignI64(progress, 0));
    assert body.blocks[top].stmts == [AssignI64(progress, 0)];
  }

  method EmitHead(body: Body<Stmt>, region: Region, bands: Bands, progress: LocalId) returns (h: Head, ghost mid: nat)
    requires region.end.0 < |body.blocks| && |body.blocks[region.end.0].stmts| > 0
    requires |bands| > 0 && NoEmptyBand(bands)
    modifies body
    ensures HeadIn(old(body.blocks), body.blocks, region, bands, progress, h, mid)
    ensures var l := old(body.locals);
            && |h.lasts| == |h.sweeps| == |bands| && body.locals == l + 2 * |bands|
            && (forall b :: 0 <= b < |bands| ==> h.lasts[b] == l + b && h.sweeps[b] == l + |bands| + b)
  {
    ghost var blocks0 := body.blocks;
    var exit, post, init, top, checkDone, lasts, sweeps := EmitHeadBlocks(body, region, bands, progress);
    HeadedRegions(blocks0, region, lasts, progress);
    ghost var blocks1 := body.blocks;
    var firsts := NewGrid(body, bands);
    mid := |body.blocks|;
    ghost var blocks2 := body.blocks;
    var seconds := NewGrid(body, bands);
    BareTwice(blocks1, blocks2, body.blocks);
    ghost var blocks3 := body.blocks;
    RegionsTerm(blocks3, top, Goto(firsts[0][0]));
    body.SetTerm(top, Goto(firsts[0][0]));
    h := Head(exit, post, init, top, checkDone, lasts, sweeps, firsts, seconds);
    HeadHolds(blocks0, blocks1, blocks3, body.blocks, region, bands, progress, h, mid);
  }

  lemma HeadHolds(blocks0: Blocks, blocks1: Blocks, blocks3: Blocks, blocks: Blocks, region: Region, bands: Bands,
                  progress: LocalId, h: Head, mid: nat)
    requires region.end.0 < |blocks0| && |bands| > 0 && |bands[0]| > 0
    requires blocks1 == Headed(blocks0, region, h.lasts, progress) && OnlyBare(blocks1, blocks3)
    requires RegionsLeft(blocks1) == RegionsLeft(blocks0) && RegionsLeft(blocks) == RegionsLeft(blocks3)
    requires h.exit == |blocks0| && h.post == h.exit + 1 && h.init == h.exit + 2 && h.top == h.exit + 3
             && h.checkDone == h.exit + 4
    requires |h.firsts| == |h.seconds| == |bands| && |h.firsts[0]| > 0
    requires GridFrom(bands, h.firsts, |blocks1|, mid) && GridFrom(bands, h.seconds, mid, |blocks3|)
             && |blocks1| <= mid <= |blocks3|
    requires h.top < |blocks3| && blocks == blocks3[h.top := blocks3[h.top].(term := Goto(h.firsts[0][0]))]
    ensures HeadIn(blocks0, blocks, region, bands, progress, h, mid)
  {
    hide RegionsLeft, GridFrom, Headed, LastInits, OnlyBare, HeadIn, HeadBlocksIn;
    HeadedAt(blocks0, region, h.lasts, progress);
    BareOnly(blocks1, blocks3);
    TopSet(blocks3, blocks, h.top, h.firsts[0][0]);
    HeadFrom(blocks0, blocks1, blocks3, blocks, region, bands, progress, h, mid);
  }

  lemma HeadFrom(blocks0: Blocks, blocks1: Blocks, blocks3: Blocks, blocks: Blocks, region: Region, bands: Bands,
                 progress: LocalId, h: Head, mid: nat)
    requires |blocks1| == |blocks0| + 5 && |blocks| == |blocks3| && |blocks1| <= mid <= |blocks3|
    requires region.end.0 < |blocks0| && |bands| > 0 && |bands[0]| > 0
    requires RegionsLeft(blocks) == RegionsLeft(blocks0)
    requires h.exit == |blocks0| && h.post == h.exit + 1 && h.init == h.exit + 2 && h.top == h.exit + 3
             && h.checkDone == h.exit + 4
    requires |h.firsts| == |h.seconds| == |bands| && |h.firsts[0]| > 0
    requires GridFrom(bands, h.firsts, |blocks1|, mid) && GridFrom(bands, h.seconds, mid, |blocks3|)
    requires HeadBlocksIn(blocks0, blocks1, region, progress, h.lasts)
    requires (forall b :: 0 <= b < |blocks1| ==> blocks3[b] == blocks1[b])
             && (forall b :: |blocks1| <= b < |blocks3| ==> blocks3[b] == BARE)
    requires forall b :: 0 <= b < |blocks3| && b != h.top ==> blocks[b] == blocks3[b]
    requires blocks[h.top] == Block(blocks3[h.top].stmts, Goto(h.firsts[0][0]))
    ensures HeadIn(blocks0, blocks, region, bands, progress, h, mid)
  {
    hide RegionsLeft, GridFrom, LastInits;
  }

  ghost predicate HeadBlocksIn(blocks: Blocks, out: Blocks, region: Region, progress: LocalId, lasts: seq<LocalId>) {
    var n := |blocks|;
    && region.end.0 < n && |out| == n + 5
    && out[n] == Block([], Goto(n + 1)) && out[n + 1] == Block([], blocks[region.end.0].term)
    && out[n + 2] == Block(LastInits(lasts), Goto(n + 3)) && out[n + 3] == Block([AssignI64(progress, 0)], Unreachable)
    && out[n + 4] == BARE
    && out[region.end.0] == Block(blocks[region.end.0].stmts, Unreachable)
    && (forall b :: 0 <= b < n && b != region.end.0 ==> out[b] == blocks[b])
  }

  lemma BareOnly(blocks: Blocks, out: Blocks)
    requires OnlyBare(blocks, out)
    ensures |blocks| <= |out| && (forall b :: 0 <= b < |blocks| ==> out[b] == blocks[b])
            && RegionsLeft(out) == RegionsLeft(blocks)
    ensures forall b :: |blocks| <= b < |out| ==> out[b] == BARE
  {
  }

  lemma TopSet(blocks: Blocks, out: Blocks, top: BlockId, first: BlockId)
    requires top < |blocks| && out == blocks[top := blocks[top].(term := Goto(first))]
    ensures |out| == |blocks| && out[top] == Block(blocks[top].stmts, Goto(first))
    ensures forall b :: 0 <= b < |blocks| && b != top ==> out[b] == blocks[b]
  {
  }

  lemma HeadedAt(blocks: Blocks, region: Region, lasts: seq<LocalId>, progress: LocalId)
    requires region.end.0 < |blocks|
    ensures |Headed(blocks, region, lasts, progress)| == |blocks| + 5
    ensures HeadBlocksIn(blocks, Headed(blocks, region, lasts, progress), region, progress, lasts)
  {
  }

  lemma LastInitsAreSystem(lasts: seq<LocalId>, locals: nat)
    requires forall b :: 0 <= b < |lasts| ==> lasts[b] < locals
    ensures forall i :: 0 <= i < |LastInits(lasts)| ==> SystemStmt(LastInits(lasts)[i], locals)
  {
  }

  lemma HeadAdds(blocks0: Blocks, blocks: Blocks, region: Region, bands: Bands, progress: LocalId, h: Head, mid: nat,
                 lo: nat, locals: nat)
    requires HeadIn(blocks0, blocks, region, bands, progress, h, mid) && lo <= |blocks0| && progress < locals
    requires forall b :: 0 <= b < |h.lasts| ==> h.lasts[b] < locals
    ensures Adds(blocks0, blocks, lo, h.post, locals)
  {
    hide RegionsLeft, LastInits, SystemStmt;
    assert |blocks0| <= h.firsts[0][0] < |blocks|;
    hide GridFrom;
    LastInitsAreSystem(h.lasts, locals);
    GotoIsSystem(h.post, lo, |blocks|, locals);
    GotoIsSystem(h.top, lo, |blocks|, locals);
    GotoIsSystem(h.firsts[0][0], lo, |blocks|, locals);
    TopIsSystem(progress, locals);
    hide SystemTerm;
    forall b: nat | |blocks0| <= b < |blocks| && b != h.post
      ensures SystemBlock(blocks[b], lo, |blocks|, locals)
    {
    }
  }

  lemma TopIsSystem(progress: LocalId, locals: nat)
    requires progress < locals
    ensures SystemStmt(AssignI64(progress, 0), locals)
  {
  }

  // ── After the stops ──────────────────────────────────────────────────

  lemma StuckAdds(blocks: Blocks, progress: LocalId, report: bool, top: BlockId, lo: nat, post: BlockId, locals: nat)
    requires lo <= top < |blocks| && progress < locals
    ensures Adds(blocks, blocks + [Block([], if report then Deadlock else Goto(top)),
                                   Block([EqCheck(locals, progress, 1)], Branch(locals, top, |blocks|))], lo, post,
                                     locals + 1)
  {
    var out: Blocks := blocks + [Block([], if report then Deadlock else Goto(top)),
                                 Block([EqCheck(locals, progress, 1)], Branch(locals, top, |blocks|))];
    assert SystemBlock(out[|blocks|], lo, |out|, locals + 1) && SystemBlock(out[|blocks| + 1], lo, |out|, locals + 1);
  }

  lemma CheckAdds(blocks: Blocks, c: BlockId, state: LocalId, noProgress: BlockId, lo: nat, post: BlockId, locals: nat)
    requires lo <= c < |blocks| && state < locals && lo <= noProgress < |blocks|
    ensures Adds(blocks, blocks[c := Block([EqCheck(locals, state, DONE_STATE)], Branch(locals, |blocks|, noProgress))]
                 + [BARE],
                 lo, post, locals + 1)
  {
    var out: Blocks := blocks[c := Block([EqCheck(locals, state, DONE_STATE)], Branch(locals, |blocks|, noProgress))]
      + [BARE];
    assert SystemBlock(out[c], lo, |out|, locals + 1) && SystemBlock(out[|blocks|], lo, |out|, locals + 1);
  }

  lemma TermAdds(blocks: Blocks, c: BlockId, to: BlockId, lo: nat, post: BlockId, locals: nat)
    requires lo <= c < |blocks| && lo <= to < |blocks|
    ensures Adds(blocks, blocks[c := blocks[c].(term := Goto(to))], lo, post, locals)
  {
    GotoIsSystem(to, lo, |blocks|, locals);
  }

  /** The first `|dones|` checks are in place and the last block of the chain is empty. */
  ghost predicate ChecksIn(blocks0: Blocks, blocks: Blocks, ms: seq<Machine>, noProgress: BlockId, checks: seq<BlockId>,
                           dones: seq<LocalId>, l1: nat, locals: nat) {
    && |checks| == |dones| + 1 && |dones| <= |ms| && checks[0] < |blocks0| <= |blocks| && l1 <= locals
    && (forall i :: 0 <= i < |checks| ==> checks[i] < |blocks| && (i > 0 ==> |blocks0| <= checks[i]))
    && (forall i, j :: 0 <= i < j < |checks| ==> checks[i] != checks[j])
    && (forall i :: 0 <= i < |dones| ==>
          && l1 <= dones[i] < locals
          && Is(blocks, checks[i], [EqCheck(dones[i], ms[i].state, DONE_STATE)],
                Branch(dones[i], checks[i + 1], noProgress)))
    && blocks[checks[|dones|]] == BARE
    && (forall b :: 0 <= b < |blocks0| && b != checks[0] ==> blocks[b] == blocks0[b])
    && RegionsLeft(blocks) == RegionsLeft(blocks0)
  }

  lemma NextCheck(blocks0: Blocks, blocks: Blocks, out: Blocks, ms: seq<Machine>, noProgress: BlockId,
                  checks: seq<BlockId>, dones: seq<LocalId>, l1: nat, locals: nat)
    requires ChecksIn(blocks0, blocks, ms, noProgress, checks, dones, l1, locals) && |dones| < |ms|
    requires var c := checks[|dones|];
             out == blocks[c :=
                           Block([EqCheck(locals, ms[|dones|].state, DONE_STATE)],
                                 Branch(locals, |blocks|, noProgress))] + [BARE]
    ensures ChecksIn(blocks0, out, ms, noProgress, checks + [|blocks|], dones + [locals], l1, locals + 1)
  {
    var c := checks[|dones|];
    var b1: Block<Stmt> :=
      Block([EqCheck(locals, ms[|dones|].state, DONE_STATE)], Branch(locals, |blocks|, noProgress));
    NoBegins(b1.stmts);
    RegionsUpdate(blocks, c, b1);
    RegionsAppend(blocks[c := b1], BARE);
    hide RegionsLeft, Begins;
  }

  method EmitChecks(body: Body<Stmt>, ms: seq<Machine>, checkDone: BlockId, noProgress: BlockId, ghost lo: nat,
                    ghost post: BlockId)
    returns (checks: seq<BlockId>, dones: seq<LocalId>)
    requires checkDone < |body.blocks| && body.blocks[checkDone] == BARE
    requires lo <= checkDone && lo <= noProgress < |body.blocks| && AllWithin(ms, lo, |body.blocks|, body.locals)
    modifies body
    ensures |dones| == |ms| && checks != [] && checks[0] == checkDone
    ensures ChecksIn(old(body.blocks), body.blocks, ms, noProgress, checks, dones, old(body.locals), body.locals)
    ensures Adds(old(body.blocks), body.blocks, lo, post, body.locals) && |old(body.blocks)| <= |body.blocks|
    ensures old(body.locals) <= body.locals && lo <= checks[|ms|] < |body.blocks|
  {
    hide Adds, AllWithin, RegionsLeft;
    ghost var blocks0, l1 := body.blocks, body.locals;
    AddsNothing(blocks0, lo, post, l1);
    NoChecks(blocks0, ms, noProgress, checkDone, l1);
    var check := checkDone;
    checks, dones := [checkDone], [];
    for i := 0 to |ms|
      invariant |dones| == i && |checks| == i + 1 && checks[0] == checkDone && check == checks[i]
      invariant ChecksIn(blocks0, body.blocks, ms, noProgress, checks, dones, l1, body.locals)
      invariant Adds(blocks0, body.blocks, lo, post, body.locals) && |blocks0| <= |body.blocks| && l1 <= body.locals
      invariant lo <= check < |body.blocks|
    {
      OneWithin(ms, i, lo, |blocks0|, l1);
      CheckAdds(body.blocks, check, ms[i].state, noProgress, lo, post, body.locals);
      ghost var blocks, locals := body.blocks, body.locals;
      var done := body.NewLocal();
      body.Append(check, EqCheck(done, ms[i].state, DONE_STATE));
      var next := body.NewBlock();
      body.SetTerm(check, Branch(done, next, noProgress));
      assert body.blocks[check].stmts == [EqCheck(done, ms[i].state, DONE_STATE)];
      NextCheck(blocks0, blocks, body.blocks, ms, noProgress, checks, dones, l1, locals);
      AddsMore(blocks0, blocks, body.blocks, lo, post, locals, locals + 1);
      checks := checks + [next];
      dones := dones + [done];
      check := next;
    }
  }

  lemma NoChecks(blocks: Blocks, ms: seq<Machine>, noProgress: BlockId, checkDone: BlockId, l1: nat)
    requires checkDone < |blocks| && blocks[checkDone] == BARE
    ensures ChecksIn(blocks, blocks, ms, noProgress, [checkDone], [], l1, l1)
  {
  }

  lemma OneWithin(ms: seq<Machine>, i: nat, lo: nat, n: nat, locals: nat)
    requires AllWithin(ms, lo, n, locals) && i < |ms|
    ensures ms[i].state < locals
  {
    assert Within(ms[i], lo, n, locals);
  }

  ghost predicate EndIn(blocks0: Blocks, blocks: Blocks, ms: seq<Machine>, report: bool, lay: PrioLoop, l1: nat,
                        locals: nat) {
    && |ms| > 0 && |blocks0| <= |blocks| && EndShape(blocks, ms, report, lay)
    && |blocks0| <= lay.noProgress && |blocks0| <= lay.stuck && l1 <= lay.progressed < locals
    && (forall i :: 0 < i < |lay.checks| ==> |blocks0| <= lay.checks[i])
    && (forall i :: 0 <= i < |lay.dones| ==> l1 <= lay.dones[i] < locals)
    && (forall b :: 0 <= b < |blocks0| && b != lay.checks[0] ==> blocks[b] == blocks0[b])
    && RegionsLeft(blocks) == RegionsLeft(blocks0)
  }

  method EmitStuck(body: Body<Stmt>, progress: LocalId, report: bool, top: BlockId)
    returns (stuck: BlockId, noProgress: BlockId, progressed: LocalId)
    modifies body
    ensures stuck == |old(body.blocks)| && noProgress == stuck + 1 && progressed == old(body.locals)
            && body.locals == progressed + 1
    ensures body.blocks == old(body.blocks) + [Block([], if report then Deadlock else Goto(top)),
                                              Block([EqCheck(progressed, progress, 1)], Branch(progressed, top, stuck))]
  {
    stuck := body.NewBlock();
    noProgress := body.NewBlock();
    progressed := body.NewLocal();
    body.Append(noProgress, EqCheck(progressed, progress, 1));
    body.SetTerm(noProgress, Branch(progressed, top, stuck));
    if report {
      body.SetTerm(stuck, Deadlock);
    } else {
      body.SetTerm(stuck, Goto(top));
    }
    assert body.blocks[noProgress].stmts == [EqCheck(progressed, progress, 1)];
  }

  method EmitEnd(body: Body<Stmt>, ms: seq<Machine>, report: bool, lay0: PrioLoop, ghost lo: nat)
    returns (lay: PrioLoop)
    requires |ms| > 0 && |lay0.checks| > 0 && lay0.checks[0] < |body.blocks| && body.blocks[lay0.checks[0]] == BARE
    requires AllWithin(ms, lo, |body.blocks|, body.locals)
    requires lo <= lay0.checks[0] && lo <= lay0.top < |body.blocks| && lo <= lay0.exit < |body.blocks|
    modifies body
    ensures lay
            == lay0.(noProgress := lay.noProgress, stuck := lay.stuck, progressed := lay.progressed,
                     checks := lay.checks, dones := lay.dones)
    ensures |lay.checks| > 0 && lay.checks[0] == lay0.checks[0]
    ensures EndIn(old(body.blocks), body.blocks, ms, report, lay, old(body.locals), body.locals)
    ensures Adds(old(body.blocks), body.blocks, lo, lay.post, body.locals) && old(body.locals) <= body.locals
  {
    hide Adds, AllWithin, ChecksIn, EndIn, RegionsLeft;
    ghost var blocks0, l1 := body.blocks, body.locals;
    FirstWithin(ms, lo, |blocks0|, l1);
    StuckAdds(blocks0, ms[0].progress, report, lay0.top, lo, lay0.post, l1);
    StillWithin(ms, lo, |blocks0|, l1, |blocks0| + 2, l1 + 1);
    var stuck, noProgress, progressed := EmitStuck(body, ms[0].progress, report, lay0.top);
    ghost var blocks1, l2 := body.blocks, body.locals;
    var checks, dones := EmitChecks(body, ms, lay0.checks[0], noProgress, lo, lay0.post);
    ghost var blocks2 := body.blocks;
    AddsMore(blocks0, blocks1, blocks2, lo, lay0.post, l2, body.locals);
    ChecksFit(blocks1, blocks2, ms, noProgress, checks, dones, l2, body.locals);
    TermAdds(blocks2, checks[|ms|], lay0.exit, lo, lay0.post, body.locals);
    body.SetTerm(checks[|ms|], Goto(lay0.exit));
    lay := lay0.(noProgress := noProgress, stuck := stuck, progressed := progressed, checks := checks, dones := dones);
    AddsMore(blocks0, blocks2, body.blocks, lo, lay0.post, body.locals, body.locals);
    EndHolds(blocks0, blocks1, blocks2, body.blocks, ms, report, lay, l1, l2, body.locals);
  }

  lemma ChecksFit(blocks0: Blocks, blocks: Blocks, ms: seq<Machine>, noProgress: BlockId, checks: seq<BlockId>,
                  dones: seq<LocalId>, l1: nat, locals: nat)
    requires ChecksIn(blocks0, blocks, ms, noProgress, checks, dones, l1, locals)
    ensures |checks| == |dones| + 1 && forall i :: 0 <= i < |checks| ==> checks[i] < |blocks|
  {
    hide RegionsLeft;
  }

  lemma StillWithin(ms: seq<Machine>, lo: nat, n: nat, locals: nat, n': nat, locals': nat)
    requires AllWithin(ms, lo, n, locals) && n <= n' && locals <= locals'
    ensures AllWithin(ms, lo, n', locals')
  {
    forall i | 0 <= i < |ms|
      ensures Within(ms[i], lo, n', locals')
    {
      assert Within(ms[i], lo, n, locals);
    }
  }

  lemma EndHolds(blocks0: Blocks, blocks1: Blocks, blocks2: Blocks, blocks: Blocks, ms: seq<Machine>, report: bool,
                 lay: PrioLoop, l1: nat, l2: nat, locals: nat)
    requires |ms| > 0 && |lay.dones| == |ms| && l1 < l2 && lay.progressed == l1
    requires lay.stuck == |blocks0| && lay.noProgress == |blocks0| + 1
    requires blocks1 == blocks0 + [Block([], if report then Deadlock else Goto(lay.top)),
                                   Block([EqCheck(lay.progressed, ms[0].progress, 1)],
                                         Branch(lay.progressed, lay.top, lay.stuck))]
    requires ChecksIn(blocks1, blocks2, ms, lay.noProgress, lay.checks, lay.dones, l2, locals)
    requires lay.checks[0] < |blocks0|
    requires blocks == blocks2[lay.checks[|ms|] := blocks2[lay.checks[|ms|]].(term := Goto(lay.exit))]
    ensures EndIn(blocks0, blocks, ms, report, lay, l1, locals)
  {
    var b0: Block<Stmt> := Block([], if report then Deadlock else Goto(lay.top));
    var b1: Block<Stmt> :=
      Block([EqCheck(lay.progressed, ms[0].progress, 1)], Branch(lay.progressed, lay.top, lay.stuck));
    RegionsAppend(blocks0, b0);
    RegionsAppend(blocks0 + [b0], b1);
    assert blocks1 == blocks0 + [b0] + [b1];
    RegionsTerm(blocks2, lay.checks[|ms|], Goto(lay.exit));
    hide RegionsLeft;
    assert lay.checks[|ms|] != lay.checks[0];
    forall i | 0 <= i < |ms|
      ensures Is(blocks, lay.checks[i], [EqCheck(lay.dones[i], ms[i].state, DONE_STATE)],
                 Branch(lay.dones[i], lay.checks[i + 1], lay.noProgress))
    {
      assert lay.checks[i] != lay.checks[|ms|];
    }
  }

  // ── The whole loop ───────────────────────────────────────────────────

  /** A layout whose stops have their sites and nothing else yet. */
  function StopsOf(firsts: seq<seq<BlockId>>, seconds: seq<seq<BlockId>>): (r: seq<seq<Stop>>)
    requires |firsts| == |seconds| && forall b :: 0 <= b < |firsts| ==> |firsts[b]| == |seconds[b]|
    ensures |r| == |firsts|
    ensures forall b :: 0 <= b < |r| ==> |r[b]| == |firsts[b]|
    ensures forall b, k :: 0 <= b < |r| && 0 <= k < |r[b]| ==>
              r[b][k].first == firsts[b][k] && r[b][k].second == seconds[b][k]
  {
    seq(|firsts|, b requires 0 <= b < |firsts| =>
      seq(|firsts[b]|, k requires 0 <= k < |firsts[b]| => Stop(firsts[b][k], seconds[b][k], 0, 0, 0, 0, 0, 0, 0, 0)))
  }

  function Laid(h: Head): PrioLoop
    requires |h.firsts| == |h.seconds| && forall b :: 0 <= b < |h.firsts| ==> |h.firsts[b]| == |h.seconds[b]|
  {
    PrioLoop(h.init, h.top, h.exit, h.post, 0, 0, 0, h.lasts, h.sweeps, StopsOf(h.firsts, h.seconds), [h.checkDone], [])
  }

  /** Members are machines, each in one place. */
  ghost predicate MembersOk(bands: Bands, n: nat) {
    && (forall p: Place :: IsPlace(bands, p) ==> bands[p.0][p.1] < n)
    && (forall p: Place, q: Place :: IsPlace(bands, p) && IsPlace(bands, q) && bands[p.0][p.1] == bands[q.0][q.1] ==>
          p == q)
  }

  lemma MembersAreOk(region: Region, bands: Bands)
    requires BandsOk(region, bands)
    ensures MembersOk(bands, |region.coroutines|)
    ensures NoEmptyBand(bands) && (|region.coroutines| > 0 ==> |bands| > 0)
  {
    hide BandsOk;
    forall p: Place | IsPlace(bands, p)
      ensures bands[p.0][p.1] < |region.coroutines|
    {
      PlaceInRange(region, bands, p);
    }
    forall p: Place, q: Place | IsPlace(bands, p) && IsPlace(bands, q) && bands[p.0][p.1] == bands[q.0][q.1]
      ensures p == q
    {
      OnePlace(region, bands, p.0, p.1, q.0, q.1);
    }
    BandsNotEmpty(region, bands);
  }

  lemma BandsNotEmpty(region: Region, bands: Bands)
    requires BandsOk(region, bands)
    ensures NoEmptyBand(bands) && (|region.coroutines| > 0 ==> |bands| > 0)
  {
    forall b | 0 <= b < |bands|
      ensures |bands[b]| > 0
    {
      assert BandOk(region, bands[b]);
    }
    if |region.coroutines| > 0 {
      assert InBands(bands, 0);
    }
  }

  lemma LaidFits(blocks0: Blocks, blocks: Blocks, region: Region, bands: Bands, progress: LocalId, h: Head, mid: nat)
    requires HeadIn(blocks0, blocks, region, bands, progress, h, mid) && |h.lasts| == |h.sweeps| == |bands|
    ensures |h.firsts| == |h.seconds| && forall b :: 0 <= b < |h.firsts| ==> |h.firsts[b]| == |h.seconds[b]|
    ensures Fits(bands, Laid(h))
  {
    hide RegionsLeft;
  }

  lemma LaidSite(blocks0: Blocks, blocks: Blocks, region: Region, bands: Bands, progress: LocalId, h: Head, mid: nat,
                 p: Place)
    requires HeadIn(blocks0, blocks, region, bands, progress, h, mid) && |h.lasts| == |h.sweeps| == |bands|
             && IsPlace(bands, p)
    requires Fits(bands, Laid(h))
    ensures var st := StopOf(Laid(h), p);
            && |blocks0| + 5 <= st.first < mid <= st.second < |blocks| && blocks[st.first] == BARE
            && blocks[st.second] == BARE
            && st.first == h.firsts[p.0][p.1] && st.second == h.seconds[p.0][p.1]
  {
    hide RegionsLeft;
  }

  lemma LaidReady(blocks0: Blocks, blocks: Blocks, region: Region, bands: Bands, progress: LocalId, h: Head, mid: nat,
                  ms: seq<Machine>)
    requires HeadIn(blocks0, blocks, region, bands, progress, h, mid) && |h.lasts| == |h.sweeps| == |bands|
    requires MembersOk(bands, |ms|) && ExitsApart(ms, |blocks0|)
    requires forall i :: 0 <= i < |ms| ==> ms[i].exit != region.end.0 && blocks0[ms[i].exit] == BARE
    requires Fits(bands, Laid(h))
    ensures SitesReady(blocks, bands, ms, Laid(h))
  {
    hide RegionsLeft, GridFrom;
    LaidFits(blocks0, blocks, region, bands, progress, h, mid);
    var lay := Laid(h);
    forall p: Place | IsPlace(bands, p)
      ensures var st := StopOf(lay, p);
              && bands[p.0][p.1] < |ms| && st.first < |blocks| && st.second < |blocks|
              && ms[bands[p.0][p.1]].exit < |blocks0|
              && blocks[st.first] == BARE && blocks[st.second] == BARE && blocks[ms[bands[p.0][p.1]].exit] == BARE
              && st.first != st.second && st.first != ms[bands[p.0][p.1]].exit && st.second != ms[bands[p.0][p.1]].exit
    {
      LaidSite(blocks0, blocks, region, bands, progress, h, mid, p);
    }
    forall p: Place, q: Place, x | IsPlace(bands, p) && IsPlace(bands, q) && p != q && Touches(bands, ms, lay, p, x)
      ensures !Touches(bands, ms, lay, q, x)
    {
      LaidSite(blocks0, blocks, region, bands, progress, h, mid, p);
      LaidSite(blocks0, blocks, region, bands, progress, h, mid, q);
      GridApart(bands, h.firsts, |blocks0| + 5, mid, p, q);
      GridApart(bands, h.seconds, mid, |blocks|, p, q);
    }
  }

  lemma GridApart(bands: Bands, grid: seq<seq<BlockId>>, lo: nat, hi: nat, p: Place, q: Place)
    requires GridFrom(bands, grid, lo, hi) && |grid| == |bands| && IsPlace(bands, p) && IsPlace(bands, q) && p != q
    ensures grid[p.0][p.1] != grid[q.0][q.1]
  {
  }

  /** The executor's blocks lie above `n`. */
  ghost predicate ScanAbove(bands: Bands, lay: PrioLoop, n: nat)
    requires Fits(bands, lay)
  {
    && n <= lay.init && n <= lay.top && n <= lay.noProgress && n <= lay.stuck
    && (forall i :: 0 <= i < |lay.checks| ==> n <= lay.checks[i])
    && (forall p: Place :: IsPlace(bands, p) ==>
          var st := StopOf(lay, p);
          && n <= st.first && n <= st.second && n <= st.pollFirst && n <= st.pollSecond && n <= st.after && n <= st.ran
          && n <= st.passOn)
  }

  ghost predicate ScanEmitted(blocks0: Blocks, blocks: Blocks, base: nat, region: Region, bands: Bands,
                              ms: seq<Machine>, report: bool, lay: PrioLoop) {
    && ExecutorIn(blocks0, blocks, region, ms, lay.exit, lay.post)
    && ScanShape(blocks, base, bands, ms, report, lay) && ScanAbove(bands, lay, |blocks0|)
  }

  // facts about the body after the stops, then after the end

  lemma StopIsDone(blocks1: Blocks, blocks: Blocks, bands: Bands, ms: seq<Machine>, lay: PrioLoop, l1: nat, locals: nat,
                   p: Place)
    requires Fits(bands, lay) && NoEmptyBand(bands)
             && StopsDone(blocks1, blocks, bands, ms, lay, |bands|, 0, l1, locals)
    requires IsPlace(bands, p)
    ensures StopDone(blocks, bands, ms, lay, p, |blocks1|, l1, locals)
  {
    hide StopDone, Touches, RegionsLeft;
    assert Earlier(p, |bands|, 0);
  }

  /** What no stop touches. */
  lemma Untouched(blocks1: Blocks, blocks: Blocks, bands: Bands, ms: seq<Machine>, lay: PrioLoop, l1: nat, locals: nat,
                  x: BlockId)
    requires Fits(bands, lay) && NoEmptyBand(bands)
             && StopsDone(blocks1, blocks, bands, ms, lay, |bands|, 0, l1, locals)
    requires x < |blocks1| && !IsExit(ms, |ms|, x)
    requires forall p: Place :: IsPlace(bands, p) ==> x != StopOf(lay, p).first && x != StopOf(lay, p).second
    ensures blocks[x] == blocks1[x]
  {
    hide StopDone, RegionsLeft;
    forall p: Place | IsPlace(bands, p)
      ensures !Touches(bands, ms, lay, p, x)
    {
    }
  }

  /** The loop's three stages: its head, its stops, and its end. */
  ghost predicate Stages(blocks0: Blocks, blocksH: Blocks, blocksS: Blocks, blocks: Blocks, region: Region,
                         bands: Bands, ms: seq<Machine>, report: bool, h: Head, mid: nat, lay1: PrioLoop, lay: PrioLoop,
                           l: nat, l2: nat, l3: nat) {
    && |ms| > 0 && NoEmptyBand(bands) && |h.lasts| == |h.sweeps| == |bands|
    && HeadIn(blocks0, blocksH, region, bands, ms[0].progress, h, mid)
    && (forall b :: 0 <= b < |bands| ==> h.lasts[b] == l + b && h.sweeps[b] == l + |bands| + b)
    && (forall b :: 0 <= b < |h.firsts| ==> |h.firsts[b]| == |h.seconds[b]|)
    && Fits(bands, Laid(h)) && Fits(bands, lay1) && Fits(bands, lay)
    && SameSites(bands, Laid(h), lay1) && lay1 == Laid(h).(stops := lay1.stops)
    && StopsDone(blocksH, blocksS, bands, ms, lay1, |bands|, 0, l + 2 * |bands|, l2)
    && lay == lay1.(noProgress := lay.noProgress, stuck := lay.stuck, progressed := lay.progressed,
                    checks := lay.checks, dones := lay.dones)
    && lay.checks[0] == lay1.checks[0]
    && EndIn(blocksS, blocks, ms, report, lay, l2, l3)
  }

  /** Neither stops nor the end touch a block below the first site, exits aside. */
  lemma LowBlocksStay(blocks0: Blocks, blocksH: Blocks, blocksS: Blocks, blocks: Blocks, region: Region, bands: Bands,
                      ms: seq<Machine>, report: bool, h: Head, mid: nat, lay1: PrioLoop, lay: PrioLoop, l: nat, l2: nat,
                        l3: nat, x: BlockId)
    requires Stages(blocks0, blocksH, blocksS, blocks, region, bands, ms, report, h, mid, lay1, lay, l, l2, l3)
    requires x < |blocks0| + 4 && !IsExit(ms, |ms|, x)
    ensures x < |blocksH| <= |blocks| && blocks[x] == blocksH[x]
  {
    hide RegionsLeft, StopsDone, GridFrom, EndShape;
    forall p: Place | IsPlace(bands, p)
      ensures x != StopOf(lay1, p).first && x != StopOf(lay1, p).second
    {
      LaidSite(blocks0, blocksH, region, bands, ms[0].progress, h, mid, p);
    }
    Untouched(blocksH, blocksS, bands, ms, lay1, l + 2 * |bands|, l2, x);
    StopsGrow(blocksH, blocksS, bands, ms, lay1, l + 2 * |bands|, l2);
  }

  lemma StopsGrow(blocks1: Blocks, blocks: Blocks, bands: Bands, ms: seq<Machine>, lay: PrioLoop, l1: nat, locals: nat)
    requires Fits(bands, lay) && NoEmptyBand(bands)
             && StopsDone(blocks1, blocks, bands, ms, lay, |bands|, 0, l1, locals)
    ensures |blocks1| <= |blocks| && l1 <= locals && RegionsLeft(blocks) == RegionsLeft(blocks1)
  {
    hide StopDone, Touches, RegionsLeft;
  }

  /** Each stop is still in place at the end. */
  lemma StopStays(blocks0: Blocks, blocksH: Blocks, blocksS: Blocks, blocks: Blocks, region: Region, bands: Bands,
                  ms: seq<Machine>, report: bool, h: Head, mid: nat, lay1: PrioLoop, lay: PrioLoop, l: nat, l2: nat,
                    l3: nat, p: Place)
    requires Stages(blocks0, blocksH, blocksS, blocks, region, bands, ms, report, h, mid, lay1, lay, l, l2, l3)
    requires IsPlace(bands, p) && ExitsApart(ms, |blocks0|)
    ensures StopDone(blocks, bands, ms, lay, p, |blocks0|, l + 2 * |bands|, l2)
    ensures |blocks0| <= StopOf(lay, p).first && |blocks0| <= StopOf(lay, p).second
  {
    hide RegionsLeft, StopsDone, GridFrom, EndShape, StopShape, HeadIn;
    StopIsDone(blocksH, blocksS, bands, ms, lay1, l + 2 * |bands|, l2, p);
    LaidSite(blocks0, blocksH, region, bands, ms[0].progress, h, mid, p);
    HeadSize(blocks0, blocksH, region, bands, ms[0].progress, h, mid);
    var st, e := StopOf(lay1, p), ms[bands[p.0][p.1]].exit;
    assert lay1.checks[0] == |blocks0| + 4;
    hide SameSites, ExitsApart;
    forall x: nat | x in {st.first, st.second, st.pollFirst, st.pollSecond, st.after, st.ran, st.passOn, e}
      && x < |blocksS|
      ensures blocks[x] == blocksS[x]
    {
    }
    SameLayout(bands, lay1, lay);
    StopShapeKept(blocksS, blocks, bands, lay1, lay, ms[bands[p.0][p.1]], p);
  }

  lemma HeadSize(blocks0: Blocks, blocks: Blocks, region: Region, bands: Bands, progress: LocalId, h: Head, mid: nat)
    requires HeadIn(blocks0, blocks, region, bands, progress, h, mid)
    ensures |blocks0| + 5 <= |blocks| && h.checkDone == |blocks0| + 4 && h.init == |blocks0| + 2
            && h.top == |blocks0| + 3
  {
    hide RegionsLeft, GridFrom;
  }

  lemma SameLayout(bands: Bands, lay: PrioLoop, lay': PrioLoop)
    requires Fits(bands, lay) && Fits(bands, lay') && lay'.stops == lay.stops && lay'.lasts == lay.lasts
             && lay'.sweeps == lay.sweeps
    requires lay'.top == lay.top && lay'.checks[0] == lay.checks[0]
    ensures SameSites(bands, lay, lay')
  {
  }

  lemma ScanLocalsHold(base: nat, bands: Bands, ms: seq<Machine>, lay: PrioLoop, l: nat)
    requires |ms| > 0 && LocalsBelow(ms, l) && base <= l && Fits(bands, lay)
    requires forall b :: 0 <= b < |bands| ==> lay.lasts[b] == l + b && lay.sweeps[b] == l + |bands| + b
    requires l + 2 * |bands| <= lay.progressed && forall i :: 0 <= i < |lay.dones| ==> l + 2 * |bands| <= lay.dones[i]
    requires forall b, k :: 0 <= b < |lay.stops| && 0 <= k < |lay.stops[b]| ==>
               var st := lay.stops[b][k];
               l + 2 * |bands| <= st.doneFirst && l + 2 * |bands| <= st.doneSecond && l + 2 * |bands| <= st.blocked
    ensures ScanLocals(base, ms, lay)
  {
    forall x: nat | l <= x
      ensures Scratch(base, ms, x) && Foreign(ms, x)
    {
    }
    forall x: nat | l + 2 * |bands| <= x
      ensures Temp(base, ms, lay, x)
    {
    }
    hide Temp, Scratch, Foreign, LocalsBelow;
  }

  lemma ScanIsEmitted(blocks0: Blocks, blocksH: Blocks, blocksS: Blocks, blocks: Blocks, base: nat, region: Region,
                      bands: Bands, ms: seq<Machine>, report: bool, h: Head, mid: nat, lay1: PrioLoop, lay: PrioLoop,
                        l: nat, l2: nat, l3: nat)
    requires Stages(blocks0, blocksH, blocksS, blocks, region, bands, ms, report, h, mid, lay1, lay, l, l2, l3)
    requires LocalsBelow(ms, l) && base <= l && ExitsApart(ms, |blocks0|) && forall i :: 0 <= i < |ms| ==>
               ms[i].exit != region.end.0
    ensures ScanEmitted(blocks0, blocks, base, region, bands, ms, report, lay)
  {
    hide RegionsLeft, StopsDone, GridFrom, EndShape, StopShape, StopDone, ScanLocals, LocalsBelow, SameSites, Fits;
    forall x: nat | x < |blocks0| + 4 && !IsExit(ms, |ms|, x)
      ensures x < |blocksH| <= |blocks| && blocks[x] == blocksH[x]
    {
      LowBlocksStay(blocks0, blocksH, blocksS, blocks, region, bands, ms, report, h, mid, lay1, lay, l, l2, l3, x);
    }
    forall x: nat | |blocks0| <= x
      ensures !IsExit(ms, |ms|, x)
    {
    }
    assert !IsExit(ms, |ms|, region.end.0);
    StopsGrow(blocksH, blocksS, bands, ms, lay1, l + 2 * |bands|, l2);
    assert ExecutorIn(blocks0, blocks, region, ms, lay.exit, lay.post);
    ScanIsShaped(blocks0, blocksH, blocksS, blocks, base, region, bands, ms, report, h, mid, lay1, lay, l, l2, l3);
  }

  lemma ScanIsShaped(blocks0: Blocks, blocksH: Blocks, blocksS: Blocks, blocks: Blocks, base: nat, region: Region,
                     bands: Bands, ms: seq<Machine>, report: bool, h: Head, mid: nat, lay1: PrioLoop, lay: PrioLoop,
                       l: nat, l2: nat, l3: nat)
    requires Stages(blocks0, blocksH, blocksS, blocks, region, bands, ms, report, h, mid, lay1, lay, l, l2, l3)
    requires LocalsBelow(ms, l) && base <= l && ExitsApart(ms, |blocks0|)
    requires forall x: nat :: |blocks0| <= x < |blocks0| + 4 ==> x < |blocksH| <= |blocks| && blocks[x] == blocksH[x]
    ensures ScanShape(blocks, base, bands, ms, report, lay) && ScanAbove(bands, lay, |blocks0|)
  {
    hide RegionsLeft, StopsDone, GridFrom, EndShape, StopShape, StopDone, ScanLocals, LocalsBelow;
    forall p: Place | IsPlace(bands, p)
      ensures StopDone(blocks, bands, ms, lay, p, |blocks0|, l + 2 * |bands|, l2)
      ensures |blocks0| <= StopOf(lay, p).first && |blocks0| <= StopOf(lay, p).second
    {
      StopStays(blocks0, blocksH, blocksS, blocks, region, bands, ms, report, h, mid, lay1, lay, l, l2, l3, p);
    }
    StopsGrow(blocksH, blocksS, bands, ms, lay1, l + 2 * |bands|, l2);
    assert IsPlace(bands, (0, 0));
    assert StopOf(lay1, (0, 0)).first == StopOf(Laid(h), (0, 0)).first;
    ShapedFrom(blocks0, blocks, base, bands, ms, report, lay, l, l2);
  }

  lemma ShapedFrom(blocks0: Blocks, blocks: Blocks, base: nat, bands: Bands, ms: seq<Machine>, report: bool,
                   lay: PrioLoop, l: nat, l2: nat)
    requires |ms| > 0 && |bands| > 0 && NoEmptyBand(bands) && Fits(bands, lay) && LocalsBelow(ms, l) && base <= l
    requires forall b :: 0 <= b < |bands| ==> lay.lasts[b] == l + b && lay.sweeps[b] == l + |bands| + b
    requires l + 2 * |bands| <= lay.progressed && forall i :: 0 <= i < |lay.dones| ==> l + 2 * |bands| <= lay.dones[i]
    requires forall p: Place :: IsPlace(bands, p) ==>
               StopDone(blocks, bands, ms, lay, p, |blocks0|, l + 2 * |bands|, l2)
    requires forall p: Place :: IsPlace(bands, p) ==>
               |blocks0| <= StopOf(lay, p).first && |blocks0| <= StopOf(lay, p).second
    requires EndShape(blocks, ms, report, lay)
    requires Is(blocks, lay.init, LastInits(lay.lasts), Goto(lay.top))
    requires Is(blocks, lay.top, [AssignI64(ms[0].progress, 0)], Goto(lay.stops[0][0].first))
    requires |blocks0| <= lay.init && |blocks0| <= lay.top && |blocks0| <= lay.noProgress && |blocks0| <= lay.stuck
    requires forall i :: 0 <= i < |lay.checks| ==> |blocks0| <= lay.checks[i]
    ensures ScanShape(blocks, base, bands, ms, report, lay) && ScanAbove(bands, lay, |blocks0|)
  {
    hide EndShape, StopShape, ScanLocals, LocalsBelow, LastInits;
    forall b: nat, k: nat | IsPlace(bands, (b, k))
      ensures bands[b][k] < |ms| && StopShape(blocks, bands, lay, ms[bands[b][k]], b, k)
      ensures var st := lay.stops[b][k];
              l + 2 * |bands| <= st.doneFirst && l + 2 * |bands| <= st.doneSecond && l + 2 * |bands| <= st.blocked
    {
      var p: Place := (b, k);
      assert StopDone(blocks, bands, ms, lay, p, |blocks0|, l + 2 * |bands|, l2);
    }
    forall b, k | 0 <= b < |lay.stops| && 0 <= k < |lay.stops[b]|
      ensures var st := lay.stops[b][k];
              l + 2 * |bands| <= st.doneFirst && l + 2 * |bands| <= st.doneSecond && l + 2 * |bands| <= st.blocked
    {
      assert IsPlace(bands, (b, k));
    }
    ScanLocalsHold(base, bands, ms, lay, l);
  }

  /** The first check is still empty when the stops are in place. */
  lemma CheckIsBare(blocks0: Blocks, blocksH: Blocks, blocksS: Blocks, region: Region, bands: Bands, ms: seq<Machine>,
                    h: Head, mid: nat, lay1: PrioLoop, l1: nat, l2: nat)
    requires |ms| > 0 && NoEmptyBand(bands) && |h.lasts| == |h.sweeps| == |bands| && ExitsApart(ms, |blocks0|)
    requires HeadIn(blocks0, blocksH, region, bands, ms[0].progress, h, mid)
    requires |h.firsts| == |h.seconds| && forall b :: 0 <= b < |h.firsts| ==> |h.firsts[b]| == |h.seconds[b]|
    requires Fits(bands, Laid(h)) && Fits(bands, lay1) && SameSites(bands, Laid(h), lay1)
             && lay1.checks == [h.checkDone]
    requires StopsDone(blocksH, blocksS, bands, ms, lay1, |bands|, 0, l1, l2)
    ensures lay1.checks[0] < |blocksS| && blocksS[lay1.checks[0]] == BARE
  {
    hide RegionsLeft, StopsDone, GridFrom;
    var x := h.checkDone;
    forall p: Place | IsPlace(bands, p)
      ensures x != StopOf(lay1, p).first && x != StopOf(lay1, p).second
    {
      LaidSite(blocks0, blocksH, region, bands, ms[0].progress, h, mid, p);
    }
    assert !IsExit(ms, |ms|, x);
    Untouched(blocksH, blocksS, bands, ms, lay1, l1, l2, x);
    StopsGrow(blocksH, blocksS, bands, ms, lay1, l1, l2);
  }

  /** The strict-priority loop, up to entering it. */
  method EmitScan(body: Body<Stmt>, region: Region, bands: Bands, ms: seq<Machine>, report: bool, ghost base: nat,
                  ghost lo: nat)
    returns (lay: PrioLoop)
    requires region.end.0 < |body.blocks| && |body.blocks[region.end.0].stmts| > 0
    requires |ms| > 0 && LocalsBelow(ms, body.locals) && base <= body.locals && ExitsApart(ms, |body.blocks|)
    requires forall i :: 0 <= i < |ms| ==> ms[i].exit != region.end.0 && body.blocks[ms[i].exit] == BARE
    requires |bands| > 0 && NoEmptyBand(bands) && MembersOk(bands, |ms|)
    requires AllWithin(ms, lo, |body.blocks|, body.locals) && lo <= |body.blocks|
    modifies body
    ensures ScanEmitted(old(body.blocks), body.blocks, base, region, bands, ms, report, lay)
    ensures Adds(old(body.blocks), body.blocks, lo, lay.post, body.locals) && old(body.locals) <= body.locals
    ensures |old(body.blocks)| <= lay.init < |body.blocks|
  {
    hide HeadIn, SitesReady, StopsDone, SameSites, EndIn, LocalsBelow, RegionsLeft, ScanEmitted, MembersOk, Adds,
         AllWithin, ScanWithin;
    ghost var blocks0, l := body.blocks, body.locals;
    FirstWithin(ms, lo, |blocks0|, l);
    var h, mid := EmitHead(body, region, bands, ms[0].progress);
    ghost var blocksH := body.blocks;
    LaidFits(blocks0, blocksH, region, bands, ms[0].progress, h, mid);
    LaidReady(blocks0, blocksH, region, bands, ms[0].progress, h, mid, ms);
    HeadAdds(blocks0, blocksH, region, bands, ms[0].progress, h, mid, lo, body.locals);
    HeadSize(blocks0, blocksH, region, bands, ms[0].progress, h, mid);
    LaidWithin(blocks0, blocksH, region, bands, ms[0].progress, h, mid, lo, body.locals);
    StillWithin(ms, lo, |blocks0|, l, |blocksH|, body.locals);
    var lay1 := EmitStops(body, bands, ms, Laid(h), lo);
    ghost var blocksS, l2 := body.blocks, body.locals;
    AddsMore(blocks0, blocksH, blocksS, lo, h.post, l + 2 * |bands|, l2);
    StillWithin(ms, lo, |blocks0|, l, |blocksS|, l2);
    CheckIsBare(blocks0, blocksH, blocksS, region, bands, ms, h, mid, lay1, l + 2 * |bands|, l2);
    LaidWays(blocks0, blocksH, region, bands, ms[0].progress, h, mid, lay1);
    lay := EmitEnd(body, ms, report, lay1, lo);
    AddsMore(blocks0, blocksS, body.blocks, lo, h.post, l2, body.locals);
    EndGrows(blocksS, body.blocks, ms, report, lay, l2, body.locals);
    ScanIsEmitted(blocks0, blocksH, blocksS, body.blocks, base, region, bands, ms, report, h, mid, lay1, lay, l, l2,
                  body.locals);
  }

  lemma LaidWithin(blocks0: Blocks, blocks: Blocks, region: Region, bands: Bands, progress: LocalId, h: Head, mid: nat,
                   lo: nat, locals: nat)
    requires HeadIn(blocks0, blocks, region, bands, progress, h, mid) && |h.lasts| == |h.sweeps| == |bands|
             && lo <= |blocks0|
    requires |h.firsts| == |h.seconds| && (forall b :: 0 <= b < |h.firsts| ==> |h.firsts[b]| == |h.seconds[b]|)
             && Fits(bands, Laid(h))
    requires forall b :: 0 <= b < |bands| ==> h.lasts[b] < locals && h.sweeps[b] < locals
    ensures ScanWithin(bands, Laid(h), lo, |blocks|, locals)
  {
    hide RegionsLeft, GridFrom;
    forall p: Place | IsPlace(bands, p)
      ensures lo <= StopOf(Laid(h), p).first < |blocks| && lo <= StopOf(Laid(h), p).second < |blocks|
    {
      LaidSite(blocks0, blocks, region, bands, progress, h, mid, p);
    }
  }

  lemma LaidWays(blocks0: Blocks, blocks: Blocks, region: Region, bands: Bands, progress: LocalId, h: Head, mid: nat,
                 lay: PrioLoop)
    requires HeadIn(blocks0, blocks, region, bands, progress, h, mid) && |h.lasts| == |h.sweeps| == |bands|
    requires |h.firsts| == |h.seconds| && (forall b :: 0 <= b < |h.firsts| ==> |h.firsts[b]| == |h.seconds[b]|)
             && Fits(bands, Laid(h))
    requires lay == Laid(h).(stops := lay.stops)
    ensures |blocks0| <= lay.top < |blocks| && |blocks0| <= lay.exit < |blocks| && |blocks0| <= lay.checks[0]
    ensures |blocks0| <= lay.init < |blocks| && lay.post == h.post
  {
    hide RegionsLeft, GridFrom;
  }

  lemma EndGrows(blocks0: Blocks, blocks: Blocks, ms: seq<Machine>, report: bool, lay: PrioLoop, l1: nat, locals: nat)
    requires EndIn(blocks0, blocks, ms, report, lay, l1, locals)
    ensures |blocks0| <= |blocks|
  {
    hide EndShape, RegionsLeft;
  }
}
