/** Sends of a region inside a coroutine. */
module Resends {
  // A lowered region keeps its sends where they were, and a send is what the search takes for a
  // suspension. So in a later round the coroutine around the region is cut at each of them as well,
  // and at nothing else of what the region's coroutines did.

  import opened Cfg
  import opened Coroutines
  import opened Regions
  import opened Footprint
  import opened Machines
  import opened Fleets
  import opened Executors
  import opened Priority
  import opened Cooperative
  import opened PriorityLoop
  import opened OneShot
  import opened OneShotEmission
  import opened Outline
  import opened Nesting
  import opened Rounds

  predicate IsSend(blocks: Blocks, b: BlockId, i: nat) {
    b < |blocks| && i < |blocks[b].stmts| && blocks[b].stmts[i].ProducingSend?
  }

  predicate SuspendsAt(blocks: Blocks, b: BlockId, i: nat) {
    b < |blocks| && i < |blocks[b].stmts| && Suspends(blocks[b].stmts[i])
  }

  /** `out[h]` suspends at the sends of `src[b]` from statement `from` on, and nowhere else. */
  ghost predicate KeepsSends(src: Blocks, b: BlockId, from: nat, out: Blocks, h: BlockId) {
    forall i: nat ::
      && (SuspendsAt(out, h, i) <==> IsSend(src, b, from + i))
      && (IsSend(src, b, from + i) ==> out[h].stmts[i] == src[b].stmts[from + i])
  }

  /** The head of a cut block: it ends at a send, or has no suspension left. */
  lemma CutKeepsSends(src: Blocks, b: BlockId, from: nat, out: Blocks, h: BlockId, m: Machine, code: int, c: Cut)
    requires b < |src| && CutShape(src[b], from, h, out, m, code, c) && AtMostOneSite(src[b].stmts, from)
    ensures KeepsSends(src, b, from, out, h)
  {
    var a := if src[b].stmts[c.idx].GuardedRecv? then src[b].stmts[from..c.idx] else src[b].stmts[from..c.idx + 1];
    forall i: nat
      ensures SuspendsAt(out, h, i) <==> IsSend(src, b, from + i)
      ensures IsSend(src, b, from + i) ==> out[h].stmts[i] == src[b].stmts[from + i]
    {
      assert i < |a| ==> a[i] == src[b].stmts[from + i];
    }
  }

  lemma PlainKeepsSends(src: Blocks, out: Blocks, co: Coroutine, m: Machine, entry: BlockId, b: BlockId)
    requires b < |src| && PlainShape(src, out, co, m, entry, co.begin.1, b)
    ensures KeepsSends(src, b, FromOf(co, co.begin.1, b), out, HeadOf(co, entry, b))
  {
    var from, h := FromOf(co, co.begin.1, b), HeadOf(co, entry, b);
    forall i: nat
      ensures !SuspendsAt(out, h, i) && !IsSend(src, b, from + i)
    {
      assert i < |out[h].stmts| ==> src[b].stmts[from..][i] == src[b].stmts[from + i];
    }
  }

  lemma MachineKeepsSends(src: Blocks, out: Blocks, base: nat, region: Region, co: Coroutine, m: Machine,
                          entry: BlockId, b: BlockId)
    requires Lowered(src, out, base, region, co, m, entry) && b in BodyOf(src, co)
    ensures KeepsSends(src, b, FromOf(co, co.begin.1, b), out, HeadOf(co, entry, b))
  {
    hide KeepsSends, CutShape, PlainShape, BodyOf;
    if IsCutAt(m, b) {
      var i :| 0 <= i < |m.cuts| && m.cuts[i].bb == b;
      CutKeepsSends(src, b, FromOf(co, co.begin.1, b), out, HeadOf(co, entry, b), m, i + 1, m.cuts[i]);
    } else {
      PlainKeepsSends(src, out, co, m, entry, b);
    }
  }
  // ── In a round ───────────────────────────────────────────────────────

  /** The machine fixes how the head of a block ends. */
  lemma HeadsAgree(src: Blocks, out: Blocks, out': Blocks, base: nat, region: Region, co: Coroutine, m: Machine,
                   entry: BlockId, b: BlockId)
    requires Lowered(src, out, base, region, co, m, entry) && Lowered(src, out', base, region, co, m, entry)
    requires b in BodyOf(src, co)
    ensures var h := HeadOf(co, entry, b); h < |out| && h < |out'| && out[h].term == out'[h].term
  {
    hide BodyOf;
    if IsCutAt(m, b) {
      var i :| 0 <= i < |m.cuts| && m.cuts[i].bb == b;
      var from, h := FromOf(co, co.begin.1, b), HeadOf(co, entry, b);
      assert CutShape(src[b], from, h, out, m, i + 1, m.cuts[i])
             && CutShape(src[b], from, h, out', m, i + 1, m.cuts[i]);
    } else {
      assert PlainShape(src, out, co, m, entry, co.begin.1, b) && PlainShape(src, out', co, m, entry, co.begin.1, b);
    }
  }

  lemma FleetKeepsSends(src: Blocks, out: Blocks, base: nat, region: Region, ms: seq<Machine>, lifted: BlockId, k: nat,
                        b: BlockId)
    requires FleetOk(src, out, base, region, ms, lifted) && k < |region.coroutines|
    requires b in BodyOf(src, region.coroutines[k])
    ensures var co := region.coroutines[k];
            KeepsSends(src, b, FromOf(co, co.begin.1, b), out, HeadOf(co, EntryOf(region, co, lifted), b))
  {
    hide KeepsSends, MachineShape, CoroutineOk, BodyOf;
    var co := region.coroutines[k];
    MachineKeepsSends(src, out, base, region, co, ms[k], EntryOf(region, co, lifted), b);
  }

  lemma SameHead(src: Blocks, b: BlockId, from: nat, out: Blocks, out': Blocks, h: BlockId)
    requires KeepsSends(src, b, from, out, h) && h < |out| && h < |out'| && out[h] == out'[h]
    ensures KeepsSends(src, b, from, out', h)
  {
    forall i: nat
      ensures SuspendsAt(out', h, i) <==> IsSend(src, b, from + i)
      ensures IsSend(src, b, from + i) ==> out'[h].stmts[i] == src[b].stmts[from + i]
    {
      assert SuspendsAt(out, h, i) <==> IsSend(src, b, from + i);
    }
  }

  /** What the host puts into the pending block is nothing to the machines. */
  lemma ShotKeepsSends(src: Blocks, out: Blocks, base: nat, region: Region, ms: seq<Machine>, lifted: BlockId,
                       lay: Shot, k: nat, b: BlockId)
    requires OneShotMade(src, out, base, region, ms, lifted, lay) && k < |region.coroutines|
    requires b in BodyOf(src, region.coroutines[k])
    ensures var co := region.coroutines[k];
            KeepsSends(src, b, FromOf(co, co.begin.1, b), out, HeadOf(co, EntryOf(region, co, lifted), b))
  {
    hide MachineShape, CoroutineOk, BodyOf, VisitsShape, KeepsOutside, EntersAt, ExitsBy;
    var co := region.coroutines[k];
    var x, y := Waiting(out, lay, Return), Waiting(out, lay, Goto(0));
    assert ShotShape(src, x, base, region, Return, ms, lifted, lay);
    assert ShotShape(src, y, base, region, Goto(0), ms, lifted, lay);
    FleetKeepsSends(src, x, base, region, ms, lifted, k, b);
    var entry := EntryOf(region, co, lifted);
    assert Lowered(src, x, base, region, co, ms[k], entry) && Lowered(src, y, base, region, co, ms[k], entry);
    HeadsAgree(src, x, y, base, region, co, ms[k], entry, b);
    assert HeadOf(co, entry, b) != lay.pending;
    SameHead(src, b, FromOf(co, co.begin.1, b), x, out, HeadOf(co, entry, b));
  }

  /** Whichever executor drives them. */
  lemma RoundKeepsSends(src: Blocks, base: nat, region: Region, how: Strategy, out: Blocks, locals: nat)
    returns (lifted: BlockId)
    requires Transformed(src, base, region, how, out, locals) && OwnMarkers(src, region)
    ensures |src| <= lifted < |out|
    ensures forall k, b :: 0 <= k < |region.coroutines| && b in BodyOf(src, region.coroutines[k]) ==>
              var co := region.coroutines[k];
              KeepsSends(src, b, FromOf(co, co.begin.1, b), out, HeadOf(co, EntryOf(region, co, lifted), b))
  {
    hide OneShotMade, FleetOk, LoopShape, ScanShape, KeepsOutside, EntersAt, ExitsBy, BandsOk, KeepsSends, BodyOf,
         OwnMarkers;
    if how.Waker? {
      var ms, l, lay :| OneShotMade(src, out, base, region, ms, l, lay) && LeftBy(src, base, region, out, locals, l);
      lifted := l;
      forall k: nat, b | k < |region.coroutines| && b in BodyOf(src, region.coroutines[k])
        ensures var co := region.coroutines[k];
                KeepsSends(src, b, FromOf(co, co.begin.1, b), out, HeadOf(co, EntryOf(region, co, lifted), b))
      {
        ShotKeepsSends(src, out, base, region, ms, lifted, lay, k, b);
      }
    } else {
      ghost var ms, l := LoopedFleet(src, base, region, how, out, locals);
      lifted := l;
      forall k: nat, b | k < |region.coroutines| && b in BodyOf(src, region.coroutines[k])
        ensures var co := region.coroutines[k];
                KeepsSends(src, b, FromOf(co, co.begin.1, b), out, HeadOf(co, EntryOf(region, co, lifted), b))
      {
        FleetKeepsSends(src, out, base, region, ms, lifted, k, b);
      }
    }
  }

  lemma LoopedFleet(src: Blocks, base: nat, region: Region, how: Strategy, out: Blocks, locals: nat)
    returns (ms: seq<Machine>, lifted: BlockId)
    requires Transformed(src, base, region, how, out, locals) && how.Looping?
    ensures FleetOk(src, out, base, region, ms, lifted) && LeftBy(src, base, region, out, locals, lifted)
  {
    hide FleetOk, LoopShape, ScanShape, KeepsOutside, EntersAt, ExitsBy, BandsOk, LeftBy;
    if HasPriorities(region) {
      var bands, ms', l, lay :|
        PrioShape(src, out, base, region, bands, how.report, ms', l, lay) && LeftBy(src, base, region, out, locals, l);
      ms, lifted := ms', l;
    } else {
      var ms', l, lay :|
        CoopShape(src, out, base, region, how.report, ms', l, lay) && LeftBy(src, base, region, out, locals, l);
      ms, lifted := ms', l;
    }
  }

  /** In a round that lowers a region inside coroutine `j` of `u`, what block `b` of one of its
      coroutines did begins in block `h`, which is `b` itself unless that is the region's first.
      There `u`'s coroutine now suspends at the sends of `b`, and only at those: the yields and
      the guards are gone. */
  lemma SendsSuspendAgain(s: Stage, t: Stage, how: Strategy, plan: Plan, u: Region, j: nat, k: nat, b: BlockId)
    returns (h: BlockId)
    requires Nested(s.0, s.1, plan) && IsRound(s, t, how)
    requires u in plan && u != NextRegion(s.0).value && InsidePart(NextRegion(s.0).value, u, j)
    requires k < |NextRegion(s.0).value.coroutines| && b in BodyOf(s.0, NextRegion(s.0).value.coroutines[k])
    ensures var r := NextRegion(s.0).value;
            var from := FromOf(r.coroutines[k], r.coroutines[k].begin.1, b);
            var left := Remaining(plan, r, |s.0|, |t.0|);
            && (if b == r.begin.0 then |s.0| <= h < |t.0| else h == b)
            && u in left && j < |left[u]|
            && (forall i: nat :: (h, i) in SitesIn(t.0, u.coroutines[j], left[u][j]) <==> IsSend(s.0, b, from + i))
            && (forall i: nat :: from <= i && IsSend(s.0, b, i) ==> HasStmt(t.0, h, i - from, s.0[b].stmts[i]))
  {
    hide BodyOf, OwnMarkers, Transformed, Welcome, NextRegion, Innermost, SourceOk, Outlined, Sound, Related, Grown;
    var r := NextRegion(s.0).value;
    var co := r.coroutines[k];
    NextIsInnermost(s.0, s.1, plan);
    InnermostOwnsMarkers(s.0, s.1, plan, r);
    var lifted := RoundKeepsSends(s.0, s.1, r, how, t.0, t.1);
    h := HeadOf(co, EntryOf(r, co, lifted), b);
    HeadOnGround(s, t, plan, r, lifted, u, j, k, b);
    var from := FromOf(co, co.begin.1, b);
    SitesAre(t.0, u.coroutines[j], Remaining(plan, r, |s.0|, |t.0|)[u][j], h);
    assert KeepsSends(s.0, b, from, t.0, h);
    var left := Remaining(plan, r, |s.0|, |t.0|);
    assert u in left && j < |left[u]|;
    forall i: nat | from <= i && IsSend(s.0, b, i)
      ensures HasStmt(t.0, h, i - from, s.0[b].stmts[i])
    {
      assert IsSend(s.0, b, from + (i - from)) && SuspendsAt(t.0, h, i - from);
    }
    forall i: nat
      ensures (h, i) in SitesIn(t.0, u.coroutines[j], left[u][j]) <==> IsSend(s.0, b, from + i)
    {
      assert (h, i) in SitesIn(t.0, u.coroutines[j], left[u][j]) <==> SuspendsAt(t.0, h, i);
    }
  }

  lemma SitesAre(blocks: Blocks, co: Coroutine, ground: set<BlockId>, h: BlockId)
    requires h in ground && StartOf(co, h) == 0
    ensures forall i: nat :: (h, i) in SitesIn(blocks, co, ground) <==> SuspendsAt(blocks, h, i)
  {
  }

  /** The head of the block is on the ground of the coroutine around the region. */
  lemma HeadOnGround(s: Stage, t: Stage, plan: Plan, r: Region, lifted: BlockId, u: Region, j: nat, k: nat, b: BlockId)
    requires Nested(s.0, s.1, plan) && Innermost(plan.Keys, r)
    requires |s.0| <= lifted < |t.0|
    requires u in plan && u != r && InsidePart(r, u, j)
    requires k < |r.coroutines| && b in BodyOf(s.0, r.coroutines[k])
    ensures var h := HeadOf(r.coroutines[k], EntryOf(r, r.coroutines[k], lifted), b);
            var left := Remaining(plan, r, |s.0|, |t.0|);
            && u in left && j < |left[u]|
            && (if b == r.begin.0 then h == lifted else h == b)
            && h in left[u][j] && StartOf(u.coroutines[j], h) == 0
  {
    hide BodyOf, SourceOk, Outlined, EnteredAtBegin, Closed, OneSiteEach;
    var co := r.coroutines[k];
    assert Sound(s.0, r, plan[r]) && Sound(s.0, u, plan[u]);
    assert Grounded(s.0, r, co, plan[r][k]) && Grounded(s.0, u, u.coroutines[j], plan[u][j]);
    BodyOnGround(s.0, r, co, plan[r][k]);
    assert Covers(r, plan[r], b) && Covers(r, plan[r], r.begin.0);
    assert Related(r, plan[r], u, plan[u]) && Related(u, plan[u], r, plan[r]);
    assert BlocksWithin(r, plan[r], u, plan[u], j);
    assert Marks(u, u.coroutines[j].begin);
    assert !InsideOf(u, r);
    assert KeepsClear(u, r, plan[r]);
    assert b == u.coroutines[j].begin.0 ==> b == r.begin.0;
  }
}
