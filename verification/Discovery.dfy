/** Finding regions and suspension points in a body. */
module Discovery {
  // Regions are read off the markers in block order; a coroutine's suspension points are those
  // in the blocks a traversal of its body reaches.

  import opened Options
  import opened Cfg
  import opened Coroutines
  import opened Regions

  // ── Suspension points ────────────────────────────────────────────────

  type Site = (BlockId, nat)

  ghost predicate SuccessorsInRange(blocks: Blocks) {
    forall b :: 0 <= b < |blocks| ==> forall next :: next in Successors(blocks[b].term) ==> next < |blocks|
  }

  /** The statements of block `b` that are looked at: behind the begin marker, before the end. */
  function Looked(blocks: Blocks, co: Coroutine, b: BlockId): (r: (nat, nat))
    requires b < |blocks|
  {
    (if b == co.begin.0 then co.begin.1 + 1 else 0, if b == co.end.0 then co.end.1 else |blocks[b].stmts|)
  }

  /** What `find_suspension_points` is to find. */
  ghost predicate IsSite(blocks: Blocks, co: Coroutine, s: Site) {
    && s.0 < |blocks| && Reachable(blocks, co, s.0)
    && Looked(blocks, co, s.0).0 <= s.1 < Looked(blocks, co, s.0).1 && s.1 < |blocks[s.0].stmts|
    && Suspends(blocks[s.0].stmts[s.1])
  }

  predicate Before(s: Site, t: Site) {
    s.0 < t.0 || (s.0 == t.0 && s.1 < t.1)
  }

  ghost predicate InOrder(sites: seq<Site>) {
    forall i, j :: 0 <= i < j < |sites| ==> Before(sites[i], sites[j])
  }

  /** The first `n` successors of `b` have been seen. */
  ghost predicate Seen(blocks: Blocks, body: set<BlockId>, b: BlockId, n: nat) {
    b < |blocks| && forall i :: 0 <= i < n && i < |Successors(blocks[b].term)| ==> Successors(blocks[b].term)[i] in body
  }

  /** Every block the traversal has not expanded is on the stack; of `part`, the first `done`
      successors have been seen. */
  ghost predicate Expanded(blocks: Blocks, co: Coroutine, body: set<BlockId>, stack: seq<BlockId>, part: int,
                           done: nat) {
    forall b :: b in body && b != co.end.0 && b !in stack && b < |blocks| ==>
      Seen(blocks, body, b, if b == part then done else |Successors(blocks[b].term)|)
  }

  lemma Extend(blocks: Blocks, co: Coroutine, b: BlockId, next: BlockId)
    requires b < |blocks| && Reachable(blocks, co, b) && b != co.end.0
    requires next in Successors(blocks[b].term) && next < |blocks|
    ensures Reachable(blocks, co, next)
  {
    var path :| IsPath(blocks, co.end.0, path) && path[0] == co.begin.0 && path[|path| - 1] == b;
    assert IsPath(blocks, co.end.0, path + [next]);
    assert (path + [next])[0] == co.begin.0;
  }

  /** A set closed under going on from anywhere but the end block holds every path. */
  lemma {:induction false} ClosedHoldsPath(blocks: Blocks, co: Coroutine, body: set<BlockId>, path: seq<BlockId>)
    requires co.begin.0 in body
    requires Expanded(blocks, co, body, [], -1, 0)
    requires IsPath(blocks, co.end.0, path) && path[0] == co.begin.0
    ensures path[|path| - 1] in body
    decreases |path|
  {
    if |path| > 1 {
      var before := path[..|path| - 1];
      assert IsPath(blocks, co.end.0, before);
      ClosedHoldsPath(blocks, co, body, before);
      var b := before[|before| - 1];
      assert Seen(blocks, body, b, |Successors(blocks[b].term)|);
      assert path[|path| - 2] == b && path[|path| - 2 + 1] in Successors(blocks[b].term);
      var i :| 0 <= i < |Successors(blocks[b].term)| && Successors(blocks[b].term)[i] == path[|path| - 1];
    }
  }

  ghost function AllBlocks(n: nat): (r: set<BlockId>)
    ensures forall b: nat :: b in r <==> b < n
  {
    if n == 0 then {} else AllBlocks(n - 1) + {n - 1}
  }

  ghost predicate Traversed(blocks: Blocks, co: Coroutine, body: set<BlockId>, stack: seq<BlockId>, part: int,
                            done: nat) {
    && co.begin.0 in body
    && (forall b :: b in stack ==> b in body)
    && (forall b :: b in body ==> b < |blocks| && Reachable(blocks, co, b))
    && Expanded(blocks, co, body, stack, part, done)
  }

  lemma PopOne(blocks: Blocks, co: Coroutine, body: set<BlockId>, stack: seq<BlockId>)
    requires |stack| > 0 && Traversed(blocks, co, body, stack, -1, 0)
    ensures var bb := stack[|stack| - 1];
            && bb < |blocks| && bb in body
            && Traversed(blocks, co, body, stack[..|stack| - 1], bb, 0)
            && (bb == co.end.0 ==> Traversed(blocks, co, body, stack[..|stack| - 1], -1, 0))
  {
    var bb := stack[|stack| - 1];
    assert bb in stack;
    assert forall b :: b in stack ==> b == bb || b in stack[..|stack| - 1];
    hide Reachable;
  }

  lemma SeeOne(blocks: Blocks, co: Coroutine, body: set<BlockId>, stack: seq<BlockId>, bb: BlockId, i: nat)
    requires SuccessorsInRange(blocks) && bb < |blocks| && bb in body && bb != co.end.0
    requires i < |Successors(blocks[bb].term)| && Traversed(blocks, co, body, stack, bb, i)
    ensures var next := Successors(blocks[bb].term)[i];
            && next < |blocks|
            && if next in body then Traversed(blocks, co, body, stack, bb, i + 1)
               else Traversed(blocks, co, body + {next}, stack + [next], bb, i + 1)
  {
    var next := Successors(blocks[bb].term)[i];
    assert next in Successors(blocks[bb].term);
    Extend(blocks, co, bb, next);
    hide Reachable, IsPath, Seen;
    var body', stack' := if next in body then body else body + {next}, if next in body then stack else stack + [next];
    assert forall b :: b in stack ==> b in stack';
    forall b | b in body' && b != co.end.0 && b !in stack' && b < |blocks|
      ensures Seen(blocks, body', b, if b == bb then i + 1 else |Successors(blocks[b].term)|)
    {
      assert b in body;
      SeeMore(blocks, body, body', b, if b == bb then i else |Successors(blocks[b].term)|, b == bb);
    }
  }

  lemma SeeMore(blocks: Blocks, body: set<BlockId>, body': set<BlockId>, b: BlockId, n: nat, one: bool)
    requires Seen(blocks, body, b, n) && body <= body'
    requires one ==> n < |Successors(blocks[b].term)| && Successors(blocks[b].term)[n] in body'
    ensures Seen(blocks, body', b, if one then n + 1 else n)
  {
  }

  lemma AllSeen(blocks: Blocks, co: Coroutine, body: set<BlockId>, stack: seq<BlockId>, bb: BlockId)
    requires bb < |blocks| && Traversed(blocks, co, body, stack, bb, |Successors(blocks[bb].term)|)
    ensures Traversed(blocks, co, body, stack, -1, 0)
  {
    hide Reachable;
  }

  /** The blocks reachable from the begin marker without passing the end block. */
  method FindBody(blocks: Blocks, co: Coroutine) returns (body: set<BlockId>)
    requires SuccessorsInRange(blocks) && co.begin.0 < |blocks|
    ensures forall b: nat :: b in body <==> b < |blocks| && Reachable(blocks, co, b)
  {
    body := {co.begin.0};
    var stack := [co.begin.0];
    assert IsPath(blocks, co.end.0, [co.begin.0]);
    hide Reachable, IsPath, SuccessorsInRange;
    ghost var all := AllBlocks(|blocks|);
    while |stack| > 0
      invariant Traversed(blocks, co, body, stack, -1, 0)
      decreases all - body, |stack|
    {
      var bb := stack[|stack| - 1];
      PopOne(blocks, co, body, stack);
      ghost var body0, stack0 := body, stack;
      stack := stack[..|stack| - 1];
      if bb != co.end.0 {
        var succ := Successors(blocks[bb].term);
        hide Traversed, Expanded;
        for i := 0 to |succ|
          invariant body0 <= body
          invariant Traversed(blocks, co, body, stack, bb, i)
          invariant body == body0 ==> |stack| < |stack0|
          invariant body != body0 ==> exists b :: b in all && b in body && b !in body0
        {
          SeeOne(blocks, co, body, stack, bb, i);
          if succ[i] !in body {
            body := body + {succ[i]};
            stack := stack + [succ[i]];
          }
        }
        AllSeen(blocks, co, body, stack, bb);
      }
    }
    BodyIsAll(blocks, co, body, stack);
  }

  lemma BodyIsAll(blocks: Blocks, co: Coroutine, body: set<BlockId>, stack: seq<BlockId>)
    requires Traversed(blocks, co, body, stack, -1, 0) && stack == []
    ensures forall b: nat :: b in body <==> b < |blocks| && Reachable(blocks, co, b)
  {
    forall b: nat | b < |blocks| && Reachable(blocks, co, b)
      ensures b in body
    {
      var path :| IsPath(blocks, co.end.0, path) && path[0] == co.begin.0 && path[|path| - 1] == b;
      ClosedHoldsPath(blocks, co, body, path);
    }
  }

  /** The sites before statement `idx` of block `bb`, in order. */
  ghost predicate FoundUpTo(blocks: Blocks, co: Coroutine, sites: seq<Site>, bb: nat, idx: nat) {
    && InOrder(sites)
    && forall s :: s in sites <==> Before(s, (bb, idx)) && IsSite(blocks, co, s)
  }

  lemma LookAtOne(blocks: Blocks, co: Coroutine, sites: seq<Site>, bb: nat, idx: nat)
    requires FoundUpTo(blocks, co, sites, bb, idx)
    ensures FoundUpTo(blocks, co, if IsSite(blocks, co, (bb, idx)) then sites + [(bb, idx)] else sites, bb, idx + 1)
  {
    hide IsSite;
  }

  lemma NextBlock(blocks: Blocks, co: Coroutine, sites: seq<Site>, bb: nat, idx: nat, bb': nat, idx': nat)
    requires FoundUpTo(blocks, co, sites, bb, idx) && !Before((bb', idx'), (bb, idx))
    requires forall s: Site :: !Before(s, (bb, idx)) && Before(s, (bb', idx')) ==> !IsSite(blocks, co, s)
    ensures FoundUpTo(blocks, co, sites, bb', idx')
  {
    hide IsSite;
  }

  /** Every suspension of the coroutine once, in block and then statement order. */
  method FindSuspensionPoints(blocks: Blocks, co: Coroutine) returns (sites: seq<Site>)
    requires SuccessorsInRange(blocks) && co.begin.0 < |blocks|
    requires co.end.0 < |blocks| ==> co.end.1 <= |blocks[co.end.0].stmts|
    ensures InOrder(sites)
    ensures forall s :: s in sites <==> IsSite(blocks, co, s)
  {
    var body := FindBody(blocks, co);
    sites := [];
    // the body in increasing order of block id
    for bb := 0 to |blocks|
      invariant FoundUpTo(blocks, co, sites, bb, 0)
    {
      if bb in body {
        var (first, last) := Looked(blocks, co, bb);
        NextBlock(blocks, co, sites, bb, 0, bb, first);
        var idx := first;
        while idx < last
          invariant first <= idx && (idx <= last || idx == first)
          invariant FoundUpTo(blocks, co, sites, bb, idx)
        {
          LookAtOne(blocks, co, sites, bb, idx);
          if Suspends(blocks[bb].stmts[idx]) {
            sites := sites + [(bb, idx)];
          }
          idx := idx + 1;
        }
        NextBlock(blocks, co, sites, bb, idx, bb + 1, 0);
      } else {
        NextBlock(blocks, co, sites, bb, 0, bb + 1, 0);
      }
    }
  }

  // ── Regions ──────────────────────────────────────────────────────────

  /** A body read statement by statement. */
  type Text = seq<(Site, Stmt)>

  function Line(b: BlockId, stmts: seq<Stmt>): (t: Text)
    ensures |t| == |stmts| && forall i :: 0 <= i < |t| ==> t[i] == ((b, i), stmts[i])
  {
    seq(|stmts|, i requires 0 <= i < |stmts| => ((b, i), stmts[i]))
  }

  function TextOf(blocks: Blocks): Text {
    if |blocks| == 0 then []
    else TextOf(blocks[..|blocks| - 1]) + Line(|blocks| - 1, blocks[|blocks| - 1].stmts)
  }

  /** The variables of the scan. */
  datatype Scan = Scan(
    regions: seq<Region>, region: Option<Site>, coroutines: seq<Coroutine>, begin: Option<Site>, priority: Option<nat>)

  function Visit(s: Scan, at: Site, stmt: Stmt): Scan {
    match stmt
    case RegionBegin => s.(region := Some(at), coroutines := [])
    case RegionEnd =>
      if s.region.Some?
      then s.(regions := s.regions + [Region(s.region.value, at, s.coroutines)], region := None, coroutines := [])
      else s
    case CoroutineBegin(p) => s.(begin := Some(at), priority := p)
    case CoroutineEnd =>
      if s.begin.Some?
      then s.(coroutines := s.coroutines + [Coroutine(s.begin.value, at, s.priority)], begin := None, priority := None)
      else s
    case _ => s
  }

  const NOTHING_YET := Scan([], None, [], None, None)

  function Scanned(text: Text): Scan {
    if |text| == 0 then NOTHING_YET
    else Visit(Scanned(text[..|text| - 1]), text[|text| - 1].0, text[|text| - 1].1)
  }

  function TextUpTo(blocks: Blocks, bb: nat, idx: nat): Text
    requires bb < |blocks| && idx <= |blocks[bb].stmts|
  {
    TextOf(blocks[..bb]) + Line(bb, blocks[bb].stmts[..idx])
  }

  lemma StartLine(blocks: Blocks, bb: nat)
    requires bb < |blocks|
    ensures TextUpTo(blocks, bb, 0) == TextOf(blocks[..bb])
  {
  }

  lemma ReadOne(blocks: Blocks, bb: nat, idx: nat)
    requires bb < |blocks| && idx < |blocks[bb].stmts|
    ensures Scanned(TextUpTo(blocks, bb, idx + 1))
         == Visit(Scanned(TextUpTo(blocks, bb, idx)), (bb, idx), blocks[bb].stmts[idx])
  {
    var text, text' := TextUpTo(blocks, bb, idx), TextUpTo(blocks, bb, idx + 1);
    assert text'[..|text'| - 1] == text && text'[|text'| - 1] == ((bb, idx), blocks[bb].stmts[idx]);
  }

  lemma EndLine(blocks: Blocks, bb: nat)
    requires bb < |blocks|
    ensures TextUpTo(blocks, bb, |blocks[bb].stmts|) == TextOf(blocks[..bb + 1])
  {
    assert blocks[..bb + 1][..bb] == blocks[..bb];
    assert blocks[bb].stmts[..|blocks[bb].stmts|] == blocks[bb].stmts;
  }

  predicate BoundsRegion(s: Stmt) {
    s.RegionBegin? || s.RegionEnd?
  }

  /** A begin marker and the next region marker, if that is an end marker. */
  ghost predicate Pair(text: Text, p: int, q: int) {
    && 0 <= p < q < |text|
    && text[p].1.RegionBegin? && text[q].1.RegionEnd?
    && forall i :: p < i < q ==> !BoundsRegion(text[i].1)
  }

  /** A begin marker that no region marker follows. */
  ghost predicate Open(text: Text, p: int) {
    0 <= p < |text| && text[p].1.RegionBegin? && forall i :: p < i < |text| ==> !BoundsRegion(text[i].1)
  }

  ghost predicate IsPair(text: Text, r: Region) {
    exists p, q :: Pair(text, p, q) && r.begin == text[p].0 && r.end == text[q].0
  }

  ghost predicate Found(regions: seq<Region>, begin: Site, end: Site) {
    exists i :: 0 <= i < |regions| && regions[i].begin == begin && regions[i].end == end
  }

  ghost predicate FoundAll(text: Text, s: Scan) {
    forall p, q :: Pair(text, p, q) ==> Found(s.regions, text[p].0, text[q].0)
  }

  ghost predicate FoundOnly(text: Text, s: Scan) {
    forall i :: 0 <= i < |s.regions| ==> IsPair(text, s.regions[i])
  }

  ghost predicate KnowsOpen(text: Text, s: Scan) {
    && (s.region.Some? ==> exists p :: Open(text, p) && s.region.value == text[p].0)
    && (forall p :: Open(text, p) ==> s.region == Some(text[p].0))
  }

  /** What is found are the innermost regions: exactly the begin markers directly followed by
      an end marker. */
  lemma {:induction false} FindsInnermost(text: Text)
    ensures FoundAll(text, Scanned(text)) && FoundOnly(text, Scanned(text)) && KnowsOpen(text, Scanned(text))
  {
    if |text| > 0 {
      var before := text[..|text| - 1];
      FindsInnermost(before);
      FoundAllStep(text, Scanned(before));
      FoundOnlyStep(text, Scanned(before));
      KnowsOpenStep(text, Scanned(before));
    }
  }

  lemma FoundAllStep(text: Text, s0: Scan)
    requires |text| > 0 && FoundAll(text[..|text| - 1], s0) && KnowsOpen(text[..|text| - 1], s0)
    ensures FoundAll(text, Visit(s0, text[|text| - 1].0, text[|text| - 1].1))
  {
    var n := |text| - 1;
    var before := text[..n];
    var s := Visit(s0, text[n].0, text[n].1);
    forall p, q | Pair(text, p, q)
      ensures Found(s.regions, text[p].0, text[q].0)
    {
      if q < n {
        assert Pair(before, p, q);
        assert Found(s0.regions, before[p].0, before[q].0);
        var i :| 0 <= i < |s0.regions| && s0.regions[i].begin == text[p].0 && s0.regions[i].end == text[q].0;
        assert s.regions[i] == s0.regions[i];
      } else {
        assert Open(before, p);
        assert s.regions[|s0.regions|] == Region(text[p].0, text[q].0, s0.coroutines);
      }
    }
  }

  lemma OldPair(text: Text, r: Region)
    requires |text| > 0 && IsPair(text[..|text| - 1], r)
    ensures IsPair(text, r)
  {
    var before := text[..|text| - 1];
    var p, q :| Pair(before, p, q) && r.begin == before[p].0 && r.end == before[q].0;
    assert Pair(text, p, q);
  }

  lemma NewPair(text: Text, s0: Scan)
    requires |text| > 0 && KnowsOpen(text[..|text| - 1], s0) && s0.region.Some? && text[|text| - 1].1.RegionEnd?
    ensures IsPair(text, Region(s0.region.value, text[|text| - 1].0, s0.coroutines))
  {
    var before := text[..|text| - 1];
    var p :| Open(before, p) && s0.region.value == before[p].0;
    assert Pair(text, p, |text| - 1);
  }

  lemma FoundOnlyStep(text: Text, s0: Scan)
    requires |text| > 0 && FoundOnly(text[..|text| - 1], s0) && KnowsOpen(text[..|text| - 1], s0)
    ensures FoundOnly(text, Visit(s0, text[|text| - 1].0, text[|text| - 1].1))
  {
    hide IsPair, KnowsOpen;
    var n := |text| - 1;
    var s := Visit(s0, text[n].0, text[n].1);
    forall i | 0 <= i < |s.regions|
      ensures IsPair(text, s.regions[i])
    {
      if i < |s0.regions| {
        OldPair(text, s0.regions[i]);
      } else {
        NewPair(text, s0);
      }
    }
  }

  lemma KnowsOpenStep(text: Text, s0: Scan)
    requires |text| > 0 && KnowsOpen(text[..|text| - 1], s0)
    ensures KnowsOpen(text, Visit(s0, text[|text| - 1].0, text[|text| - 1].1))
  {
    var n := |text| - 1;
    var before := text[..n];
    var s := Visit(s0, text[n].0, text[n].1);
    if s.region.Some? {
      if text[n].1.RegionBegin? {
        assert Open(text, n);
      } else {
        var p :| Open(before, p) && s0.region.value == before[p].0;
        assert Open(text, p);
      }
    }
    forall p | Open(text, p)
      ensures s.region == Some(text[p].0)
    {
      if p < n {
        assert Open(before, p);
      }
    }
  }
}
