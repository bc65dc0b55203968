/** All machines of a region, side by side in one body.

Machines are built in the order of their coroutines. Each gets a span of new blocks and a span
of new locals, and rewrites only blocks of its own coroutine's body. As bodies are disjoint,
building the next machine leaves every earlier one as it is, and finds the body of its own
coroutine as it was in the source. These facts are kept from one machine to the next, together
with the number of region markers, which building machines does not change. What an executor
does to the machines' exits comes later.
*/
module Emission {
  import opened Cfg
  import opened Coroutines
  import opened Regions
  import opened Machines
  import opened Discovery
  import opened Markers
  import opened Footprint
  import opened Lowering

  /** The blocks that `m`'s shape speaks of, apart from its exit. */
  ghost predicate Concerns(src: Blocks, co: Coroutine, m: Machine, entry: BlockId, lo: nat, hi: nat, b: BlockId) {
    b != m.exit && (b in BodyOf(src, co) || lo <= b < hi || b == entry)
  }

  ghost predicate SameWhere(src: Blocks, out: Blocks, out': Blocks, co: Coroutine, m: Machine, entry: BlockId, lo: nat,
                            hi: nat) {
    |out| <= |out'| && forall b: nat :: b < |out| && Concerns(src, co, m, entry, lo, hi, b) ==> out'[b] == out[b]
  }

  lemma PlainKept(src: Blocks, out: Blocks, out': Blocks, co: Coroutine, m: Machine, entry: BlockId, start: nat,
                  lo: nat, hi: nat, b: BlockId)
    requires b in BodyOf(src, co) && PlainShape(src, out, co, m, entry, start, b)
    requires |src| <= lo <= m.exit < |out| && entry != m.exit && SameWhere(src, out, out', co, m, entry, lo, hi)
    ensures PlainShape(src, out', co, m, entry, start, b)
  {
    hide BodyOf;
    assert Concerns(src, co, m, entry, lo, hi, HeadOf(co, entry, b));
  }

  lemma CutKept(src: Blocks, out: Blocks, out': Blocks, co: Coroutine, m: Machine, entry: BlockId, start: nat, lo: nat,
                hi: nat, code: int, c: Cut)
    requires c.bb in BodyOf(src, co) && c.bb != m.exit && entry != m.exit && m.exit == lo + 1
    requires CutWithin(c, lo + 2, hi)
    requires CutShape(src[c.bb], FromOf(co, start, c.bb), HeadOf(co, entry, c.bb), out, m, code, c)
    requires SameWhere(src, out, out', co, m, entry, lo, hi)
    ensures CutShape(src[c.bb], FromOf(co, start, c.bb), HeadOf(co, entry, c.bb), out', m, code, c)
  {
    hide BodyOf, CutShape;
    assert Concerns(src, co, m, entry, lo, hi, HeadOf(co, entry, c.bb));
    assert Concerns(src, co, m, entry, lo, hi, c.pause) && Concerns(src, co, m, entry, lo, hi, c.resume);
    assert Concerns(src, co, m, entry, lo, hi, c.blocked) && Concerns(src, co, m, entry, lo, hi, c.guard);
    CutShapeKept(src[c.bb], FromOf(co, start, c.bb), HeadOf(co, entry, c.bb), out, out', m, code, c);
  }

  /** A machine stays what it is while its blocks do. */
  lemma MachineKept(src: Blocks, out: Blocks, out': Blocks, base: nat, co: Coroutine, m: Machine, entry: BlockId,
                    start: nat, lo: nat, hi: nat, locals0: nat, locals: nat)
    requires MachineShape(src, out, base, co, m, entry, start) && MachineWithin(m, lo, hi, locals0, locals)
    requires |src| <= lo && hi <= |out| && entry != m.exit && SameWhere(src, out, out', co, m, entry, lo, hi)
    ensures MachineShape(src, out', base, co, m, entry, start)
  {
    hide BodyOf, CutShape, PlainShape, LocalsOk;
    forall i | 0 <= i < |m.cuts|
      ensures CutShape(src[m.cuts[i].bb], FromOf(co, start, m.cuts[i].bb), HeadOf(co, entry, m.cuts[i].bb), out', m,
                       i + 1, m.cuts[i])
    {
      CutKept(src, out, out', co, m, entry, start, lo, hi, i + 1, m.cuts[i]);
    }
    forall b | b in BodyOf(src, co) && !IsCutAt(m, b)
      ensures PlainShape(src, out', co, m, entry, start, b)
    {
      PlainKept(src, out, out', co, m, entry, start, lo, hi, b);
    }
    assert Concerns(src, co, m, entry, lo, hi, m.done) && Concerns(src, co, m, entry, lo, hi, m.dispatch);
  }

  // ── Machine after machine ────────────────────────────────────────────

  /** Where a machine's blocks and locals lie. */
  datatype Span = Span(lo: nat, hi: nat, locals0: nat, locals: nat)

  ghost predicate MachineIn(src: Blocks, blocks: Blocks, base: nat, co: Coroutine, m: Machine, progress: LocalId,
                            s: Span) {
    && |src| <= s.lo && s.hi <= |blocks| && progress < s.locals0
    && MachineShape(src, blocks, base, co, m, co.begin.0, 0)
    && MachineWithin(m, s.lo, s.hi, s.locals0, s.locals)
    && blocks[m.exit] == Block([], Unreachable) && m.progress == progress
    && BeginsKept(src, blocks, co)
  }

  /** The spans follow one another and end at `n` blocks and `locals` locals. */
  ghost predicate SpansInOrder(spans: seq<Span>, n: nat, locals: nat) {
    && (forall i :: 0 <= i < |spans| ==>
          spans[i].lo <= spans[i].hi <= n && spans[i].locals0 <= spans[i].locals <= locals)
    && (forall i, j :: 0 <= i < j < |spans| ==> spans[i].hi <= spans[j].lo && spans[i].locals <= spans[j].locals0)
  }

  /** The machines of the first `|ms|` coroutines are in place; the rest of `src` is as it was. */
  ghost predicate MachinesIn(src: Blocks, blocks: Blocks, base: nat, locals: nat, region: Region, ms: seq<Machine>,
                             progress: LocalId, spans: seq<Span>) {
    && |ms| == |spans| <= |region.coroutines| && |src| <= |blocks| && base <= progress < locals
    && SpansInOrder(spans, |blocks|, locals)
    && (forall i :: 0 <= i < |ms| ==> MachineIn(src, blocks, base, region.coroutines[i], ms[i], progress, spans[i]))
    && (forall b: nat :: b < |src| && (forall i :: 0 <= i < |ms| ==> b !in BodyOf(src, region.coroutines[i])) ==>
          blocks[b] == src[b])
    && RegionsLeft(blocks) == RegionsLeft(src)
  }

  ghost predicate DisjointBodies(src: Blocks, region: Region) {
    forall i, j :: 0 <= i < |region.coroutines| && 0 <= j < |region.coroutines| && i != j ==>
      BodyOf(src, region.coroutines[i]) !! BodyOf(src, region.coroutines[j])
  }

  lemma MachineInKept(src: Blocks, blocks: Blocks, blocks': Blocks, base: nat, co: Coroutine, m: Machine,
                      progress: LocalId, s: Span)
    requires MachineIn(src, blocks, base, co, m, progress, s) && |blocks| <= |blocks'|
    requires co.begin.0 < |src|
    requires forall b: nat :: b < |blocks| && (b in BodyOf(src, co) || |src| <= b) ==> blocks'[b] == blocks[b]
    ensures MachineIn(src, blocks', base, co, m, progress, s)
  {
    BeginInBody(src, co);
    hide BodyOf, MachineShape;
    MachineKept(src, blocks, blocks', base, co, m, co.begin.0, 0, s.lo, s.hi, s.locals0, s.locals);
  }

  lemma NextMachine(src: Blocks, blocks: Blocks, blocks': Blocks, base: nat, locals: nat, locals': nat, region: Region,
                    ms: seq<Machine>, progress: LocalId, spans: seq<Span>, m: Machine)
    requires MachinesIn(src, blocks, base, locals, region, ms, progress, spans) && |ms| < |region.coroutines|
    requires DisjointBodies(src, region)
    requires forall i :: 0 <= i < |region.coroutines| ==> region.coroutines[i].begin.0 < |src|
    requires Built(src, blocks, blocks', base, locals, locals', region.coroutines[|ms|], m) && m.progress == progress
    ensures MachinesIn(src, blocks', base, locals', region, ms + [m], progress,
                       spans + [Span(|blocks|, |blocks'|, locals, locals')])
  {
    hide BodyOf, MachineShape, MachineWithin, RegionsLeft, BeginsKept;
    var s := Span(|blocks|, |blocks'|, locals, locals');
    var co := region.coroutines[|ms|];
    BuiltSpan(src, blocks, blocks', base, locals, locals', co, m);
    forall i | 0 <= i < |ms|
      ensures MachineIn(src, blocks', base, region.coroutines[i], ms[i], progress, spans[i])
    {
      BodyBelow(src, co);
      assert forall b :: b in BodyOf(src, region.coroutines[i]) ==> b !in BodyOf(src, co);
      MachineInKept(src, blocks, blocks', base, region.coroutines[i], ms[i], progress, spans[i]);
    }
    forall b: nat | b < |src| && (forall i :: 0 <= i < |ms + [m]| ==> b !in BodyOf(src, region.coroutines[i]))
      ensures blocks'[b] == src[b]
    {
      assert b !in BodyOf(src, region.coroutines[|ms|]);
    }
  }

  lemma BodyBelow(src: Blocks, co: Coroutine)
    ensures forall b: nat :: |src| <= b ==> b !in BodyOf(src, co)
  {
  }

  lemma BuiltSpan(src: Blocks, blocks: Blocks, blocks': Blocks, base: nat, locals: nat, locals': nat, co: Coroutine,
                  m: Machine)
    requires Built(src, blocks, blocks', base, locals, locals', co, m) && |src| <= |blocks| && m.progress < locals
    ensures MachineIn(src, blocks', base, co, m, m.progress, Span(|blocks|, |blocks'|, locals, locals'))
    ensures |blocks| <= |blocks'| && locals <= locals'
  {
    hide MachineShape;
  }

  /** The suspension points of every coroutine, found before anything is cut. */
  method FindAllSites(blocks: Blocks, region: Region) returns (sites: seq<seq<Site>>)
    requires SuccessorsInRange(blocks)
    requires BodiesOk(blocks, region)
    ensures |sites| == |region.coroutines|
    ensures forall i :: 0 <= i < |sites| ==> AllSites(blocks, region.coroutines[i], sites[i])
  {
    hide BodiesOk, CoroutineOk, SuccessorsInRange, AllSites, IsSite;
    sites := [];
    for i := 0 to |region.coroutines|
      invariant |sites| == i
      invariant forall k :: 0 <= k < i ==> AllSites(blocks, region.coroutines[k], sites[k])
    {
      CoroutineIsOk(blocks, region, i);
      CoroutineInRange(blocks, region, region.coroutines[i]);
      var s := FindSuspensionPoints(blocks, region.coroutines[i]);
      TheseAreAll(blocks, region.coroutines[i], s);
      sites := sites + [s];
    }
  }

  lemma TheseAreAll(blocks: Blocks, co: Coroutine, sites: seq<Site>)
    requires InOrder(sites) && forall s :: s in sites <==> IsSite(blocks, co, s)
    ensures AllSites(blocks, co, sites)
  {
  }

  lemma CoroutineInRange(blocks: Blocks, region: Region, co: Coroutine)
    requires CoroutineOk(blocks, region, co)
    ensures co.begin.0 < |blocks| && co.end.0 < |blocks| && co.end.1 < |blocks[co.end.0].stmts|
  {
  }

  method BuildMachines(body: Body<Stmt>, region: Region, sites: seq<seq<Site>>, progress: LocalId, ghost src: Blocks,
                       ghost base: nat)
    returns (ms: seq<Machine>, ghost spans: seq<Span>)
    requires body.blocks == src && body.locals == progress + 1 && base == progress
    requires BodiesOk(src, region)
    requires |sites| == |region.coroutines|
    requires forall i :: 0 <= i < |sites| ==> AllSites(src, region.coroutines[i], sites[i]) && |sites[i]| < DONE_STATE
    requires KeptTidy(src, region, body.blocks, body.locals)
    modifies body
    ensures |ms| == |region.coroutines|
    ensures MachinesIn(src, body.blocks, base, body.locals, region, ms, progress, spans)
    ensures KeptTidy(src, region, body.blocks, body.locals)
    ensures |ms| > 0 ==> ms[0].dispatch == |src|
  {
    hide CoroutineOk, AllSites, BodyOf, Built, BodiesOk, MachineIn, BodyIntact, KeptTidy, BelongsTo, MachinesIn,
         DisjointBodies, RegionsLeft;
    ms, spans := [], [];
    BodiesApart(src, region);
    NoMachines(src, base, progress, region);
    for i := 0 to |region.coroutines|
      invariant |ms| == i && (i == 0 ==> body.blocks == src)
      invariant KeptTidy(src, region, body.blocks, body.locals) && (i > 0 ==> ms[0].dispatch == |src|)
      invariant MachinesIn(src, body.blocks, base, body.locals, region, ms, progress, spans)
    {
      NextIntact(src, body.blocks, base, body.locals, region, ms, progress, spans);
      MachinesFit(src, body.blocks, base, body.locals, region, ms, progress, spans);
      CoroutineIsOk(src, region, i);
      CoroutineBelongs(src, region, i);
      ghost var blocks0, locals0 := body.blocks, body.locals;
      var m := BuildStateMachine(body, region.coroutines[i], sites[i], progress, src, base, region);
      NextMachine(src, blocks0, body.blocks, base, locals0, body.locals, region, ms, progress, spans, m);
      BuiltDispatch(src, blocks0, body.blocks, base, locals0, body.locals, region.coroutines[i], m);
      ms := ms + [m];
      spans := spans + [Span(|blocks0|, |body.blocks|, locals0, body.locals)];
    }
  }

  lemma SiteIsLast(src: Blocks, region: Region, co: Coroutine, s: Site)
    requires CoroutineOk(src, region, co) && IsSite(src, co, s)
    ensures s.0 in BodyOf(src, co) && s.0 < |src| && s.1 < |src[s.0].stmts| && s.0 != co.end.0 && s.0 != region.end.0
    ensures s.0 == region.begin.0 ==> region.begin.1 < s.1
    ensures s.0 == co.begin.0 ==> co.begin.1 < s.1
    ensures forall i :: s.1 < i < |src[s.0].stmts| ==> !Suspends(src[s.0].stmts[i])
  {
    SiteFacts(src, region, co, s);
    assert AtMostOneSite(src[s.0].stmts, StartOf(co, s.0));
    hide IsSite, BodyOf;
  }

  /** A suspension of a coroutine has no marker behind it in its block. */
  lemma SiteIsClean(src: Blocks, region: Region, j: nat, s: Site)
    requires BodiesOk(src, region) && j < |region.coroutines| && IsSite(src, region.coroutines[j], s)
             && OwnMarkers(src, region)
    ensures CleanCut(src, region, s)
  {
    hide IsSite, BodiesOk, CoroutineOk, BodyOf;
    var co := region.coroutines[j];
    CoroutineIsOk(src, region, j);
    SiteIsLast(src, region, co, s);
    assert InSomeBody(src, region, s.0);
    forall i | s.1 < i < |src[s.0].stmts|
      ensures !IsMarker(src[s.0].stmts[i])
    {
      if IsMarker(src[s.0].stmts[i]) {
        assert HasMarker(src, s.0, i);
        assert Marks(region, (s.0, i));
        var k :| 0 <= k < |region.coroutines|
          && ((s.0, i) == region.coroutines[k].begin || (s.0, i) == region.coroutines[k].end);
        MarkedBody(src, region, j, k, s);
      }
    }
  }

  /** In a block of one coroutine no other begins or ends. */
  lemma MarkedBody(src: Blocks, region: Region, j: nat, k: nat, s: Site)
    requires BodiesOk(src, region) && j < |region.coroutines| && k < |region.coroutines|
             && s.0 in BodyOf(src, region.coroutines[j])
    ensures s.0 == region.coroutines[k].begin.0 || s.0 == region.coroutines[k].end.0 ==> k == j
  {
    CoroutineIsOk(src, region, k);
    BeginInBody(src, region.coroutines[k]);
    EndInBody(src, region, region.coroutines[k]);
    assert j != k ==> BodyOf(src, region.coroutines[j]) !! BodyOf(src, region.coroutines[k]);
  }

  lemma CoroutineBelongs(src: Blocks, region: Region, j: nat)
    requires BodiesOk(src, region) && j < |region.coroutines|
    ensures BelongsTo(src, region, region.coroutines[j])
    ensures j > 0 ==> region.coroutines[j].begin.0 != region.begin.0
  {
    hide IsSite, CleanCut, OwnMarkers;
    var co := region.coroutines[j];
    CoroutineIsOk(src, region, j);
    BeginInBody(src, co);
    EndInBody(src, region, co);
    assert InSomeBody(src, region, co.begin.0) && InSomeBody(src, region, co.end.0);
    hide CoroutineOk, BodyOf;
    if OwnMarkers(src, region) {
      forall s | IsSite(src, co, s)
        ensures CleanCut(src, region, s)
      {
        SiteIsClean(src, region, j, s);
      }
    }
  }

  lemma NoMachines(src: Blocks, base: nat, progress: LocalId, region: Region)
    requires base <= progress
    ensures MachinesIn(src, src, base, progress + 1, region, [], progress, [])
  {
    hide RegionsLeft;
  }

  lemma MachinesFit(src: Blocks, blocks: Blocks, base: nat, locals: nat, region: Region, ms: seq<Machine>,
                    progress: LocalId, spans: seq<Span>)
    requires MachinesIn(src, blocks, base, locals, region, ms, progress, spans)
    ensures |ms| == |spans| && |src| <= |blocks| && base <= progress < locals
  {
    hide MachineIn, RegionsLeft;
  }

  lemma BuiltDispatch(src: Blocks, blocks0: Blocks, blocks: Blocks, base: nat, locals0: nat, locals: nat, co: Coroutine,
                      m: Machine)
    requires Built(src, blocks0, blocks, base, locals0, locals, co, m)
    ensures m.dispatch == |blocks0|
  {
    hide MachineShape, BeginsKept, RegionsLeft;
  }

  lemma CoroutineIsOk(src: Blocks, region: Region, i: nat)
    requires BodiesOk(src, region) && i < |region.coroutines|
    ensures CoroutineOk(src, region, region.coroutines[i])
  {
    hide CoroutineOk;
  }

  lemma BodiesApart(src: Blocks, region: Region)
    requires BodiesOk(src, region)
    ensures DisjointBodies(src, region)
    ensures forall i :: 0 <= i < |region.coroutines| ==> region.coroutines[i].begin.0 < |src|
  {
    hide BodyOf;
  }

  lemma NextIntact(src: Blocks, blocks: Blocks, base: nat, locals: nat, region: Region, ms: seq<Machine>,
                   progress: LocalId, spans: seq<Span>)
    requires MachinesIn(src, blocks, base, locals, region, ms, progress, spans) && |ms| < |region.coroutines|
    requires DisjointBodies(src, region)
    ensures BodyIntact(src, blocks, region.coroutines[|ms|])
  {
    hide MachineIn, RegionsLeft;
    var co := region.coroutines[|ms|];
    forall b | b in BodyOf(src, co)
      ensures blocks[b] == src[b]
    {
      forall i | 0 <= i < |ms|
        ensures b !in BodyOf(src, region.coroutines[i])
      {
        assert BodyOf(src, region.coroutines[i]) !! BodyOf(src, co);
      }
    }
  }
}
