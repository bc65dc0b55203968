/** The whole transform of one region under the round-robin executor.

First every coroutine's suspensions are listed, before anything is cut. Then the machines are
built one after another in blocks and locals of their own, the loop is emitted behind them,
and the region is finished: markers erased, first block lifted, executor entered. The lemmas
carry what each phase established through the phases that follow it. The result is a body of
the shape that Cooperative simulates, with fewer region markers than the one it came from,
which is what ends the run over regions.
*/
module Transform {
  import opened Cfg
  import opened Coroutines
  import opened Regions
  import opened Machines
  import opened Fleets
  import opened Executors
  import opened Cooperative
  import opened Discovery
  import opened Markers
  import opened Footprint
  import opened Lowering
  import opened Emission
  import opened Finishing
  import opened Assembly
  import opened CoopEmission
  import opened Leavings

  /** Fewer suspensions than the number that marks a finished machine. */
  ghost predicate FewSites(src: Blocks, region: Region) {
    forall i, sites :: 0 <= i < |region.coroutines| && AllSites(src, region.coroutines[i], sites) ==>
        |sites| < DONE_STATE
  }

  lemma SourceInRange(src: Blocks, base: nat)
    requires SourceOk(src, base)
    ensures SuccessorsInRange(src)
  {
  }

  lemma MachineInFacts(src: Blocks, blocks: Blocks, base: nat, co: Coroutine, m: Machine, progress: LocalId, s: Span)
    requires MachineIn(src, blocks, base, co, m, progress, s)
    ensures |src| <= s.lo && m.exit == s.lo + 1 < s.hi <= |blocks| && blocks[m.exit] == BARE && m.progress == progress
    ensures progress < s.locals && m.state < s.locals && m.poll < s.locals && forall t: nat :: Temporary(m, t) ==>
              t < s.locals
  {
    hide MachineShape, BeginsKept;
  }

  /** What the executor may count on. */
  lemma ReadyForLoop(src: Blocks, blocks: Blocks, base: nat, locals: nat, region: Region, ms: seq<Machine>,
                     progress: LocalId, spans: seq<Span>)
    requires MarkersOk(src, region) && BodiesOk(src, region) && |ms| == |region.coroutines|
    requires MachinesIn(src, blocks, base, locals, region, ms, progress, spans)
    ensures region.end.0 < |src| <= |blocks| && blocks[region.end.0] == src[region.end.0]
    ensures |ms| > 0 && LocalsBelow(ms, locals) && base <= locals && ExitsApart(ms, |blocks|)
    ensures forall i :: 0 <= i < |ms| ==>
              |src| <= ms[i].exit && blocks[ms[i].exit] == BARE && ms[i].progress == progress
  {
    hide MachineIn, BodiesOk, RegionsLeft;
    forall i | 0 <= i < |ms|
      ensures |src| <= ms[i].exit < |blocks| && blocks[ms[i].exit] == BARE && ms[i].progress == progress
      ensures ms[i].state < locals && ms[i].poll < locals && ms[i].progress < locals && forall t: nat ::
                Temporary(ms[i], t) ==> t < locals
      ensures spans[i].lo < ms[i].exit < spans[i].hi
    {
      MachineInFacts(src, blocks, base, region.coroutines[i], ms[i], progress, spans[i]);
    }
    EndInNoBody(src, region);
  }

  lemma EndInNoBody(src: Blocks, region: Region)
    requires BodiesOk(src, region)
    ensures InNoBody(src, region, region.end.0)
  {
    hide BodyOf;
  }

  lemma HousedAfterLoop(src: Blocks, blocks: Blocks, out: Blocks, base: nat, region: Region, ms: seq<Machine>,
                        exit: BlockId, post: BlockId, co: Coroutine, m: Machine, progress: LocalId, s: Span)
    requires MachineIn(src, blocks, base, co, m, progress, s) && CoroutineOk(src, region, co)
    requires ExecutorIn(blocks, out, region, ms, exit, post)
    requires region.end.0 < |src|
    requires forall i :: 0 <= i < |ms| ==> ms[i].exit == m.exit || ms[i].exit < s.lo || s.hi <= ms[i].exit
    requires forall i :: 0 <= i < |ms| ==> |src| <= ms[i].exit
    ensures Housed(src, out, base, co, m, progress, s)
    ensures BeginsKept(src, out, co)
  {
    hide MachineShape, CoroutineOk, RegionsLeft, BodyOf;
    CoroutineMarkersOk(src, region, co);
    MachineInFacts(src, blocks, base, co, m, progress, s);
    assert forall b :: b in BodyOf(src, co) ==> b < |src|;
    assert SameWhere(src, blocks, out, co, m, co.begin.0, s.lo, s.hi);
    MachineKept(src, blocks, out, base, co, m, co.begin.0, 0, s.lo, s.hi, s.locals0, s.locals);
  }

  lemma AssembledAfterLoop(src: Blocks, blocks: Blocks, out: Blocks, base: nat, locals: nat, region: Region,
                           ms: seq<Machine>, exit: BlockId, post: BlockId, progress: LocalId, spans: seq<Span>)
    requires MarkersOk(src, region) && BodiesOk(src, region) && |ms| == |region.coroutines|
    requires MachinesIn(src, blocks, base, locals, region, ms, progress, spans)
    requires ExecutorIn(blocks, out, region, ms, exit, post)
    ensures Assembled(src, out, base, locals, region, ms, progress, spans)
    ensures forall i :: 0 <= i < |ms| ==> BeginsKept(src, out, region.coroutines[i])
  {
    hide MachineIn, BodiesOk, RegionsLeft, Housed, BeginsKept, BodyOf;
    ReadyForLoop(src, blocks, base, locals, region, ms, progress, spans);
    forall i | 0 <= i < |ms|
      ensures Housed(src, out, base, region.coroutines[i], ms[i], progress, spans[i])
      ensures BeginsKept(src, out, region.coroutines[i])
    {
      CoroutineIsOk(src, region, i);
      forall k | 0 <= k < |ms|
        ensures ms[k].exit == ms[i].exit || ms[k].exit < spans[i].lo || spans[i].hi <= ms[k].exit
      {
        MachineInFacts(src, blocks, base, region.coroutines[k], ms[k], progress, spans[k]);
      }
      HousedAfterLoop(src, blocks, out, base, region, ms, exit, post, region.coroutines[i], ms[i], progress, spans[i]);
    }
  }

  // ── The loop after finishing ─────────────────────────────────────────

  lemma LoopKept(out: Blocks, out': Blocks, base: nat, ms: seq<Machine>, report: bool, lay: Loop, n: nat, d: BlockId)
    requires LoopShape(out, base, ms, report, lay) && LoopAbove(lay, n) && |out| <= |out'| && d < n
    requires forall i :: 0 <= i < |ms| ==> ms[i].exit != d && ms[i].exit < |out|
    requires forall b: nat :: b < |out| && ((n <= b) || (exists i :: 0 <= i < |ms| && ms[i].exit == b)) ==>
               out'[b] == out[b]
    ensures LoopShape(out', base, ms, report, lay)
  {
    hide LinkLocals, LoopLocal, Foreign, LinkShape;
    forall k | 0 <= k < |ms|
      ensures LinkShape(out', ms[k], lay, lay.links[k], k == 0)
    {
      LinkShapeInRange(out, ms[k], lay, lay.links[k], k == 0);
      LinkShapeKept(out, out', ms[k], lay, lay, lay.links[k], k == 0);
    }
  }

  /** The region's own marker is still the region's marker. */
  lemma RegionMarkerKept(src: Blocks, blocks: Blocks, base: nat, locals: nat, region: Region, ms: seq<Machine>,
                         progress: LocalId, spans: seq<Span>)
    requires MarkersOk(src, region) && BodiesOk(src, region)
    requires Assembled(src, blocks, base, locals, region, ms, progress, spans)
    requires forall i :: 0 <= i < |ms| ==> BeginsKept(src, blocks, region.coroutines[i])
    ensures InRange(blocks, region.begin) && blocks[region.begin.0].stmts[region.begin.1].RegionBegin?
  {
    hide Housed, BodiesOk, BodyOf;
    FirstBlockHead(src, blocks, base, locals, region, ms, progress, spans);
    if InNoBody(src, region, region.begin.0) {
      assert blocks[region.begin.0] == src[region.begin.0];
    } else {
      var i :| 0 <= i < |region.coroutines| && region.begin.0 in BodyOf(src, region.coroutines[i]);
      assert BeginsKept(src, blocks, region.coroutines[i]);
    }
  }

  lemma {:induction false} ErasedRegions(blocks: Blocks, erased: Blocks, sites: seq<Site>)
    requires ErasedAt(blocks, erased, sites)
    ensures RegionsLeft(erased) <= RegionsLeft(blocks)
    ensures (exists s :: s in sites && InRange(blocks, s) && blocks[s.0].stmts[s.1].RegionBegin?) ==>
              RegionsLeft(erased) < RegionsLeft(blocks)
  {
    if |blocks| > 0 {
      var n := |blocks| - 1;
      assert ErasedAt(blocks[..n], erased[..n], sites);
      ErasedRegions(blocks[..n], erased[..n], sites);
      LastErased(blocks, erased, sites);
      ErasedBegins(blocks[n].stmts, erased[n].stmts);
      hide Begins;
      if s :| s in sites && InRange(blocks, s) && blocks[s.0].stmts[s.1].RegionBegin? {
        if s.0 < n {
          assert InRange(blocks[..n], s) && blocks[..n][s.0].stmts[s.1].RegionBegin?;
        } else {
          assert erased[n].stmts[s.1] == Nop;
        }
      }
    }
  }

  lemma LastErased(blocks: Blocks, erased: Blocks, sites: seq<Site>)
    requires ErasedAt(blocks, erased, sites) && |blocks| > 0
    ensures var b, e := blocks[|blocks| - 1].stmts, erased[|blocks| - 1].stmts;
            |b| == |e| && forall i :: 0 <= i < |b| ==> e[i] == b[i] || e[i] == Nop
  {
  }

  lemma {:induction false} ErasedBegins(before: seq<Stmt>, after: seq<Stmt>)
    requires |before| == |after| && forall i :: 0 <= i < |before| ==> after[i] == before[i] || after[i] == Nop
    ensures Begins(after) <= Begins(before)
    ensures (exists i :: 0 <= i < |before| && before[i].RegionBegin? && after[i] == Nop) ==>
              Begins(after) < Begins(before)
  {
    if |before| > 0 {
      ErasedBegins(before[1..], after[1..]);
      if i :| 0 <= i < |before| && before[i].RegionBegin? && after[i] == Nop {
        if i > 0 {
          assert before[1..][i - 1].RegionBegin? && after[1..][i - 1] == Nop;
        }
      }
    }
  }

  lemma LiftedRegions(erased: Blocks, region: Region, ms: seq<Machine>, entry: BlockId)
    requires InRange(erased, region.begin)
    requires |ms| > 0 && ms[0].dispatch < |erased| && ms[0].dispatch != region.begin.0
    ensures RegionsLeft(Lifted(erased, region, ms, entry)) == RegionsLeft(erased)
  {
    hide RegionsLeft;
    var rb, k, d := region.begin.0, region.begin.1 + 1, ms[0].dispatch;
    var stmts := erased[rb].stmts;
    var t := Redirect(erased[d].term, rb, |erased|);
    var wired: Blocks := if SharesFirst(region) then erased[d := erased[d].(term := t)] else erased;
    RegionsTerm(erased, d, t);
    var head: Block<Stmt> := Block(stmts[..k] + Inits(ms), Goto(entry));
    var tail: Block<Stmt> := Block(stmts[k..], erased[rb].term);
    NoBegins(Inits(ms));
    BeginsConcat(stmts[..k], Inits(ms));
    BeginsSplit(stmts, k);
    RegionsRewrite(wired, rb, head, [tail], 0);
  }

  lemma RegionsGoDown(src: Blocks, blocks: Blocks, erased: Blocks, region: Region, ms: seq<Machine>, entry: BlockId)
    requires RegionsLeft(blocks) == RegionsLeft(src) && ErasedAt(blocks, erased, MarkerSites(region))
    requires InRange(blocks, region.begin) && blocks[region.begin.0].stmts[region.begin.1].RegionBegin?
    requires |ms| > 0 && ms[0].dispatch < |erased| && ms[0].dispatch != region.begin.0 && InRange(erased, region.begin)
    ensures RegionsLeft(Lifted(erased, region, ms, entry)) < RegionsLeft(src)
  {
    ErasedRegions(blocks, erased, MarkerSites(region));
    LiftedRegions(erased, region, ms, entry);
    var sites := MarkerSites(region);
    assert sites[|sites| - 2] == region.begin;
  }

  lemma HighBlocksKept(src: Blocks, blocks: Blocks, erased: Blocks, region: Region, ms: seq<Machine>, entry: BlockId)
    requires MarkersOk(src, region) && BodiesOk(src, region)
    requires ErasedAt(blocks, erased, MarkerSites(region)) && InRange(erased, region.begin)
    requires |ms| > 0 && |src| <= ms[0].dispatch < |erased|
    ensures var out := Lifted(erased, region, ms, entry);
            |out| == |blocks| + 1 && forall b: nat :: |src| <= b < |blocks| && b != ms[0].dispatch ==>
                out[b] == blocks[b]
  {
    hide MarkersOk, BodiesOk, MarkerSites, Lifted, ErasedBlock;
    BeginBelow(src, region);
    LiftedBlocks(erased, region, ms, entry);
    forall b: nat | |src| <= b < |blocks| && b != ms[0].dispatch
      ensures Lifted(erased, region, ms, entry)[b] == blocks[b]
    {
      ErasureOf(src, blocks, erased, region, b);
    }
  }

  lemma CoopShapeHolds(src: Blocks, blocks: Blocks, blocks1: Blocks, erased: Blocks, base: nat, locals: nat,
                       region: Region, ms: seq<Machine>, report: bool, lay: Loop, progress: LocalId, spans: seq<Span>)
    requires RegionOk(src, base, region) && |ms| == |region.coroutines|
    requires MachinesIn(src, blocks, base, locals, region, ms, progress, spans)
    requires LoopEmitted(blocks, blocks1, base, region, ms, report, lay)
    requires ErasedAt(blocks1, erased, MarkerSites(region)) && InRange(erased, region.begin)
    ensures |ms| > 0 && ms[0].dispatch < |erased| && ms[0].dispatch != region.begin.0
    ensures CoopShape(src, Lifted(erased, region, ms, lay.top), base, region, report, ms, |blocks1|, lay)
    ensures RegionsLeft(Lifted(erased, region, ms, lay.top)) < RegionsLeft(src)
  {
    hide SourceOk, MarkersOk, BodiesOk, MachinesIn, ExecutorIn, Lifted, Assembled, BeginsKept, LoopShape, FleetOk,
         MarkerSites, RegionsLeft;
    AssembledAfterLoop(src, blocks, blocks1, base, locals, region, ms, lay.exit, lay.post, progress, spans);
    AssembledFleet(src, blocks1, erased, base, locals, region, ms, progress, spans, lay.top);
    FirstDispatch(src, blocks1, erased, base, locals, region, ms, progress, spans);
    AssembledOutside(src, blocks1, erased, base, locals, region, ms, progress, spans, lay.top);
    HighBlocksKept(src, blocks1, erased, region, ms, lay.top);
    LoopAfterFinish(src, blocks, blocks1, Lifted(erased, region, ms, lay.top), base, locals, region, ms, report, lay,
                    progress, spans);
    RegionMarkerKept(src, blocks1, base, locals, region, ms, progress, spans);
    SameRegions(src, blocks, blocks1, base, locals, region, ms, lay.exit, lay.post, progress, spans);
    RegionsGoDown(src, blocks1, erased, region, ms, lay.top);
  }

  lemma FirstDispatch(src: Blocks, blocks: Blocks, erased: Blocks, base: nat, locals: nat, region: Region,
                      ms: seq<Machine>, progress: LocalId, spans: seq<Span>)
    requires Assembled(src, blocks, base, locals, region, ms, progress, spans) && |ms| > 0 && |erased| == |blocks|
    ensures |src| <= ms[0].dispatch < |erased|
  {
    hide Housed;
    HousedAt(src, blocks, base, locals, region, ms, progress, spans, 0);
    HousedDispatch(src, blocks, base, region.coroutines[0], ms[0], progress, spans[0]);
  }

  lemma SameRegions(src: Blocks, blocks: Blocks, blocks1: Blocks, base: nat, locals: nat, region: Region,
                    ms: seq<Machine>, exit: BlockId, post: BlockId, progress: LocalId, spans: seq<Span>)
    requires MachinesIn(src, blocks, base, locals, region, ms, progress, spans)
    requires ExecutorIn(blocks, blocks1, region, ms, exit, post)
    ensures RegionsLeft(blocks1) == RegionsLeft(src)
  {
    hide MachineIn, RegionsLeft;
  }

  lemma LoopAfterFinish(src: Blocks, blocks: Blocks, blocks1: Blocks, out: Blocks, base: nat, locals: nat,
                        region: Region, ms: seq<Machine>, report: bool, lay: Loop, progress: LocalId, spans: seq<Span>)
    requires MarkersOk(src, region) && BodiesOk(src, region) && |ms| == |region.coroutines|
    requires MachinesIn(src, blocks, base, locals, region, ms, progress, spans)
    requires LoopEmitted(blocks, blocks1, base, region, ms, report, lay)
    requires |out| == |blocks1| + 1 && forall b: nat :: |src| <= b < |blocks1| && b != ms[0].dispatch ==>
               out[b] == blocks1[b]
    ensures |ms| > 0 && LoopShape(out, base, ms, report, lay)
    ensures ExitsBy(src, out, region, lay.exit, lay.post)
  {
    hide MachineIn, MarkersOk, BodiesOk, LoopShape, RegionsLeft, LocalsBelow;
    BeginBelow(src, region);
    ReadyForLoop(src, blocks, base, locals, region, ms, progress, spans);
    DispatchBelow(src, blocks, base, locals, region, ms, progress, spans);
    LoopKept(blocks1, out, base, ms, report, lay, |blocks|, ms[0].dispatch);
  }

  lemma DispatchBelow(src: Blocks, blocks: Blocks, base: nat, locals: nat, region: Region, ms: seq<Machine>,
                      progress: LocalId, spans: seq<Span>)
    requires MachinesIn(src, blocks, base, locals, region, ms, progress, spans) && |ms| > 0
    ensures ms[0].dispatch < |blocks|
    ensures forall i :: 0 <= i < |ms| ==> ms[i].exit != ms[0].dispatch && ms[i].exit < |blocks|
  {
    hide MachineShape, RegionsLeft, BeginsKept;
    assert MachineIn(src, blocks, base, region.coroutines[0], ms[0], progress, spans[0]);
    forall i | 0 <= i < |ms|
      ensures ms[i].exit != ms[0].dispatch && ms[i].exit < |blocks|
    {
      assert MachineIn(src, blocks, base, region.coroutines[i], ms[i], progress, spans[i]);
    }
  }

  // ── The transform ────────────────────────────────────────────────────

  method TransformRegion(body: Body<Stmt>, region: Region, report: bool)
    returns (ghost ms: seq<Machine>, ghost lifted: BlockId, ghost lay: Loop)
    requires RegionOk(body.blocks, body.locals, region) && FewSites(body.blocks, region)
    modifies body
    ensures CoopShape(old(body.blocks), body.blocks, old(body.locals), region, report, ms, lifted, lay)
    ensures RegionsLeft(body.blocks) < old(RegionsLeft(body.blocks))
    ensures OwnMarkers(old(body.blocks), region) ==>
              Leaves(old(body.blocks), old(body.locals), region, body.blocks, body.locals, lifted)
  {
    hide SourceOk, MarkersOk, BodiesOk, MachinesIn, ExecutorIn, Lifted, CoopShape, AllSites, SuccessorsInRange,
         MarkerSites, RegionsLeft, AllInRange, LocalsBelow, ExitsApart, Adds, KeptTidy, Leaves, OwnMarkers, AllWithin;
    ghost var src, base := body.blocks, body.locals;
    SourceInRange(src, base);
    StartsTidy(src, base, region, base + 1);
    var sites := FindAllSites(body.blocks, region);
    assert forall i :: 0 <= i < |sites| ==> |sites[i]| < DONE_STATE;
    var progress := body.NewLocal();
    var machines, spans := BuildMachines(body, region, sites, progress, src, base);
    ghost var blocks, locals := body.blocks, body.locals;
    ReadyForLoop(src, blocks, base, locals, region, machines, progress, spans);
    EndNotEmpty(src, region);
    MachinesAreWithin(src, blocks, base, locals, region, machines, progress, spans);
    var loop := EmitLoop(body, region, machines, report, base, |src|);
    ghost var blocks1 := body.blocks;
    AssembledAfterLoop(src, blocks, blocks1, base, locals, region, machines, loop.exit, loop.post, progress, spans);
    MarkersStillThere(src, blocks1, base, locals, region, machines, progress, spans);
    FirstDispatch(src, blocks1, blocks1, base, locals, region, machines, progress, spans);
    BeginBelow(src, region);
    var entry, erased := FinishRegion(body, region, machines, loop.top);
    CoopShapeHolds(src, blocks, blocks1, erased, base, locals, region, machines, report, loop, progress, spans);
    RegionLeaves(src, base, region, blocks, locals, blocks1, body.locals, erased, machines, progress, spans,
                 loop.top, loop.exit, loop.post);
    ms, lifted, lay := machines, entry, loop;
  }

  lemma EndNotEmpty(src: Blocks, region: Region)
    requires MarkersOk(src, region)
    ensures region.end.0 < |src| && |src[region.end.0].stmts| > 0
  {
  }
}
