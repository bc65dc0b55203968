/** The whole transform of one region under the strict-priority executor.

It differs from the round-robin transform in the executor alone: coroutines are sorted into
bands, and the scan takes the place of the loop. What the machines are, and what finishing a
region does to them, is shared with the module Transform. The scan's own blocks are newer
than every machine's, and finishing touches none of them, so the scan that was emitted is the
scan that is there in the end. The result is a body of the shape that PriorityLoop simulates,
with fewer region markers than the one it came from.
*/
module PriorityTransform {
  import opened Cfg
  import opened Coroutines
  import opened Regions
  import opened Machines
  import opened Fleets
  import opened Executors
  import opened Priority
  import opened PriorityRuns
  import opened PriorityLoop
  import opened Discovery
  import opened Markers
  import opened Footprint
  import opened Lowering
  import opened Emission
  import opened Finishing
  import opened Assembly
  import opened PriorityEmission
  import opened Leavings
  import opened Transform

  /** The scan survives whatever leaves its blocks and the machines' exits alone. */
  lemma ScanKept(out: Blocks, out': Blocks, base: nat, bands: Bands, ms: seq<Machine>, report: bool, lay: PrioLoop,
                 n: nat)
    requires ScanShape(out, base, bands, ms, report, lay) && ScanAbove(bands, lay, n) && |out| <= |out'|
    requires forall b: nat :: b < |out| && ((n <= b) || IsExit(ms, |ms|, b)) ==> out'[b] == out[b]
    ensures ScanShape(out', base, bands, ms, report, lay)
  {
    hide ScanLocals, StopShape, EndShape, LastInits;
    forall b: nat, k: nat | IsPlace(bands, (b, k))
      ensures bands[b][k] < |ms| && StopShape(out', bands, lay, ms[bands[b][k]], b, k)
    {
      StopKept(out, out', base, bands, ms, report, lay, n, (b, k));
    }
    EndKept(out, out', ms, report, lay, n);
  }

  lemma StopKept(out: Blocks, out': Blocks, base: nat, bands: Bands, ms: seq<Machine>, report: bool, lay: PrioLoop,
                 n: nat, p: Place)
    requires ScanShape(out, base, bands, ms, report, lay) && ScanAbove(bands, lay, n) && |out| <= |out'|
             && IsPlace(bands, p)
    requires forall b: nat :: b < |out| && ((n <= b) || IsExit(ms, |ms|, b)) ==> out'[b] == out[b]
    ensures bands[p.0][p.1] < |ms| && StopShape(out', bands, lay, ms[bands[p.0][p.1]], p.0, p.1)
  {
    hide ScanLocals, StopShape, EndShape, LastInits;
    assert IsPlace(bands, (p.0, p.1));
    var m := ms[bands[p.0][p.1]];
    assert IsExit(ms, |ms|, m.exit);
    SameLayout(bands, lay, lay);
    StopShapeKept(out, out', bands, lay, lay, m, p);
  }

  lemma EndKept(out: Blocks, out': Blocks, ms: seq<Machine>, report: bool, lay: PrioLoop, n: nat)
    requires |ms| > 0 && EndShape(out, ms, report, lay) && |out| <= |out'| && n <= lay.noProgress && n <= lay.stuck
    requires forall i :: 0 <= i < |lay.checks| ==> n <= lay.checks[i]
    requires forall b: nat :: n <= b < |out| ==> out'[b] == out[b]
    ensures EndShape(out', ms, report, lay)
  {
    assert lay.checks[|ms|] < |out|;
    forall i | 0 <= i < |ms|
      ensures Is(out', lay.checks[i], [EqCheck(lay.dones[i], ms[i].state, DONE_STATE)],
                 Branch(lay.dones[i], lay.checks[i + 1], lay.noProgress))
    {
      assert Is(out, lay.checks[i], [EqCheck(lay.dones[i], ms[i].state, DONE_STATE)],
                Branch(lay.dones[i], lay.checks[i + 1], lay.noProgress));
    }
  }

  lemma ScanAfterFinish(src: Blocks, blocks: Blocks, blocks1: Blocks, out: Blocks, base: nat, locals: nat,
                        region: Region, bands: Bands, ms: seq<Machine>, report: bool, lay: PrioLoop, progress: LocalId,
                          spans: seq<Span>)
    requires MarkersOk(src, region) && BodiesOk(src, region) && |ms| == |region.coroutines|
    requires MachinesIn(src, blocks, base, locals, region, ms, progress, spans)
    requires ScanEmitted(blocks, blocks1, base, region, bands, ms, report, lay)
    requires |out| == |blocks1| + 1 && forall b: nat :: |src| <= b < |blocks1| && b != ms[0].dispatch ==>
               out[b] == blocks1[b]
    ensures |ms| > 0 && ScanShape(out, base, bands, ms, report, lay)
    ensures ExitsBy(src, out, region, lay.exit, lay.post)
  {
    hide MachineIn, MarkersOk, BodiesOk, ScanShape, RegionsLeft, LocalsBelow;
    BeginBelow(src, region);
    ReadyForLoop(src, blocks, base, locals, region, ms, progress, spans);
    DispatchBelow(src, blocks, base, locals, region, ms, progress, spans);
    ScanFits(blocks1, base, bands, ms, report, lay);
    ScanKept(blocks1, out, base, bands, ms, report, lay, |blocks|);
  }

  lemma ScanFits(out: Blocks, base: nat, bands: Bands, ms: seq<Machine>, report: bool, lay: PrioLoop)
    requires ScanShape(out, base, bands, ms, report, lay)
    ensures Fits(bands, lay)
  {
    hide ScanLocals, StopShape, EndShape, LastInits;
  }

  lemma PrioShapeHolds(src: Blocks, blocks: Blocks, blocks1: Blocks, erased: Blocks, base: nat, locals: nat,
                       region: Region, bands: Bands, ms: seq<Machine>, report: bool, lay: PrioLoop, progress: LocalId,
                         spans: seq<Span>)
    requires RegionOk(src, base, region) && |ms| == |region.coroutines| && BandsOk(region, bands)
    requires MachinesIn(src, blocks, base, locals, region, ms, progress, spans)
    requires ScanEmitted(blocks, blocks1, base, region, bands, ms, report, lay)
    requires ErasedAt(blocks1, erased, MarkerSites(region)) && InRange(erased, region.begin)
    ensures |ms| > 0 && ms[0].dispatch < |erased| && ms[0].dispatch != region.begin.0
    ensures PrioShape(src, Lifted(erased, region, ms, lay.init), base, region, bands, report, ms, |blocks1|, lay)
    ensures RegionsLeft(Lifted(erased, region, ms, lay.init)) < RegionsLeft(src)
  {
    hide SourceOk, MarkersOk, BodiesOk, MachinesIn, ExecutorIn, Lifted, Assembled, BeginsKept, ScanShape, ScanAbove,
         FleetOk, MarkerSites, RegionsLeft, BandsOk;
    ScanFits(blocks1, base, bands, ms, report, lay);
    AssembledAfterLoop(src, blocks, blocks1, base, locals, region, ms, lay.exit, lay.post, progress, spans);
    AssembledFleet(src, blocks1, erased, base, locals, region, ms, progress, spans, lay.init);
    FirstDispatch(src, blocks1, erased, base, locals, region, ms, progress, spans);
    AssembledOutside(src, blocks1, erased, base, locals, region, ms, progress, spans, lay.init);
    HighBlocksKept(src, blocks1, erased, region, ms, lay.init);
    ScanAfterFinish(src, blocks, blocks1, Lifted(erased, region, ms, lay.init), base, locals, region, bands, ms, report,
                    lay, progress, spans);
    RegionMarkerKept(src, blocks1, base, locals, region, ms, progress, spans);
    SameRegions(src, blocks, blocks1, base, locals, region, ms, lay.exit, lay.post, progress, spans);
    RegionsGoDown(src, blocks1, erased, region, ms, lay.init);
  }

  /** One region with priorities, from discovery to the finished scan. */
  method TransformByPriority(body: Body<Stmt>, region: Region, report: bool)
    returns (ghost bands: Bands, ghost ms: seq<Machine>, ghost lifted: BlockId, ghost lay: PrioLoop)
    requires RegionOk(body.blocks, body.locals, region) && FewSites(body.blocks, region)
    modifies body
    ensures PrioShape(old(body.blocks), body.blocks, old(body.locals), region, bands, report, ms, lifted, lay)
    ensures RegionsLeft(body.blocks) < old(RegionsLeft(body.blocks))
    ensures OwnMarkers(old(body.blocks), region) ==>
              Leaves(old(body.blocks), old(body.locals), region, body.blocks, body.locals, lifted)
  {
    hide SourceOk, MarkersOk, BodiesOk, MachinesIn, ScanEmitted, Lifted, PrioShape, AllSites, SuccessorsInRange,
         MarkerSites, RegionsLeft, AllInRange, LocalsBelow, ExitsApart, BandsOk, MembersOk, Adds, KeptTidy, Leaves,
           OwnMarkers, AllWithin;
    ghost var src, base := body.blocks, body.locals;
    SourceInRange(src, base);
    StartsTidy(src, base, region, base + 1);
    var sites := FindAllSites(body.blocks, region);
    assert forall i :: 0 <= i < |sites| ==> |sites[i]| < DONE_STATE;
    var progress := body.NewLocal();
    var machines, spans := BuildMachines(body, region, sites, progress, src, base);
    ghost var blocks, locals := body.blocks, body.locals;
    ReadyForLoop(src, blocks, base, locals, region, machines, progress, spans);
    EndNotEmpty(src, region);
    var sorted := MakeBands(region);
    MembersAreOk(region, sorted);
    MachinesAreWithin(src, blocks, base, locals, region, machines, progress, spans);
    var scan := EmitScan(body, region, sorted, machines, report, base, |src|);
    ghost var blocks1 := body.blocks;
    EmittedExecutor(blocks, blocks1, base, region, sorted, machines, report, scan);
    AssembledAfterLoop(src, blocks, blocks1, base, locals, region, machines, scan.exit, scan.post, progress, spans);
    MarkersStillThere(src, blocks1, base, locals, region, machines, progress, spans);
    FirstDispatch(src, blocks1, blocks1, base, locals, region, machines, progress, spans);
    BeginBelow(src, region);
    var entry, erased := FinishRegion(body, region, machines, scan.init);
    PrioShapeHolds(src, blocks, blocks1, erased, base, locals, region, sorted, machines, report, scan, progress, spans);
    RegionLeaves(src, base, region, blocks, locals, blocks1, body.locals, erased, machines, progress, spans,
                 scan.init, scan.exit, scan.post);
    bands, ms, lifted, lay := sorted, machines, entry, scan;
  }

  lemma EmittedExecutor(blocks: Blocks, blocks1: Blocks, base: nat, region: Region, bands: Bands, ms: seq<Machine>,
                        report: bool, lay: PrioLoop)
    requires ScanEmitted(blocks, blocks1, base, region, bands, ms, report, lay)
    ensures ExecutorIn(blocks, blocks1, region, ms, lay.exit, lay.post)
  {
    hide ScanShape, ExecutorIn;
  }
}
