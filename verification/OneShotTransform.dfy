/** The whole transform of one region under the one-shot executor.

Machines are built as for the other executors, then the one-shot structure, and then the
region is finished in the same way. The structure leaves its pending block as created, for
the host to fill; so the result is stated for every content of that block. Filling it and
finishing the region are edits of different blocks, which is why the order does not matter.
The proof goes through the steps of finishing once, with the block filled beforehand, and
then moves the filling to the end.
*/
module OneShotTransform {
  import opened Cfg
  import opened Coroutines
  import opened Regions
  import opened Machines
  import opened Fleets
  import opened Executors
  import opened OneShot
  import opened Discovery
  import opened Markers
  import opened Footprint
  import opened Lowering
  import opened Emission
  import opened Finishing
  import opened Assembly
  import opened Leavings
  import opened Transform
  import opened OneShotEmission

  lemma ShotKept(out: Blocks, out': Blocks, base: nat, ms: seq<Machine>, waiting: Term, lay: Shot, n: nat, d: BlockId)
    requires VisitsShape(out, base, ms, waiting, lay) && ShotAbove(lay, n) && |out| <= |out'| && d < n
    requires forall i :: 0 <= i < |ms| ==> ms[i].exit != d && ms[i].exit < |out|
    requires forall b: nat :: b < |out| && ((n <= b) || (exists i :: 0 <= i < |ms| && ms[i].exit == b)) ==>
               out'[b] == out[b]
    ensures VisitsShape(out', base, ms, waiting, lay)
  {
    hide OwnLocal, VisitShape;
    forall k | 0 <= k < |ms|
      ensures VisitShape(out', ms[k], lay.allDone, lay.visits[k], k == 0)
    {
      VisitShapeInRange(out, ms[k], lay.allDone, lay.visits[k], k == 0);
      VisitShapeKept(out, out', ms[k], lay.allDone, lay.visits[k], k == 0);
    }
  }

  lemma ShotAfterFinish(src: Blocks, blocks: Blocks, blocks1: Blocks, out: Blocks, base: nat, locals: nat,
                        region: Region, ms: seq<Machine>, waiting: Term, lay: Shot, progress: LocalId, spans: seq<Span>)
    requires MarkersOk(src, region) && BodiesOk(src, region) && |ms| == |region.coroutines|
    requires MachinesIn(src, blocks, base, locals, region, ms, progress, spans)
    requires ShotEmitted(blocks, blocks1, base, region, ms, waiting, lay)
    requires |out| == |blocks1| + 1 && forall b: nat :: |src| <= b < |blocks1| && b != ms[0].dispatch ==>
               out[b] == blocks1[b]
    ensures |ms| > 0 && VisitsShape(out, base, ms, waiting, lay)
    ensures ExitsBy(src, out, region, lay.done, lay.post)
  {
    hide MachineIn, MarkersOk, BodiesOk, VisitsShape, RegionsLeft, LocalsBelow;
    BeginBelow(src, region);
    ReadyForLoop(src, blocks, base, locals, region, ms, progress, spans);
    DispatchBelow(src, blocks, base, locals, region, ms, progress, spans);
    ShotKept(blocks1, out, base, ms, waiting, lay, |blocks|, ms[0].dispatch);
  }

  lemma ShotShapeHolds(src: Blocks, blocks: Blocks, blocks1: Blocks, erased: Blocks, base: nat, locals: nat,
                       region: Region, ms: seq<Machine>, waiting: Term, lay: Shot, progress: LocalId, spans: seq<Span>)
    requires RegionOk(src, base, region) && |ms| == |region.coroutines|
    requires MachinesIn(src, blocks, base, locals, region, ms, progress, spans)
    requires ShotEmitted(blocks, blocks1, base, region, ms, waiting, lay)
    requires ErasedAt(blocks1, erased, MarkerSites(region)) && InRange(erased, region.begin)
    ensures |ms| > 0 && ms[0].dispatch < |erased| && ms[0].dispatch != region.begin.0
    ensures ShotShape(src, Lifted(erased, region, ms, lay.top), base, region, waiting, ms, |blocks1|, lay)
    ensures RegionsLeft(Lifted(erased, region, ms, lay.top)) < RegionsLeft(src)
  {
    hide SourceOk, MarkersOk, BodiesOk, MachinesIn, ExecutorIn, Lifted, Assembled, BeginsKept, VisitsShape, FleetOk,
         MarkerSites, RegionsLeft;
    AssembledAfterLoop(src, blocks, blocks1, base, locals, region, ms, lay.done, lay.post, progress, spans);
    AssembledFleet(src, blocks1, erased, base, locals, region, ms, progress, spans, lay.top);
    FirstDispatch(src, blocks1, erased, base, locals, region, ms, progress, spans);
    AssembledOutside(src, blocks1, erased, base, locals, region, ms, progress, spans, lay.top);
    HighBlocksKept(src, blocks1, erased, region, ms, lay.top);
    ShotAfterFinish(src, blocks, blocks1, Lifted(erased, region, ms, lay.top), base, locals, region, ms, waiting, lay,
                    progress, spans);
    RegionMarkerKept(src, blocks1, base, locals, region, ms, progress, spans);
    SameRegions(src, blocks, blocks1, base, locals, region, ms, lay.done, lay.post, progress, spans);
    RegionsGoDown(src, blocks1, erased, region, ms, lay.top);
  }

  /** Filling the pending block and finishing the region are independent. */
  lemma WaitingCommutes(blocks: Blocks, erased: Blocks, sites: seq<Site>, region: Region, ms: seq<Machine>, lay: Shot,
                        waiting: Term)
    requires ErasedAt(blocks, erased, sites) && InRange(erased, region.begin)
    requires lay.pending < |blocks| && blocks[lay.pending] == BARE
    requires |ms| > 0 && ms[0].dispatch < |erased| && ms[0].dispatch != region.begin.0 && ms[0].dispatch != lay.pending
    requires region.begin.0 != lay.pending
    ensures ErasedAt(Waiting(blocks, lay, waiting), Waiting(erased, lay, waiting), sites)
    ensures InRange(Waiting(erased, lay, waiting), region.begin)
    ensures lay.pending < |Lifted(erased, region, ms, lay.top)|
    ensures Lifted(Waiting(erased, lay, waiting), region, ms, lay.top)
            == Waiting(Lifted(erased, region, ms, lay.top), lay, waiting)
  {
    LiftedCommutes(erased, region, ms, lay, waiting);
    hide Lifted;
  }

  lemma LiftedCommutes(erased: Blocks, region: Region, ms: seq<Machine>, lay: Shot, waiting: Term)
    requires InRange(erased, region.begin) && lay.pending < |erased|
    requires |ms| > 0 && ms[0].dispatch < |erased| && ms[0].dispatch != region.begin.0 && ms[0].dispatch != lay.pending
    requires region.begin.0 != lay.pending
    ensures Lifted(Waiting(erased, lay, waiting), region, ms, lay.top)
            == Waiting(Lifted(erased, region, ms, lay.top), lay, waiting)
  {
    hide Redirect;
    var a, b := Lifted(Waiting(erased, lay, waiting), region, ms, lay.top),
      Waiting(Lifted(erased, region, ms, lay.top), lay, waiting);
    assert |a| == |b|;
    forall i | 0 <= i < |a|
      ensures a[i] == b[i]
    {
    }
  }

  lemma PendingIsHigh(blocks: Blocks, blocks1: Blocks, base: nat, region: Region, ms: seq<Machine>, waiting: Term,
                      lay: Shot)
    requires ShotEmitted(blocks, blocks1, base, region, ms, waiting, lay)
    ensures |blocks| <= lay.pending && |blocks| <= |blocks1|
  {
    hide VisitsShape, RegionsLeft;
  }

  lemma SameWhileBare(blocks: Blocks, lay: Shot)
    requires lay.pending < |blocks| && blocks[lay.pending] == BARE
    ensures Waiting(blocks, lay, Unreachable) == blocks
  {
  }

  /** The one-shot transform of a region. Whatever the host puts into the pending block, the
      output is the one-shot structure around the region's machines. */
  method TransformOneShot(body: Body<Stmt>, region: Region)
    returns (done: BlockId, pending: BlockId, ghost ms: seq<Machine>, ghost lifted: BlockId, ghost lay: Shot)
    requires RegionOk(body.blocks, body.locals, region) && FewSites(body.blocks, region)
    modifies body
    ensures done == lay.done && pending == lay.pending < |body.blocks| && body.blocks[pending] == Block([], Unreachable)
    ensures forall waiting ::
              ShotShape(old(body.blocks), Waiting(body.blocks, lay, waiting), old(body.locals), region, waiting, ms,
                        lifted, lay)
    ensures RegionsLeft(body.blocks) < old(RegionsLeft(body.blocks))
    ensures OwnMarkers(old(body.blocks), region) ==>
              Leaves(old(body.blocks), old(body.locals), region, body.blocks, body.locals, lifted)
  {
    hide SourceOk, MarkersOk, BodiesOk, MachinesIn, ExecutorIn, Lifted, ShotShape, ShotEmitted, AllSites,
         SuccessorsInRange, MarkerSites, RegionsLeft, AllInRange, LocalsBelow, ExitsApart, ErasedAt, Waiting, Adds,
           KeptTidy, Leaves, OwnMarkers, AllWithin;
    ghost var src, base := body.blocks, body.locals;
    SourceInRange(src, base);
    StartsTidy(src, base, region, base + 1);
    var sites := FindAllSites(body.blocks, region);
    assert forall i :: 0 <= i < |sites| ==> |sites[i]| < DONE_STATE;
    var progress := body.NewLocal();
    var machines, spans := BuildMachines(body, region, sites, progress, src, base);
    ghost var blocks, locals := body.blocks, body.locals;
    ReadyForLoop(src, blocks, base, locals, region, machines, progress, spans);
    EndNotEmpty(src, region);
    MachinesAreWithin(src, blocks, base, locals, region, machines, progress, spans);
    var shot := EmitShot(body, region, machines, base, |src|);
    ghost var blocks1 := body.blocks;
    SameWhileBare(blocks1, shot);
    assert ShotEmitted(blocks, blocks1, base, region, machines, Unreachable, shot);
    PendingIsHigh(blocks, blocks1, base, region, machines, Unreachable, shot);
    EmittedExecutor(blocks, blocks1, base, region, machines, Unreachable, shot);
    AssembledAfterLoop(src, blocks, blocks1, base, locals, region, machines, shot.done, shot.post, progress, spans);
    MarkersStillThere(src, blocks1, base, locals, region, machines, progress, spans);
    FirstDispatch(src, blocks1, blocks1, base, locals, region, machines, progress, spans);
    DispatchBelow(src, blocks, base, locals, region, machines, progress, spans);
    BeginBelow(src, region);
    var entry, erased := FinishRegion(body, region, machines, shot.top);
    ShotShapeHolds(src, blocks, blocks1, erased, base, locals, region, machines, Unreachable, shot, progress, spans);
    PendingAsLeft(src, body.blocks, base, region, machines, entry, shot);
    forall waiting: Term
      ensures ShotShape(src, Waiting(body.blocks, shot, waiting), base, region, waiting, machines, entry, shot)
    {
      ShapeWaiting(src, blocks, blocks1, erased, base, locals, region, machines, waiting, shot, progress, spans);
    }
    RegionLeaves(src, base, region, blocks, locals, blocks1, body.locals, erased, machines, progress, spans,
                 shot.top, shot.done, shot.post);
    done, pending, ms, lifted, lay := shot.done, shot.pending, machines, entry, shot;
  }

  /** The shape, with anything in the pending block. */
  lemma ShapeWaiting(src: Blocks, blocks: Blocks, blocks1: Blocks, erased: Blocks, base: nat, locals: nat,
                     region: Region, ms: seq<Machine>, waiting: Term, lay: Shot, progress: LocalId, spans: seq<Span>)
    requires RegionOk(src, base, region) && |ms| == |region.coroutines|
    requires MachinesIn(src, blocks, base, locals, region, ms, progress, spans)
    requires |src| <= |blocks| <= lay.pending < |blocks1| && blocks1[lay.pending] == BARE
    requires ShotEmitted(blocks, Waiting(blocks1, lay, waiting), base, region, ms, waiting, lay)
    requires ErasedAt(blocks1, erased, MarkerSites(region)) && InRange(erased, region.begin)
    requires |ms| > 0 && ms[0].dispatch < |blocks| && ms[0].dispatch != region.begin.0
    ensures ms[0].dispatch < |erased| && lay.pending < |Lifted(erased, region, ms, lay.top)|
    ensures ShotShape(src, Waiting(Lifted(erased, region, ms, lay.top), lay, waiting), base, region, waiting, ms,
                      |blocks1|, lay)
  {
    hide SourceOk, MarkersOk, BodiesOk, MachinesIn, ExecutorIn, Lifted, ShotShape, ShotEmitted, MarkerSites,
         RegionsLeft, ErasedAt, Waiting;
    BeginBelow(src, region);
    ErasedSize(blocks1, erased, MarkerSites(region));
    WaitingCommutes(blocks1, erased, MarkerSites(region), region, ms, lay, waiting);
    ShotShapeHolds(src, blocks, Waiting(blocks1, lay, waiting), Waiting(erased, lay, waiting), base, locals, region, ms,
                   waiting, lay, progress, spans);
    WaitingSize(blocks1, lay, waiting);
  }

  lemma EmittedExecutor(blocks: Blocks, blocks1: Blocks, base: nat, region: Region, ms: seq<Machine>, waiting: Term,
                        lay: Shot)
    requires ShotEmitted(blocks, blocks1, base, region, ms, waiting, lay)
    ensures ExecutorIn(blocks, blocks1, region, ms, lay.done, lay.post)
  {
    hide VisitsShape, ExecutorIn;
  }

  lemma ErasedSize(blocks: Blocks, erased: Blocks, sites: seq<Site>)
    requires ErasedAt(blocks, erased, sites)
    ensures |erased| == |blocks|
  {
  }

  lemma WaitingSize(blocks: Blocks, lay: Shot, waiting: Term)
    requires lay.pending < |blocks|
    ensures |Waiting(blocks, lay, waiting)| == |blocks|
  {
  }

  lemma PendingAsLeft(src: Blocks, out: Blocks, base: nat, region: Region, ms: seq<Machine>, lifted: BlockId, lay: Shot)
    requires ShotShape(src, out, base, region, Unreachable, ms, lifted, lay)
    ensures lay.pending < |out| && out[lay.pending] == Block([], Unreachable)
  {
    hide FleetOk, VisitShape, KeepsOutside, EntersAt, ExitsBy;
  }
}
