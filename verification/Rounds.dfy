/** The run over all regions. */
module Rounds {
  // The run asks its caller for one thing, that the regions of the body it is given are nested
  // properly. From that every round finds what it needs: the region it takes is innermost and well
  // formed, and what it leaves is again a body whose regions are nested properly.

  import opened Options
  import opened Cfg
  import opened Coroutines
  import opened Regions
  import opened Footprint
  import opened Machines
  import opened Cooperative
  import opened PriorityLoop
  import opened Discovery
  import opened Outline
  import opened Markers
  import opened Nesting
  import opened Transform
  import opened PriorityTransform
  import opened OneShot
  import opened OneShotEmission
  import opened OneShotTransform

  // ── Which region is next, and by which executor ──────────────────────

  /** The first region that has coroutines. */
  function FirstWithCoroutines(regions: seq<Region>): Option<Region> {
    if |regions| == 0 then None
    else if |regions[0].coroutines| > 0 then Some(regions[0])
    else FirstWithCoroutines(regions[1..])
  }

  ghost function NextRegion(blocks: Blocks): Option<Region> {
    FirstWithCoroutines(Scanned(TextOf(blocks)).regions)
  }

  /** Any priority makes the whole region one for the strict-priority loop. */
  predicate HasPriorities(region: Region) {
    exists i :: 0 <= i < |region.coroutines| && region.coroutines[i].priority.Some?
  }

  /** The executors: the looping one, with or without a deadlock report, and the one-shot one. */
  datatype Strategy = Looping(report: bool) | Waker

  /** The one-shot structure, whatever the host puts into its pending block. */
  ghost predicate OneShotMade(src: Blocks, out: Blocks, base: nat, region: Region, ms: seq<Machine>, lifted: BlockId,
                              lay: Shot) {
    lay.pending < |out|
      && forall waiting :: ShotShape(src, Waiting(out, lay, waiting), base, region, waiting, ms, lifted, lay)
  }

  /** What is left of the region, in block `lifted` and elsewhere. */
  ghost predicate LeftBy(src: Blocks, base: nat, region: Region, out: Blocks, locals: nat, lifted: BlockId) {
    OwnMarkers(src, region) ==> Leaves(src, base, region, out, locals, lifted)
  }

  /** `out`, with `locals` locals, is `src` with `region` lowered by the executor that is its due. */
  ghost predicate Transformed(src: Blocks, base: nat, region: Region, how: Strategy, out: Blocks, locals: nat) {
    match how
    case Waker => exists ms, lifted, lay ::
        OneShotMade(src, out, base, region, ms, lifted, lay) && LeftBy(src, base, region, out, locals, lifted)
    case Looping(report) =>
      if HasPriorities(region)
      then exists bands, ms, lifted, lay ::
             PrioShape(src, out, base, region, bands, report, ms, lifted, lay)
               && LeftBy(src, base, region, out, locals, lifted)
      else exists ms, lifted, lay ::
             CoopShape(src, out, base, region, report, ms, lifted, lay)
               && LeftBy(src, base, region, out, locals, lifted)
  }

  /** The contract under which a region is transformed. */
  ghost predicate Welcome(src: Blocks, base: nat, region: Region) {
    RegionOk(src, base, region) && FewSites(src, region)
  }

  method TransformNext(body: Body<Stmt>, region: Region, how: Strategy)
    requires Welcome(body.blocks, body.locals, region)
    modifies body
    ensures Transformed(old(body.blocks), old(body.locals), region, how, body.blocks, body.locals)
    ensures RegionsLeft(body.blocks) < old(RegionsLeft(body.blocks))
  {
    hide RegionOk, FewSites, PrioShape, CoopShape, ShotShape, RegionsLeft, OwnMarkers, Leaves;
    if how.Waker? {
      var done, pending, ms, lifted, lay := TransformOneShot(body, region);
      assert OneShotMade(old(body.blocks), body.blocks, old(body.locals), region, ms, lifted, lay);
      assert LeftBy(old(body.blocks), old(body.locals), region, body.blocks, body.locals, lifted);
    } else if HasPriorities(region) {
      var bands, ms, lifted, lay := TransformByPriority(body, region, how.report);
      assert LeftBy(old(body.blocks), old(body.locals), region, body.blocks, body.locals, lifted);
    } else {
      var ms, lifted, lay := TransformRegion(body, region, how.report);
      assert LeftBy(old(body.blocks), old(body.locals), region, body.blocks, body.locals, lifted);
    }
  }

  // ── Rounds ───────────────────────────────────────────────────────────

  /** A body, and how many locals it has. */
  type Stage = (Blocks, nat)

  ghost predicate IsRound(s: Stage, t: Stage, how: Strategy) {
    && NextRegion(s.0).Some? && Welcome(s.0, s.1, NextRegion(s.0).value)
    && Transformed(s.0, s.1, NextRegion(s.0).value, how, t.0, t.1) && RegionsLeft(t.0) < RegionsLeft(s.0)
  }

  ghost predicate Chain(stages: seq<Stage>, how: Strategy) {
    |stages| > 0 && forall i :: 0 <= i < |stages| - 1 ==> IsRound(stages[i], stages[i + 1], how)
  }

  lemma {:induction false} FirstIs(regions: seq<Region>)
    ensures var r := FirstWithCoroutines(regions);
            && (r.Some? ==> r.value in regions && |r.value.coroutines| > 0)
            && (r.None? ==> forall s :: s in regions ==> |s.coroutines| == 0)
  {
    if |regions| > 0 && |regions[0].coroutines| == 0 {
      FirstIs(regions[1..]);
    }
  }

  /** The next region is innermost and has coroutines; without one, no innermost region has any. */
  lemma NextIsInnermost(blocks: Blocks, base: nat, plan: Plan)
    requires Nested(blocks, base, plan)
    ensures var r := NextRegion(blocks);
            && (r.Some? ==> Innermost(plan.Keys, r.value) && |r.value.coroutines| > 0 && Welcome(blocks, base, r.value))
            && (r.None? ==> forall s :: Innermost(plan.Keys, s) ==> |s.coroutines| == 0)
  {
    hide Sound, Related, SourceOk, Innermost, RegionOk, FewSites, Marked, InSequence, Outlined;
    FindsExactly(blocks, plan.Keys);
    FirstIs(Scanned(TextOf(blocks)).regions);
    var r := NextRegion(blocks);
    if r.Some? {
      InPlan(blocks, plan, r.value);
      assert Sound(blocks, r.value, plan[r.value]);
      SoundLength(blocks, r.value, plan[r.value]);
      SoundIsOk(blocks, base, r.value, plan[r.value]);
    }
  }

  lemma InPlan(blocks: Blocks, plan: Plan, r: Region)
    requires Outlined(blocks, plan.Keys) && Innermost(plan.Keys, r)
    ensures r in plan && Marked(blocks, r) && InSequence(r)
  {
  }

  lemma WhatIsLeft(src: Blocks, base: nat, region: Region, out: Blocks, locals: nat, lifted: BlockId)
    requires LeftBy(src, base, region, out, locals, lifted) && OwnMarkers(src, region)
    ensures Leaves(src, base, region, out, locals, lifted)
  {
    hide OwnMarkers, Leaves;
  }

  /** A round leaves a body that is nested properly, with that one region less. */
  lemma RoundKeepsNesting(s: Stage, t: Stage, how: Strategy, plan: Plan)
    requires Nested(s.0, s.1, plan) && IsRound(s, t, how)
    ensures Nested(t.0, t.1, Remaining(plan, NextRegion(s.0).value, |s.0|, |t.0|))
  {
    hide Nested, OwnMarkers, Leaves, CoopShape, PrioShape, ShotShape, RegionsLeft, Welcome, NextRegion, Innermost;
    NextIsInnermost(s.0, s.1, plan);
    var r := NextRegion(s.0).value;
    InnermostOwnsMarkers(s.0, s.1, plan, r);
    var lifted :| LeftBy(s.0, s.1, r, t.0, t.1, lifted);
    WhatIsLeft(s.0, s.1, r, t.0, t.1, lifted);
    NestingKept(s.0, s.1, plan, r, t.0, t.1, lifted);
  }

  /** Rounds go down: there are no more of them than the body has region markers. */
  lemma {:induction false} RoundsGoDown(stages: seq<Stage>, how: Strategy)
    requires Chain(stages, how)
    ensures RegionsLeft(stages[|stages| - 1].0) + |stages| - 1 <= RegionsLeft(stages[0].0)
  {
    hide RegionsLeft, Welcome, Transformed, NextRegion;
    var n := |stages| - 1;
    if n > 0 {
      assert Chain(stages[..n], how);
      RoundsGoDown(stages[..n], how);
      assert IsRound(stages[n - 1], stages[n], how);
    }
  }

  lemma OneMoreRound(stages: seq<Stage>, t: Stage, how: Strategy)
    requires Chain(stages, how) && IsRound(stages[|stages| - 1], t, how)
    ensures Chain(stages + [t], how)
  {
    hide IsRound;
  }

  /** A region without coroutines is never lowered, nor is a region around it. */
  ghost predicate Stays(regions: set<Region>, s: Region) {
    exists e :: e in regions && |e.coroutines| == 0 && (e == s || InsideOf(e, s))
  }

  /** What is left of the plan after some rounds. */
  ghost predicate LeftOf(plan: Plan, rest: Plan) {
    && rest.Keys <= plan.Keys
    && forall s :: s in plan && Stays(plan.Keys, s) ==> s in rest
  }

  lemma OneLess(plan: Plan, rest: Plan, r: Region, n: nat, m: nat)
    requires LeftOf(plan, rest) && Innermost(rest.Keys, r) && |r.coroutines| > 0
    ensures LeftOf(plan, Remaining(rest, r, n, m)) && |Remaining(rest, r, n, m)| == |rest| - 1
  {
    var rest' := Remaining(rest, r, n, m);
    assert rest'.Keys == rest.Keys - {r};
    assert |rest'| == |rest'.Keys| && |rest| == |rest.Keys|;
    forall e | e in plan.Keys && |e.coroutines| == 0
      ensures e in rest && e != r && !InsideOf(e, r)
    {
      assert Stays(plan.Keys, e);
    }
  }

  /** At the end only the regions that stay are left. */
  lemma OnlyStaying(blocks: Blocks, base: nat, plan: Plan, rest: Plan)
    requires Nested(blocks, base, rest) && LeftOf(plan, rest) && NextRegion(blocks).None?
    ensures forall s :: s in rest <==> s in plan && Stays(plan.Keys, s)
  {
    hide Sound, Related, SourceOk, NextRegion, Outlined;
    NextIsInnermost(blocks, base, rest);
    forall s | s in rest
      ensures Stays(plan.Keys, s)
    {
      IsMarked(blocks, rest, s);
      var u := SomeInnermost(blocks, rest.Keys, s);
      assert u in plan.Keys;
    }
  }

  lemma IsMarked(blocks: Blocks, plan: Plan, s: Region)
    requires Outlined(blocks, plan.Keys) && s in plan
    ensures Marked(blocks, s)
  {
  }

  /** Transforms region after region. It takes a round for every region that has coroutines and
      only such regions inside it, and leaves the others; after that a second run finds nothing
      to do. If every region has coroutines, no marker is left. */
  method RunWith(body: Body<Stmt>, how: Strategy, ghost plan: Plan) returns (ghost stages: seq<Stage>, ghost rest: Plan)
    requires Nested(body.blocks, body.locals, plan)
    modifies body
    ensures Chain(stages, how) && stages[0] == old((body.blocks, body.locals))
            && stages[|stages| - 1] == (body.blocks, body.locals)
    ensures NextRegion(body.blocks).None?
    ensures Nested(body.blocks, body.locals, rest) && forall s :: s in rest <==> s in plan && Stays(plan.Keys, s)
    ensures |stages| - 1 == |plan| - |rest| <= old(RegionsLeft(body.blocks))
    ensures (forall s :: s in plan ==> |s.coroutines| > 0) ==> forall b, i :: !HasMarker(body.blocks, b, i)
    ensures old(NextRegion(body.blocks)).None? ==> body.blocks == old(body.blocks) && body.locals == old(body.locals)
  {
    hide RegionsLeft, Welcome, Transformed, NextRegion, Nested, Innermost, LeftOf, Stays, Remaining, HasMarker;
    stages := [(body.blocks, body.locals)];
    rest := plan;
    NothingLowered(plan);
    var region := FindNext(body.blocks);
    while region.Some?
      invariant Chain(stages, how) && stages[0] == old((body.blocks, body.locals))
                && stages[|stages| - 1] == (body.blocks, body.locals)
      invariant Nested(body.blocks, body.locals, rest) && LeftOf(plan, rest) && |stages| - 1 == |plan| - |rest|
      invariant region == NextRegion(body.blocks)
      invariant |stages| > 1 ==> old(NextRegion(body.blocks)).Some?
      decreases RegionsLeft(body.blocks)
    {
      ghost var s: Stage := (body.blocks, body.locals);
      NextIsInnermost(body.blocks, body.locals, rest);
      TransformNext(body, region.value, how);
      ghost var t: Stage := (body.blocks, body.locals);
      RoundKeepsNesting(s, t, how, rest);
      OneLess(plan, rest, region.value, |s.0|, |t.0|);
      rest := Remaining(rest, region.value, |s.0|, |t.0|);
      OneMoreRound(stages, t, how);
      assert IsRound(stages[0], (stages + [t])[1], how);
      stages := stages + [t];
      region := FindNext(body.blocks);
    }
    RoundsGoDown(stages, how);
    OnlyStaying(body.blocks, body.locals, plan, rest);
    NoneLeft(body.blocks, body.locals, plan, rest);
  }

  lemma NothingLowered(plan: Plan)
    ensures LeftOf(plan, plan)
  {
  }

  lemma NoneLeft(blocks: Blocks, base: nat, plan: Plan, rest: Plan)
    requires Nested(blocks, base, rest) && forall s :: s in rest <==> s in plan && Stays(plan.Keys, s)
    ensures (forall s :: s in plan ==> |s.coroutines| > 0) ==> forall b, i :: !HasMarker(blocks, b, i)
  {
    hide Sound, Related, SourceOk, HasMarker, Marks;
    if forall s :: s in plan ==> |s.coroutines| > 0 {
      assert rest.Keys == {};
    }
  }

  method FindNext(blocks: Blocks) returns (region: Option<Region>)
    ensures region == NextRegion(blocks)
  {
    var regions := FindRegions(blocks);
    region := FirstWithCoroutines(regions);
  }
}
