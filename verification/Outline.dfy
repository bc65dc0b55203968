/** Discovery of nested regions. */
module Outline {
  // The outline of a body is its markers in the order they are read. It is in order if the markers
  // are those of a set of regions, each with its coroutines one after another, and any two regions
  // lie apart or one lies inside one coroutine of the other. Discovery of such a body finds exactly
  // its innermost regions, each with exactly its coroutines and their priorities.

  import opened Options
  import opened Coroutines
  import opened Regions
  import opened Footprint
  import opened Discovery

  // ── The outline ──────────────────────────────────────────────────────

  predicate HasStatement(blocks: Blocks, s: Site, stmt: Stmt) {
    s.0 < |blocks| && s.1 < |blocks[s.0].stmts| && blocks[s.0].stmts[s.1] == stmt
  }

  /** The region's markers are where it says. */
  predicate Marked(blocks: Blocks, region: Region) {
    && HasStatement(blocks, region.begin, RegionBegin) && HasStatement(blocks, region.end, RegionEnd)
    && forall j :: 0 <= j < |region.coroutines| ==>
         && HasStatement(blocks, region.coroutines[j].begin, CoroutineBegin(region.coroutines[j].priority))
         && HasStatement(blocks, region.coroutines[j].end, CoroutineEnd)
  }

  /** A region's coroutines follow one another between its begin and its end. */
  predicate InSequence(region: Region) {
    && Before(region.begin, region.end)
    && (forall j :: 0 <= j < |region.coroutines| ==>
          && Before(region.begin, region.coroutines[j].begin)
          && Before(region.coroutines[j].begin, region.coroutines[j].end)
          && Before(region.coroutines[j].end, region.end))
    && (forall i, j :: 0 <= i < j < |region.coroutines| ==>
          Before(region.coroutines[i].end, region.coroutines[j].begin))
  }

  /** `s` lies inside coroutine `j` of `u`. */
  predicate InsidePart(s: Region, u: Region, j: nat) {
    j < |u.coroutines| && Before(u.coroutines[j].begin, s.begin) && Before(s.end, u.coroutines[j].end)
  }

  predicate InsideOf(s: Region, u: Region) {
    exists j :: 0 <= j < |u.coroutines| && InsidePart(s, u, j)
  }

  predicate Apart(s: Region, u: Region) {
    Before(s.end, u.begin) || Before(u.end, s.begin)
  }

  predicate Laminar(s: Region, u: Region) {
    Apart(s, u) || InsideOf(s, u) || InsideOf(u, s)
  }

  ghost predicate Outlined(blocks: Blocks, regions: set<Region>) {
    && (forall s :: s in regions ==> Marked(blocks, s) && InSequence(s))
    && (forall s, u :: s in regions && u in regions && s != u ==> Laminar(s, u))
    && (forall b, i :: HasMarker(blocks, b, i) ==> exists s :: s in regions && Marks(s, (b, i)))
  }

  ghost predicate Innermost(regions: set<Region>, s: Region) {
    s in regions && forall u :: u in regions && u != s ==> !InsideOf(u, s)
  }

  // ── Places in the text ───────────────────────────────────────────────

  function PlaceOf(blocks: Blocks, s: Site): nat
    requires s.0 < |blocks|
  {
    |TextOf(blocks[..s.0])| + s.1
  }

  lemma {:induction false} LinesAdd(blocks: Blocks, b: nat, c: nat)
    requires b < c <= |blocks|
    ensures |TextOf(blocks[..b])| + |blocks[b].stmts| <= |TextOf(blocks[..c])|
    ensures |TextOf(blocks[..b + 1])| == |TextOf(blocks[..b])| + |blocks[b].stmts|
    decreases c
  {
    assert blocks[..c][..c - 1] == blocks[..c - 1];
    assert blocks[..b + 1][..b] == blocks[..b];
    if b < c - 1 {
      LinesAdd(blocks, b, c - 1);
    }
  }

  lemma PlacesInOrder(blocks: Blocks, s: Site, t: Site)
    requires s.0 < |blocks| && s.1 < |blocks[s.0].stmts| && t.0 < |blocks| && t.1 < |blocks[t.0].stmts|
    ensures Before(s, t) <==> PlaceOf(blocks, s) < PlaceOf(blocks, t)
  {
    if s.0 < t.0 {
      LinesAdd(blocks, s.0, t.0);
    } else if t.0 < s.0 {
      LinesAdd(blocks, t.0, s.0);
    }
  }

  /** Reading at a place. */
  lemma {:induction false} ReadAt(blocks: Blocks, s: Site)
    requires s.0 < |blocks| && s.1 < |blocks[s.0].stmts|
    ensures PlaceOf(blocks, s) < |TextOf(blocks)| && TextOf(blocks)[PlaceOf(blocks, s)] == (s, blocks[s.0].stmts[s.1])
  {
    var n := |blocks| - 1;
    if s.0 == n {
      assert TextOf(blocks) == TextOf(blocks[..n]) + Line(n, blocks[n].stmts);
    } else {
      ReadAt(blocks[..n], s);
      assert blocks[..n][..s.0] == blocks[..s.0];
    }
  }

  lemma {:induction false} SiteOf(blocks: Blocks, x: nat)
    requires x < |TextOf(blocks)|
    ensures var s := TextOf(blocks)[x].0;
            && s.0 < |blocks| && s.1 < |blocks[s.0].stmts| && TextOf(blocks)[x].1 == blocks[s.0].stmts[s.1]
            && PlaceOf(blocks, s) == x
  {
    var n := |blocks| - 1;
    if x < |TextOf(blocks[..n])| {
      SiteOf(blocks[..n], x);
      var s := TextOf(blocks[..n])[x].0;
      assert blocks[..n][..s.0] == blocks[..s.0];
    } else {
      var i: nat := x - |TextOf(blocks[..n])|;
      assert TextOf(blocks)[x] == Line(n, blocks[n].stmts)[i];
    }
  }

  // ── Whose marker is read ─────────────────────────────────────────────

  /** The places of a region's markers, in order. */
  lemma RegionPlaces(blocks: Blocks, regions: set<Region>, s: Region)
    requires Outlined(blocks, regions) && s in regions
    ensures Marked(blocks, s) && PlaceOf(blocks, s.begin) < PlaceOf(blocks, s.end)
    ensures forall j :: 0 <= j < |s.coroutines| ==>
              PlaceOf(blocks, s.begin) < PlaceOf(blocks, s.coroutines[j].begin)
                < PlaceOf(blocks, s.coroutines[j].end) < PlaceOf(blocks, s.end)
    ensures forall i, j :: 0 <= i < j < |s.coroutines| ==>
              PlaceOf(blocks, s.coroutines[i].end) < PlaceOf(blocks, s.coroutines[j].begin)
  {
    assert Marked(blocks, s) && InSequence(s);
    PlacesInOrder(blocks, s.begin, s.end);
    forall j | 0 <= j < |s.coroutines|
      ensures PlaceOf(blocks, s.begin) < PlaceOf(blocks, s.coroutines[j].begin)
                < PlaceOf(blocks, s.coroutines[j].end) < PlaceOf(blocks, s.end)
    {
      var co := s.coroutines[j];
      PlacesInOrder(blocks, s.begin, co.begin);
      PlacesInOrder(blocks, co.begin, co.end);
      PlacesInOrder(blocks, co.end, s.end);
    }
    forall i, j | 0 <= i < j < |s.coroutines|
      ensures PlaceOf(blocks, s.coroutines[i].end) < PlaceOf(blocks, s.coroutines[j].begin)
    {
      PlacesInOrder(blocks, s.coroutines[i].end, s.coroutines[j].begin);
    }
  }

  ghost predicate PlacedApart(blocks: Blocks, s: Region, u: Region)
    requires Marked(blocks, s) && Marked(blocks, u)
  {
    PlaceOf(blocks, s.end) < PlaceOf(blocks, u.begin)
  }

  ghost predicate PlacedInside(blocks: Blocks, s: Region, u: Region)
    requires Marked(blocks, s) && Marked(blocks, u)
  {
    exists j :: 0 <= j < |u.coroutines| &&
      PlaceOf(blocks, u.coroutines[j].begin) < PlaceOf(blocks, s.begin)
        && PlaceOf(blocks, s.end) < PlaceOf(blocks, u.coroutines[j].end)
  }

  lemma InsidePlaces(blocks: Blocks, regions: set<Region>, s: Region, u: Region)
    requires Outlined(blocks, regions) && s in regions && u in regions
    ensures Marked(blocks, s) && Marked(blocks, u)
    ensures InsideOf(s, u) <==> PlacedInside(blocks, s, u)
  {
    assert Marked(blocks, s) && Marked(blocks, u);
    forall j | 0 <= j < |u.coroutines|
      ensures InsidePart(s, u, j) <==>
                PlaceOf(blocks, u.coroutines[j].begin) < PlaceOf(blocks, s.begin)
                  && PlaceOf(blocks, s.end) < PlaceOf(blocks, u.coroutines[j].end)
    {
      PlacesInOrder(blocks, u.coroutines[j].begin, s.begin);
      PlacesInOrder(blocks, s.end, u.coroutines[j].end);
    }
  }

  /** Two regions of the outline, by their places. */
  lemma TwoRegions(blocks: Blocks, regions: set<Region>, s: Region, u: Region)
    requires Outlined(blocks, regions) && s in regions && u in regions && s != u
    ensures Marked(blocks, s) && Marked(blocks, u)
    ensures PlacedApart(blocks, s, u) || PlacedApart(blocks, u, s) || PlacedInside(blocks, s, u)
            || PlacedInside(blocks, u, s)
  {
    assert Marked(blocks, s) && Marked(blocks, u) && Laminar(s, u);
    PlacesInOrder(blocks, s.end, u.begin);
    PlacesInOrder(blocks, u.end, s.begin);
    InsidePlaces(blocks, regions, s, u);
    InsidePlaces(blocks, regions, u, s);
    hide Marked, InsideOf, Outlined;
  }

  /** From `s`'s begin to place `x` no region begins or ends. */
  ghost predicate Current(blocks: Blocks, s: Region, x: nat)
    requires Marked(blocks, s)
  {
    && PlaceOf(blocks, s.begin) < x <= |TextOf(blocks)|
    && forall y :: PlaceOf(blocks, s.begin) < y < x ==> !BoundsRegion(TextOf(blocks)[y].1)
  }

  lemma NoBoundsBetween(blocks: Blocks, regions: set<Region>, s: Region, u: Region, x: nat)
    requires Outlined(blocks, regions) && s in regions && u in regions
    requires Marked(blocks, s) && Marked(blocks, u) && Current(blocks, s, x)
    ensures !(PlaceOf(blocks, s.begin) < PlaceOf(blocks, u.begin) < x)
    ensures !(PlaceOf(blocks, s.begin) < PlaceOf(blocks, u.end) < x)
  {
    ReadAt(blocks, u.begin);
    ReadAt(blocks, u.end);
    hide TextOf;
  }

  /** While `s` is current, a marker read is one of its own, or begins a region. */
  lemma ReadsItsOwn(blocks: Blocks, regions: set<Region>, s: Region, u: Region, x: nat)
    requires Outlined(blocks, regions) && s in regions && u in regions && Marked(blocks, s) && Marked(blocks, u)
    requires Current(blocks, s, x) && x < |TextOf(blocks)|
    requires Marks(u, TextOf(blocks)[x].0) && TextOf(blocks)[x].0 != u.begin
    ensures u == s
  {
    hide Outlined, Marked, TextOf, PlaceOf, Current;
    MarkPlace(blocks, regions, u, x);
    RegionPlaces(blocks, regions, s);
    RegionPlaces(blocks, regions, u);
    NoBoundsBetween(blocks, regions, s, u, x);
    NoBoundsBetween(blocks, regions, s, s, x);
    BehindBegin(blocks, s, x);
    hide Marks;
    if u != s {
      TwoRegions(blocks, regions, s, u);
    }
  }

  lemma BehindBegin(blocks: Blocks, s: Region, x: nat)
    requires Marked(blocks, s) && Current(blocks, s, x)
    ensures PlaceOf(blocks, s.begin) < x
  {
  }

  /** The place of a marker other than the begin. */
  lemma MarkPlace(blocks: Blocks, regions: set<Region>, u: Region, x: nat)
    requires Outlined(blocks, regions) && u in regions && Marked(blocks, u) && x < |TextOf(blocks)|
    requires Marks(u, TextOf(blocks)[x].0) && TextOf(blocks)[x].0 != u.begin
    ensures || x == PlaceOf(blocks, u.end)
            || exists j :: 0 <= j < |u.coroutines| &&
                 (x == PlaceOf(blocks, u.coroutines[j].begin) || x == PlaceOf(blocks, u.coroutines[j].end))
  {
    SiteOf(blocks, x);
  }

  lemma KindOf(blocks: Blocks, regions: set<Region>, u: Region, t: Site)
    requires Outlined(blocks, regions) && u in regions && Marks(u, t)
    ensures t.0 < |blocks| && t.1 < |blocks[t.0].stmts|
    ensures blocks[t.0].stmts[t.1].RegionBegin? <==> t == u.begin
    ensures blocks[t.0].stmts[t.1].RegionEnd? <==> t == u.end
    ensures blocks[t.0].stmts[t.1].CoroutineBegin? ==> exists j :: 0 <= j < |u.coroutines| && t == u.coroutines[j].begin
    ensures blocks[t.0].stmts[t.1].CoroutineEnd? ==> exists j :: 0 <= j < |u.coroutines| && t == u.coroutines[j].end
  {
    assert Marked(blocks, u);
  }

  // ── The scan ─────────────────────────────────────────────────────────

  /** How far the scan has come in region `s`: `k` of its coroutines are complete, and the next
      may have begun. */
  ghost predicate Reading(blocks: Blocks, s: Region, x: nat, scan: Scan, k: nat)
    requires Marked(blocks, s)
  {
    && k <= |s.coroutines| && scan.coroutines == s.coroutines[..k]
    && (forall i :: 0 <= i < k ==> PlaceOf(blocks, s.coroutines[i].end) < x)
    && (k < |s.coroutines| ==>
          || x <= PlaceOf(blocks, s.coroutines[k].begin)
          || (PlaceOf(blocks, s.coroutines[k].begin) < x <= PlaceOf(blocks, s.coroutines[k].end)
              && scan.begin == Some(s.coroutines[k].begin) && scan.priority == s.coroutines[k].priority))
  }

  /** The scan knows the region it is in. */
  ghost predicate InRegion(blocks: Blocks, regions: set<Region>, x: nat, scan: Scan) {
    scan.region.Some? ==>
      exists s, k: nat :: s in regions && Marked(blocks, s) && scan.region.value == s.begin && Current(blocks, s, x)
        && Reading(blocks, s, x, scan, k)
  }

  ghost predicate FoundInnermost(regions: set<Region>, scan: Scan) {
    forall i :: 0 <= i < |scan.regions| ==> Innermost(regions, scan.regions[i])
  }

  lemma StaysCurrent(blocks: Blocks, s: Region, x: nat)
    requires Marked(blocks, s) && Current(blocks, s, x) && x < |TextOf(blocks)| && !BoundsRegion(TextOf(blocks)[x].1)
    ensures Current(blocks, s, x + 1)
  {
  }

  /** Where place `x` stands among the markers of the region being read. */
  lemma NotHere(blocks: Blocks, s: Region, x: nat)
    requires Marked(blocks, s) && x < |TextOf(blocks)| && !IsMarker(TextOf(blocks)[x].1)
    ensures forall j :: 0 <= j < |s.coroutines| ==>
              PlaceOf(blocks, s.coroutines[j].begin) != x && PlaceOf(blocks, s.coroutines[j].end) != x
  {
    forall j | 0 <= j < |s.coroutines|
      ensures PlaceOf(blocks, s.coroutines[j].begin) != x && PlaceOf(blocks, s.coroutines[j].end) != x
    {
      ReadAt(blocks, s.coroutines[j].begin);
      ReadAt(blocks, s.coroutines[j].end);
    }
  }

  lemma ReadOther(blocks: Blocks, regions: set<Region>, x: nat, scan: Scan)
    requires Outlined(blocks, regions) && x < |TextOf(blocks)| && InRegion(blocks, regions, x, scan)
             && scan.region.Some?
    requires !IsMarker(TextOf(blocks)[x].1)
    ensures InRegion(blocks, regions, x + 1, scan)
  {
    var s, k: nat :| s in regions && Marked(blocks, s) && scan.region.value == s.begin && Current(blocks, s, x)
      && Reading(blocks, s, x, scan, k);
    StaysCurrent(blocks, s, x);
    NotHere(blocks, s, x);
    hide Marked, PlaceOf, Outlined, TextOf, Current;
    assert Reading(blocks, s, x + 1, scan, k);
  }

  lemma MarkerOf(blocks: Blocks, regions: set<Region>, x: nat) returns (u: Region)
    requires Outlined(blocks, regions) && x < |TextOf(blocks)| && IsMarker(TextOf(blocks)[x].1)
    ensures u in regions && Marked(blocks, u) && Marks(u, TextOf(blocks)[x].0)
    ensures TextOf(blocks)[x].1.RegionBegin? <==> TextOf(blocks)[x].0 == u.begin
    ensures TextOf(blocks)[x].1.RegionEnd? <==> TextOf(blocks)[x].0 == u.end
    ensures PlaceOf(blocks, TextOf(blocks)[x].0) == x
  {
    SiteOf(blocks, x);
    var t := TextOf(blocks)[x].0;
    assert HasMarker(blocks, t.0, t.1);
    u :| u in regions && Marks(u, (t.0, t.1));
    KindOf(blocks, regions, u, t);
    hide Marks, TextOf;
  }

  lemma ReadRegionBegin(blocks: Blocks, regions: set<Region>, x: nat, scan: Scan)
    requires Outlined(blocks, regions) && x < |TextOf(blocks)| && TextOf(blocks)[x].1.RegionBegin?
    ensures InRegion(blocks, regions, x + 1, Visit(scan, TextOf(blocks)[x].0, TextOf(blocks)[x].1))
  {
    var u := MarkerOf(blocks, regions, x);
    RegionPlaces(blocks, regions, u);
    var scan' := Visit(scan, TextOf(blocks)[x].0, TextOf(blocks)[x].1);
    hide Outlined, Marked, TextOf, PlaceOf;
    assert Current(blocks, u, x + 1);
    assert Reading(blocks, u, x + 1, scan', 0);
  }

  /** A region is complete when its end is read: it is found as it is, and is innermost. */
  lemma ReadRegionEnd(blocks: Blocks, regions: set<Region>, x: nat, scan: Scan)
    requires Outlined(blocks, regions) && x < |TextOf(blocks)| && TextOf(blocks)[x].1.RegionEnd?
    requires InRegion(blocks, regions, x, scan) && scan.region.Some?
    ensures Innermost(regions, Region(scan.region.value, TextOf(blocks)[x].0, scan.coroutines))
  {
    hide Outlined, Marked, TextOf, PlaceOf, Marks, Current, InsideOf;
    var s, k: nat :| s in regions && Marked(blocks, s) && scan.region.value == s.begin && Current(blocks, s, x)
      && Reading(blocks, s, x, scan, k);
    var u := MarkerOf(blocks, regions, x);
    EndIsNotBegin(blocks, regions, u, x);
    ReadsItsOwn(blocks, regions, s, u, x);
    RegionPlaces(blocks, regions, s);
    assert k == |s.coroutines|;
    assert s.coroutines[..k] == s.coroutines;
    forall v | v in regions && v != s
      ensures !InsideOf(v, s)
    {
      InsidePlaces(blocks, regions, v, s);
      RegionPlaces(blocks, regions, v);
      NoBoundsBetween(blocks, regions, s, v, x);
    }
  }

  lemma EndIsNotBegin(blocks: Blocks, regions: set<Region>, u: Region, x: nat)
    requires Outlined(blocks, regions) && u in regions && x < |TextOf(blocks)| && !TextOf(blocks)[x].1.RegionBegin?
    ensures TextOf(blocks)[x].0 != u.begin
  {
    SiteOf(blocks, x);
    assert Marked(blocks, u);
  }

  lemma ReadCoroutineBegin(blocks: Blocks, regions: set<Region>, x: nat, scan: Scan)
    requires Outlined(blocks, regions) && x < |TextOf(blocks)| && TextOf(blocks)[x].1.CoroutineBegin?
    requires InRegion(blocks, regions, x, scan) && scan.region.Some?
    ensures InRegion(blocks, regions, x + 1, Visit(scan, TextOf(blocks)[x].0, TextOf(blocks)[x].1))
  {
    hide Outlined, Marked, TextOf, PlaceOf, Marks, Current;
    var s, k: nat :| s in regions && Marked(blocks, s) && scan.region.value == s.begin && Current(blocks, s, x)
      && Reading(blocks, s, x, scan, k);
    var u := MarkerOf(blocks, regions, x);
    EndIsNotBegin(blocks, regions, u, x);
    ReadsItsOwn(blocks, regions, s, u, x);
    RegionPlaces(blocks, regions, s);
    StaysCurrent(blocks, s, x);
    var i := ItsBegin(blocks, regions, s, x);
    var scan' := Visit(scan, TextOf(blocks)[x].0, TextOf(blocks)[x].1);
    assert i == k;
    assert Reading(blocks, s, x + 1, scan', k);
  }

  lemma ItsBegin(blocks: Blocks, regions: set<Region>, s: Region, x: nat) returns (i: nat)
    requires Outlined(blocks, regions) && s in regions && Marked(blocks, s) && x < |TextOf(blocks)|
    requires TextOf(blocks)[x].1.CoroutineBegin? && Marks(s, TextOf(blocks)[x].0)
    ensures i < |s.coroutines| && TextOf(blocks)[x].0 == s.coroutines[i].begin
            && PlaceOf(blocks, s.coroutines[i].begin) == x
    ensures TextOf(blocks)[x].1.priority == s.coroutines[i].priority
  {
    SiteOf(blocks, x);
    var t := TextOf(blocks)[x].0;
    KindOf(blocks, regions, s, t);
    i :| 0 <= i < |s.coroutines| && t == s.coroutines[i].begin;
  }

  lemma ItsEnd(blocks: Blocks, regions: set<Region>, s: Region, x: nat) returns (i: nat)
    requires Outlined(blocks, regions) && s in regions && Marked(blocks, s) && x < |TextOf(blocks)|
    requires TextOf(blocks)[x].1.CoroutineEnd? && Marks(s, TextOf(blocks)[x].0)
    ensures i < |s.coroutines| && TextOf(blocks)[x].0 == s.coroutines[i].end
            && PlaceOf(blocks, s.coroutines[i].end) == x
  {
    SiteOf(blocks, x);
    var t := TextOf(blocks)[x].0;
    KindOf(blocks, regions, s, t);
    i :| 0 <= i < |s.coroutines| && t == s.coroutines[i].end;
  }

  lemma ReadCoroutineEnd(blocks: Blocks, regions: set<Region>, x: nat, scan: Scan)
    requires Outlined(blocks, regions) && x < |TextOf(blocks)| && TextOf(blocks)[x].1.CoroutineEnd?
    requires InRegion(blocks, regions, x, scan) && scan.region.Some?
    ensures InRegion(blocks, regions, x + 1, Visit(scan, TextOf(blocks)[x].0, TextOf(blocks)[x].1))
  {
    hide Outlined, Marked, TextOf, PlaceOf, Marks, Current;
    var s, k: nat :| s in regions && Marked(blocks, s) && scan.region.value == s.begin && Current(blocks, s, x)
      && Reading(blocks, s, x, scan, k);
    var u := MarkerOf(blocks, regions, x);
    EndIsNotBegin(blocks, regions, u, x);
    ReadsItsOwn(blocks, regions, s, u, x);
    RegionPlaces(blocks, regions, s);
    StaysCurrent(blocks, s, x);
    var i := ItsEnd(blocks, regions, s, x);
    var scan' := Visit(scan, TextOf(blocks)[x].0, TextOf(blocks)[x].1);
    assert i == k;
    assert scan'.coroutines == s.coroutines[..k + 1];
    assert Reading(blocks, s, x + 1, scan', k + 1);
  }

  lemma ReadOneMore(blocks: Blocks, regions: set<Region>, x: nat, scan: Scan)
    requires Outlined(blocks, regions) && x < |TextOf(blocks)| && InRegion(blocks, regions, x, scan)
             && FoundInnermost(regions, scan)
    ensures var scan' := Visit(scan, TextOf(blocks)[x].0, TextOf(blocks)[x].1);
            InRegion(blocks, regions, x + 1, scan') && FoundInnermost(regions, scan')
  {
    hide Outlined, TextOf, Innermost;
    var stmt := TextOf(blocks)[x].1;
    if stmt.RegionBegin? {
      ReadRegionBegin(blocks, regions, x, scan);
    } else if scan.region.Some? {
      if stmt.RegionEnd? {
        ReadRegionEnd(blocks, regions, x, scan);
      } else if stmt.CoroutineBegin? {
        ReadCoroutineBegin(blocks, regions, x, scan);
      } else if stmt.CoroutineEnd? {
        ReadCoroutineEnd(blocks, regions, x, scan);
      } else {
        ReadOther(blocks, regions, x, scan);
      }
    }
  }

  lemma {:induction false} ReadUpTo(blocks: Blocks, regions: set<Region>, x: nat)
    requires Outlined(blocks, regions) && x <= |TextOf(blocks)|
    ensures InRegion(blocks, regions, x, Scanned(TextOf(blocks)[..x]))
            && FoundInnermost(regions, Scanned(TextOf(blocks)[..x]))
  {
    hide Outlined, TextOf, Innermost, Visit;
    if x > 0 {
      ReadUpTo(blocks, regions, x - 1);
      ReadOneMore(blocks, regions, x - 1, Scanned(TextOf(blocks)[..x - 1]));
      assert TextOf(blocks)[..x][..x - 1] == TextOf(blocks)[..x - 1];
    }
  }

  /** An innermost region's end is the first region marker after its begin. */
  lemma InnermostIsPair(blocks: Blocks, regions: set<Region>, s: Region)
    requires Outlined(blocks, regions) && Innermost(regions, s) && Marked(blocks, s)
    ensures Pair(TextOf(blocks), PlaceOf(blocks, s.begin), PlaceOf(blocks, s.end))
  {
    var p, q := PlaceOf(blocks, s.begin), PlaceOf(blocks, s.end);
    ReadAt(blocks, s.begin);
    ReadAt(blocks, s.end);
    RegionPlaces(blocks, regions, s);
    forall x | p < x < q
      ensures !BoundsRegion(TextOf(blocks)[x].1)
    {
      if BoundsRegion(TextOf(blocks)[x].1) {
        var u := MarkerOf(blocks, regions, x);
        RegionPlaces(blocks, regions, u);
        if u != s {
          TwoRegions(blocks, regions, s, u);
          InsidePlaces(blocks, regions, u, s);
        }
        hide TextOf, PlaceOf, Marked, Marks, Outlined;
      }
    }
  }

  lemma SameBegin(blocks: Blocks, regions: set<Region>, s: Region, u: Region)
    requires Outlined(blocks, regions) && s in regions && u in regions && s.begin == u.begin
    ensures s == u
  {
    if s != u {
      RegionPlaces(blocks, regions, s);
      RegionPlaces(blocks, regions, u);
      TwoRegions(blocks, regions, s, u);
    }
  }

  /** Discovery finds exactly the innermost regions, with their coroutines and priorities. */
  lemma FindsExactly(blocks: Blocks, regions: set<Region>)
    requires Outlined(blocks, regions)
    ensures forall r :: r in Scanned(TextOf(blocks)).regions <==> Innermost(regions, r)
  {
    var text := TextOf(blocks);
    var found := Scanned(text).regions;
    ReadUpTo(blocks, regions, |text|);
    assert text[..|text|] == text;
    FindsInnermost(text);
    forall r | Innermost(regions, r)
      ensures r in found
    {
      assert Marked(blocks, r);
      InnermostIsPair(blocks, regions, r);
      ReadAt(blocks, r.begin);
      ReadAt(blocks, r.end);
      assert Found(found, r.begin, r.end);
      var i :| 0 <= i < |found| && found[i].begin == r.begin && found[i].end == r.end;
      assert Innermost(regions, found[i]);
      SameBegin(blocks, regions, r, found[i]);
    }
  }

  /** The scan over a body's statements. */
  method FindRegions(blocks: Blocks) returns (regions: seq<Region>)
    ensures regions == Scanned(TextOf(blocks)).regions
    ensures forall all :: Outlined(blocks, all) ==> forall r :: r in regions <==> Innermost(all, r)
  {
    hide Outlined, Innermost;
    regions := [];
    var region: Option<Site> := None;
    var coroutines: seq<Coroutine> := [];
    var begin: Option<Site> := None;
    var priority: Option<nat> := None;
    for bb := 0 to |blocks|
      invariant Scan(regions, region, coroutines, begin, priority) == Scanned(TextOf(blocks[..bb]))
    {
      var stmts := blocks[bb].stmts;
      StartLine(blocks, bb);
      for idx := 0 to |stmts|
        invariant Scan(regions, region, coroutines, begin, priority) == Scanned(TextUpTo(blocks, bb, idx))
      {
        ReadOne(blocks, bb, idx);
        match stmts[idx]
        case RegionBegin =>
          region := Some((bb, idx));
          coroutines := [];
        case RegionEnd =>
          if region.Some? {
            regions := regions + [Region(region.value, (bb, idx), coroutines)];
            region := None;
            coroutines := [];
          }
        case CoroutineBegin(p) =>
          begin := Some((bb, idx));
          priority := p;
        case CoroutineEnd =>
          if begin.Some? {
            coroutines := coroutines + [Coroutine(begin.value, (bb, idx), priority)];
            begin := None;
            priority := None;
          }
        case _ =>
      }
      EndLine(blocks, bb);
    }
    assert blocks[..|blocks|] == blocks;
    forall all | Outlined(blocks, all)
      ensures forall r :: r in regions <==> Innermost(all, r)
    {
      FindsExactly(blocks, all);
    }
  }

  lemma InsideIsTransitive(s: Region, u: Region, v: Region)
    requires InsideOf(s, u) && InsideOf(u, v) && InSequence(u)
    ensures InsideOf(s, v)
  {
    var j: nat :| j < |u.coroutines| && InsidePart(s, u, j);
    var k: nat :| k < |v.coroutines| && InsidePart(u, v, k);
    assert InsidePart(s, v, k);
  }

  /** Every region is innermost or has an innermost one inside it. */
  lemma {:induction false} SomeInnermost(blocks: Blocks, regions: set<Region>, s: Region) returns (u: Region)
    requires Outlined(blocks, regions) && s in regions && Marked(blocks, s)
    ensures Innermost(regions, u) && (u == s || InsideOf(u, s))
    decreases PlaceOf(blocks, s.end) - PlaceOf(blocks, s.begin)
  {
    u := s;
    if !Innermost(regions, s) {
      var v :| v in regions && v != s && InsideOf(v, s);
      InsidePlaces(blocks, regions, v, s);
      RegionPlaces(blocks, regions, v);
      RegionPlaces(blocks, regions, s);
      u := SomeInnermost(blocks, regions, v);
      assert InSequence(v);
      if u != v {
        InsideIsTransitive(u, v, s);
      }
    }
  }
}
