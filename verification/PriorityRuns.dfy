/** What strict priority promises. */
module PriorityRuns {
  import opened Cfg
  import opened Coroutines
  import opened Regions
  import opened Executors
  import opened Guards
  import opened Priority

  // ── The scan ─────────────────────────────────────────────────────────

  /** A band and a member of it. */
  type Place = (nat, nat)

  predicate IsPlace(bands: Bands, p: Place) {
    p.0 < |bands| && p.1 < |bands[p.0]|
  }

  function Places(b: nat, lo: nat, hi: nat): (r: seq<Place>)
    requires lo <= hi
    ensures |r| == hi - lo && forall i :: 0 <= i < |r| ==> r[i] == (b, lo + i)
  {
    seq(hi - lo, i requires 0 <= i < hi - lo => (b, lo + i))
  }

  predicate LastsOk(bands: Bands, lasts: seq<int>) {
    |lasts| == |bands| && forall b :: 0 <= b < |bands| ==> -1 <= lasts[b] < |bands[b]|
  }

  /** A band's members in the order a scan visits them: those after the one that ran last,
      then the others, that one at the end. */
  function BandOrder(bands: Bands, lasts: seq<int>, b: nat): seq<Place>
    requires LastsOk(bands, lasts) && b < |bands|
  {
    Places(b, lasts[b] + 1, |bands[b]|) + Places(b, 0, lasts[b] + 1)
  }

  function ScanFrom(bands: Bands, lasts: seq<int>, b: nat): seq<Place>
    requires LastsOk(bands, lasts)
    decreases |bands| - b
  {
    if b >= |bands| then [] else BandOrder(bands, lasts, b) + ScanFrom(bands, lasts, b + 1)
  }

  /** Where the scheduler is: the member of each band that ran last, the places this scan has
      yet to visit, and which coroutines have blocked in this scan. */
  datatype Scan = Scan(lasts: seq<int>, rest: seq<Place>, atTop: bool, passed: seq<nat>)

  type Prio<U> = Ref<U, Scan>

  function NoneRan(bands: Bands): (lasts: seq<int>)
    ensures |lasts| == |bands| && forall b :: 0 <= b < |bands| ==> lasts[b] == -1
  {
    seq(|bands|, b => -1)
  }

  function FirstScan(bands: Bands): Scan {
    Scan(NoneRan(bands), [], true, [])
  }

  predicate AllEnded(pos: seq<Pos>) {
    forall i :: 0 <= i < |pos| ==> pos[i].Done?
  }

  function PrioDecide<U>(region: Region, bands: Bands, report: bool, r: Prio<U>): Prio<U>
    requires LastsOk(bands, r.sched.lasts)
  {
    var s := r.sched;
    if s.atTop then r.(progress := false, sched := Scan(s.lasts, ScanFrom(bands, s.lasts, 0), false, []))
    else if |s.rest| == 0 then
      if AllEnded(r.pos) then r.(ctl := Outside(region.end.0))
      else if r.progress || !report then r.(sched := s.(atTop := true))
      else r.(ctl := Halted(Deadlock))
    else if !IsPlace(bands, s.rest[0]) || bands[s.rest[0].0][s.rest[0].1] >= |r.pos| then r
    else
      var j := bands[s.rest[0].0][s.rest[0].1];
      if r.pos[j].Done? then r.(sched := s.(rest := s.rest[1..])) else r.(ctl := Polling(j))
  }

  /** One that blocked passes the turn on; anything else starts a new scan. */
  function PrioAfter<U>(bands: Bands, r: Prio<U>): Prio<U>
    requires r.ctl.Polled? && LastsOk(bands, r.sched.lasts)
  {
    var s := r.sched;
    if |s.rest| == 0 || !IsPlace(bands, s.rest[0]) then r
    else if r.ctl.res.Blocked?
    then r.(ctl := Deciding, sched := s.(rest := s.rest[1..], passed := s.passed + [r.ctl.j]))
    else r.(ctl := Deciding, sched := Scan(s.lasts[s.rest[0].0 := s.rest[0].1], [], true, []))
  }

  function PrioStep<U>(sem: Sem<U>, src: Blocks, region: Region, bands: Bands, report: bool, r: Prio<U>): Prio<U> {
    match r.ctl
    case Outside(b) => OutsideStep(sem, src, region, r, FirstScan(bands), b)
    case Deciding => if LastsOk(bands, r.sched.lasts) then PrioDecide(region, bands, report, r) else r
    case Polled(_, _) => if LastsOk(bands, r.sched.lasts) then PrioAfter(bands, r) else r
    case Halted(_) => r
    case _ => PollStep(sem, src, region, r)
  }

  function PrioRun<U>(sem: Sem<U>, src: Blocks, region: Region, bands: Bands, report: bool, r: Prio<U>, n: nat): Prio<U>
    decreases n
  {
    if n == 0 then r else PrioRun(sem, src, region, bands, report, PrioStep(sem, src, region, bands, report, r), n - 1)
  }

  function PrioStart<U>(bands: Bands, b: BlockId, w: World<U>): Prio<U> {
    Ref(Outside(b), [], false, FirstScan(bands), w)
  }

  // ── The order of a scan ──────────────────────────────────────────────

  /** `order` visits every place of the bands from `b` on once, band by band, and in each band
      the member that ran last at the end. */
  ghost predicate FairOrder(bands: Bands, lasts: seq<int>, b: nat, order: seq<Place>)
    requires LastsOk(bands, lasts)
  {
    && (forall i :: 0 <= i < |order| ==> IsPlace(bands, order[i]) && b <= order[i].0)
    && (forall p: Place :: IsPlace(bands, p) && b <= p.0 ==> p in order)
    && (forall i, j :: 0 <= i < j < |order| ==> order[i] != order[j] && order[i].0 <= order[j].0)
    && (forall i, j :: 0 <= i < j < |order| && order[i].1 == lasts[order[i].0] ==> order[i].0 < order[j].0)
  }

  /** The member a scan finds at position `i` of a band. */
  function NthIn(n: nat, last: int, i: nat): nat
    requires -1 <= last < n && i < n
  {
    if last + 1 + i < n then last + 1 + i else last + 1 + i - n
  }

  lemma BandIsFair(bands: Bands, lasts: seq<int>, b: nat)
    requires LastsOk(bands, lasts) && b < |bands|
    ensures var order := BandOrder(bands, lasts, b); var n := |bands[b]|;
            |order| == n && forall i :: 0 <= i < n ==> order[i] == (b, NthIn(n, lasts[b], i))
  {
    var n, l := |bands[b]|, lasts[b];
    var x, y := Places(b, l + 1, n), Places(b, 0, l + 1);
    assert BandOrder(bands, lasts, b) == x + y && |x| == n - l - 1;
    forall i | 0 <= i < n
      ensures (x + y)[i] == (b, NthIn(n, l, i))
    {
      assert (x + y)[i] == if i < |x| then x[i] else y[i - |x|];
    }
  }

  lemma {:induction false} ScanIsFair(bands: Bands, lasts: seq<int>, b: nat)
    requires LastsOk(bands, lasts) && b <= |bands|
    ensures FairOrder(bands, lasts, b, ScanFrom(bands, lasts, b))
    decreases |bands| - b
  {
    if b < |bands| {
      ScanIsFair(bands, lasts, b + 1);
      BandIsFair(bands, lasts, b);
      FairJoin(bands, lasts, b, BandOrder(bands, lasts, b), ScanFrom(bands, lasts, b + 1));
    }
  }

  lemma FairJoin(bands: Bands, lasts: seq<int>, b: nat, x: seq<Place>, y: seq<Place>)
    requires LastsOk(bands, lasts) && b < |bands| && FairOrder(bands, lasts, b + 1, y)
    requires |x| == |bands[b]| && forall i :: 0 <= i < |x| ==> x[i] == (b, NthIn(|x|, lasts[b], i))
    ensures FairOrder(bands, lasts, b, x + y)
  {
    var order := x + y;
    var n, l := |bands[b]|, lasts[b];
    forall i | 0 <= i < |order|
      ensures IsPlace(bands, order[i]) && b <= order[i].0
      ensures i < |x| ==> order[i].0 == b
      ensures i >= |x| ==> order[i].0 > b && order[i] == y[i - |x|]
    {
    }
    forall p: Place | IsPlace(bands, p) && b <= p.0
      ensures p in order
    {
      if p.0 == b {
        var i := if p.1 > l then p.1 - l - 1 else p.1 + n - l - 1;
        assert NthIn(n, l, i) == p.1;
        assert order[i] == p;
      } else {
        assert p in y;
      }
    }
    forall i, j | 0 <= i < j < |order|
      ensures order[i] != order[j] && order[i].0 <= order[j].0
      ensures order[i].1 == lasts[order[i].0] ==> order[i].0 < order[j].0
    {
      if i >= |x| {
        assert order[i] == y[i - |x|] && order[j] == y[j - |x|];
      } else if j < |x| {
        assert order[i] == (b, NthIn(n, l, i)) && order[j] == (b, NthIn(n, l, j));
      }
    }
  }

  // ── What every run keeps ─────────────────────────────────────────────

  /** The member at a place has ended or blocked in this scan. */
  ghost predicate Behind(bands: Bands, pos: seq<Pos>, passed: seq<nat>, p: Place) {
    IsPlace(bands, p) && bands[p.0][p.1] < |pos| && (pos[bands[p.0][p.1]].Done? || bands[p.0][p.1] in passed)
  }

  /** The places a scan has left behind, and those still ahead, are the scan's order. */
  ghost predicate Visited<U>(bands: Bands, r: Prio<U>, visited: seq<Place>)
    requires LastsOk(bands, r.sched.lasts)
  {
    && ScanFrom(bands, r.sched.lasts, 0) == visited + r.sched.rest
    && forall i :: 0 <= i < |visited| ==> Behind(bands, r.pos, r.sched.passed, visited[i])
  }

  ghost predicate Turns<U>(bands: Bands, r: Prio<U>, j: nat) {
    && !r.sched.atTop && |r.sched.rest| > 0 && IsPlace(bands, r.sched.rest[0])
    && bands[r.sched.rest[0].0][r.sched.rest[0].1] == j < |r.pos|
  }

  ghost predicate ScanInv<U>(region: Region, bands: Bands, r: Prio<U>) {
    r.ctl.Outside? || r.ctl.Halted? ||
    (&& |r.pos| == |region.coroutines| && LastsOk(bands, r.sched.lasts)
     && (!r.sched.atTop ==> exists visited :: Visited(bands, r, visited))
     && (match r.ctl
         case Deciding => true
         case Polling(j) => Turns(bands, r, j)
         case Inside(j, _, _) => Turns(bands, r, j) && !r.pos[j].Done?
         case Polled(j, res) => Turns(bands, r, j) && (res.Completed? <==> r.pos[j].Done?)))
  }

  lemma PlaceInRange(region: Region, bands: Bands, p: Place)
    requires BandsOk(region, bands) && IsPlace(bands, p)
    ensures bands[p.0][p.1] < |region.coroutines|
  {
    assert BandOk(region, bands[p.0]);
  }

  lemma VisitOne<U>(region: Region, bands: Bands, r: Prio<U>, r': Prio<U>)
    requires LastsOk(bands, r.sched.lasts) && r'.sched.lasts == r.sched.lasts
    requires exists visited :: Visited(bands, r, visited)
    requires |r.sched.rest| > 0 && r'.sched.rest == r.sched.rest[1..]
    requires |r'.pos| == |r.pos| && forall i :: 0 <= i < |r.pos| && r.pos[i].Done? ==> r'.pos[i].Done?
    requires forall i :: i in r.sched.passed ==> i in r'.sched.passed
    requires Behind(bands, r'.pos, r'.sched.passed, r.sched.rest[0])
    ensures exists visited :: Visited(bands, r', visited)
  {
    var visited :| Visited(bands, r, visited);
    var visited' := visited + [r.sched.rest[0]];
    assert visited' + r'.sched.rest == visited + r.sched.rest;
    forall i | 0 <= i < |visited'|
      ensures Behind(bands, r'.pos, r'.sched.passed, visited'[i])
    {
      if i < |visited| {
        assert Behind(bands, r.pos, r.sched.passed, visited[i]);
      }
    }
    assert Visited(bands, r', visited');
  }

  lemma StayVisited<U>(bands: Bands, r: Prio<U>, r': Prio<U>)
    requires LastsOk(bands, r.sched.lasts) && r'.sched == r.sched
    requires exists visited :: Visited(bands, r, visited)
    requires |r'.pos| == |r.pos| && forall i :: 0 <= i < |r.pos| && r.pos[i].Done? ==> r'.pos[i].Done?
    ensures exists visited :: Visited(bands, r', visited)
  {
    var visited :| Visited(bands, r, visited);
    forall i | 0 <= i < |visited|
      ensures Behind(bands, r'.pos, r'.sched.passed, visited[i])
    {
      assert Behind(bands, r.pos, r.sched.passed, visited[i]);
    }
    assert Visited(bands, r', visited);
  }

  lemma StartVisiting<U>(bands: Bands, r: Prio<U>)
    requires LastsOk(bands, r.sched.lasts) && r.sched.rest == ScanFrom(bands, r.sched.lasts, 0)
    ensures exists visited :: Visited(bands, r, visited)
  {
    assert [] + r.sched.rest == r.sched.rest;
    assert Visited(bands, r, []);
  }

  lemma RestInRange<U>(region: Region, bands: Bands, r: Prio<U>)
    requires BandsOk(region, bands) && LastsOk(bands, r.sched.lasts) && |r.sched.rest| > 0
    requires exists visited :: Visited(bands, r, visited)
    ensures IsPlace(bands, r.sched.rest[0])
    ensures bands[r.sched.rest[0].0][r.sched.rest[0].1] < |region.coroutines|
  {
    var visited :| Visited(bands, r, visited);
    var order := ScanFrom(bands, r.sched.lasts, 0);
    ScanIsFair(bands, r.sched.lasts, 0);
    assert order[|visited|] == r.sched.rest[0];
    PlaceInRange(region, bands, r.sched.rest[0]);
  }

  lemma DecideKeeps<U>(region: Region, bands: Bands, report: bool, r: Prio<U>)
    requires BandsOk(region, bands) && ScanInv(region, bands, r) && r.ctl.Deciding?
    ensures ScanInv(region, bands, PrioDecide(region, bands, report, r))
  {
    hide ScanFrom, Visited, Behind;
    var r' := PrioDecide(region, bands, report, r);
    if r.sched.atTop {
      StartVisiting(bands, r');
    } else if |r.sched.rest| > 0 {
      RestInRange(region, bands, r);
      var p := r.sched.rest[0];
      if r.pos[bands[p.0][p.1]].Done? {
        DoneIsBehind(bands, r.pos, r.sched.passed, p);
        VisitOne(region, bands, r, r');
      } else {
        StayVisited(bands, r, r');
      }
    }
  }

  lemma DoneIsBehind(bands: Bands, pos: seq<Pos>, passed: seq<nat>, p: Place)
    requires IsPlace(bands, p) && bands[p.0][p.1] < |pos| && (pos[bands[p.0][p.1]].Done? || bands[p.0][p.1] in passed)
    ensures Behind(bands, pos, passed, p)
  {
  }

  lemma AfterKeeps<U>(region: Region, bands: Bands, r: Prio<U>)
    requires ScanInv(region, bands, r) && r.ctl.Polled?
    ensures ScanInv(region, bands, PrioAfter(bands, r))
  {
    hide ScanFrom, Visited, Behind;
    var r' := PrioAfter(bands, r);
    if r.ctl.res.Blocked? {
      DoneIsBehind(bands, r'.pos, r'.sched.passed, r.sched.rest[0]);
      VisitOne(region, bands, r, r');
    }
  }

  lemma ScanInvStep<U>(sem: Sem<U>, src: Blocks, region: Region, bands: Bands, report: bool, r: Prio<U>)
    requires BandsOk(region, bands) && ScanInv(region, bands, r)
    ensures ScanInv(region, bands, PrioStep(sem, src, region, bands, report, r))
  {
    hide DoAll, Do, RunFrom, Visited, PrioDecide, PrioAfter, BandsOk;
    match r.ctl
    case Deciding => DecideKeeps(region, bands, report, r);
    case Polled(_, _) => AfterKeeps(region, bands, r);
    case Polling(_) => StayVisited(bands, r, PrioStep(sem, src, region, bands, report, r));
    case Inside(j, b, k) =>
      if b < |src| && k <= |src[b].stmts| {
        RunFromResult(sem, src, region.coroutines[j], r, j, b, k);
        StayVisited(bands, r, PrioStep(sem, src, region, bands, report, r));
      }
    case _ => BandsStart(region, bands);
  }

  lemma BandsStart(region: Region, bands: Bands)
    requires BandsOk(region, bands)
    ensures LastsOk(bands, NoneRan(bands))
  {
    forall b | 0 <= b < |bands|
      ensures |bands[b]| > 0
    {
      assert BandOk(region, bands[b]);
    }
  }

  lemma {:induction false} ScanInvRun<U>(sem: Sem<U>, src: Blocks, region: Region, bands: Bands, report: bool,
                                         r: Prio<U>, n: nat)
    requires BandsOk(region, bands) && ScanInv(region, bands, r)
    ensures ScanInv(region, bands, PrioRun(sem, src, region, bands, report, r, n))
    decreases n
  {
    hide PrioStep, ScanInv, BandsOk;
    if n > 0 {
      ScanInvStep(sem, src, region, bands, report, r);
      ScanInvRun(sem, src, region, bands, report, PrioStep(sem, src, region, bands, report, r), n - 1);
    }
  }

  // ── The promises ─────────────────────────────────────────────────────

  lemma {:induction false} PrioRunAdds<U>(sem: Sem<U>, src: Blocks, region: Region, bands: Bands, report: bool,
                                          r: Prio<U>, m: nat, n: nat)
    ensures PrioRun(sem, src, region, bands, report, r, m + n)
         == PrioRun(sem, src, region, bands, report, PrioRun(sem, src, region, bands, report, r, m), n)
    decreases m
  {
    hide PrioStep;
    if m > 0 {
      PrioRunAdds(sem, src, region, bands, report, PrioStep(sem, src, region, bands, report, r), m - 1, n);
    }
  }

  lemma EarlierIsBehind<U>(region: Region, bands: Bands, r: Prio<U>, p: Place)
    requires BandsOk(region, bands) && LastsOk(bands, r.sched.lasts) && |r.sched.rest| > 0
    requires exists visited :: Visited(bands, r, visited)
    requires IsPlace(bands, p) && p != r.sched.rest[0]
    requires var q := r.sched.rest[0]; p.0 < q.0 || (p.0 == q.0 && q.1 == r.sched.lasts[q.0])
    ensures Behind(bands, r.pos, r.sched.passed, p)
  {
    var visited :| Visited(bands, r, visited);
    var order := ScanFrom(bands, r.sched.lasts, 0);
    ScanIsFair(bands, r.sched.lasts, 0);
    hide ScanFrom, Behind;
    var i :| 0 <= i < |order| && order[i] == p;
    assert order[|visited|] == r.sched.rest[0];
    assert i != |visited|;
    assert i < |visited|;
    assert visited[i] == p;
  }

  /** In step `m` of the run the poll of coroutine `i` ended blocked, and the scan that polled it
      is still under way after `n` steps. */
  ghost predicate BlockedSince<U>(sem: Sem<U>, src: Blocks, region: Region, bands: Bands, report: bool, r: Prio<U>,
                                  m: nat, n: nat, i: nat) {
    && m < n && PrioRun(sem, src, region, bands, report, r, m).ctl == Polled(i, Blocked)
    && forall k :: m < k <= n ==> Scanning(PrioRun(sem, src, region, bands, report, r, k))
  }

  /** In the region, past the top of a scan, and nobody has just run. */
  predicate Scanning<U>(r: Prio<U>) {
    !r.ctl.Outside? && !r.ctl.Halted? && !r.sched.atTop && !(r.ctl.Polled? && !r.ctl.res.Blocked?)
  }

  /** Ended, or blocked in this same scan. */
  ghost predicate EndedOrBlocked<U>(sem: Sem<U>, src: Blocks, region: Region, bands: Bands, report: bool, r: Prio<U>,
                                    n: nat, i: nat) {
    var now := PrioRun(sem, src, region, bands, report, r, n);
    (i < |now.pos| && now.pos[i].Done?) || exists m :: BlockedSince(sem, src, region, bands, report, r, m, n, i)
  }

  /** The scheduler's note of who has passed the turn on is what happened. */
  ghost predicate PassedIsHistory<U>(sem: Sem<U>, src: Blocks, region: Region, bands: Bands, report: bool, r: Prio<U>,
                                     n: nat) {
    var now := PrioRun(sem, src, region, bands, report, r, n);
    Scanning(now) ==> forall i :: i in now.sched.passed ==>
      exists m :: BlockedSince(sem, src, region, bands, report, r, m, n, i)
  }

  lemma OneStepMore<U>(sem: Sem<U>, src: Blocks, region: Region, bands: Bands, report: bool, r: Prio<U>, n: nat)
    ensures PrioRun(sem, src, region, bands, report, r, n + 1)
         == PrioStep(sem, src, region, bands, report, PrioRun(sem, src, region, bands, report, r, n))
  {
    hide PrioStep;
    PrioRunAdds(sem, src, region, bands, report, r, n, 1);
    var now := PrioRun(sem, src, region, bands, report, r, n);
    assert PrioRun(sem, src, region, bands, report, now, 1)
        == PrioRun(sem, src, region, bands, report, PrioStep(sem, src, region, bands, report, now), 0);
  }

  /** Who gets onto the note in a step. */
  lemma PassedGrows<U>(sem: Sem<U>, src: Blocks, region: Region, bands: Bands, report: bool, r: Prio<U>, i: nat)
    requires ScanInv(region, bands, r) && BandsOk(region, bands)
    requires var r' := PrioStep(sem, src, region, bands, report, r); Scanning(r') && i in r'.sched.passed
    ensures r.ctl == Polled(i, Blocked) || (Scanning(r) && i in r.sched.passed)
  {
    hide DoAll, Do, RunFrom, Visited, ScanFrom, BandsOk;
    if r.ctl.Inside? && r.ctl.b < |src| && r.ctl.k <= |src[r.ctl.b].stmts| {
      RunFromResult(sem, src, region.coroutines[r.ctl.j], r, r.ctl.j, r.ctl.b, r.ctl.k);
    }
  }

  lemma {:induction false} PassedRun<U>(sem: Sem<U>, src: Blocks, region: Region, bands: Bands, report: bool,
                                        r: Prio<U>, n: nat)
    requires BandsOk(region, bands) && ScanInv(region, bands, r) && (Scanning(r) ==> r.sched.passed == [])
    ensures PassedIsHistory(sem, src, region, bands, report, r, n)
    decreases n
  {
    hide PrioStep, PrioRun, ScanInv, BandsOk;
    if n == 0 {
      NoSteps(sem, src, region, bands, report, r);
    } else {
      PassedRun(sem, src, region, bands, report, r, n - 1);
      OneStepMore(sem, src, region, bands, report, r, n - 1);
      ScanInvRun(sem, src, region, bands, report, r, n - 1);
      var was, now := PrioRun(sem, src, region, bands, report, r, n - 1),
        PrioRun(sem, src, region, bands, report, r, n);
      forall i | Scanning(now) && i in now.sched.passed
        ensures exists m :: BlockedSince(sem, src, region, bands, report, r, m, n, i)
      {
        PassedGrows(sem, src, region, bands, report, was, i);
        if was.ctl == Polled(i, Blocked) {
          assert BlockedSince(sem, src, region, bands, report, r, n - 1, n, i);
        } else {
          var m :| BlockedSince(sem, src, region, bands, report, r, m, n - 1, i);
          assert BlockedSince(sem, src, region, bands, report, r, m, n, i);
        }
      }
    }
  }

  lemma NoSteps<U>(sem: Sem<U>, src: Blocks, region: Region, bands: Bands, report: bool, r: Prio<U>)
    ensures PrioRun(sem, src, region, bands, report, r, 0) == r
  {
  }

  /** Strict priority. When a coroutine is about to run, every coroutine of a lower number, or of
      any number below `u32::MAX` if this one has none, has ended or has blocked in this same
      scan. */
  lemma EarlierBandsAreBlocked<U>(sem: Sem<U>, src: Blocks, region: Region, bands: Bands, report: bool, b: BlockId,
                                  w: World<U>, n: nat, i: nat)
    requires BandsOk(region, bands) && i < |region.coroutines| && region.coroutines[i].priority.Some?
    ensures var start := PrioStart(bands, b, w);
            var r := PrioRun(sem, src, region, bands, report, start, n);
            r.ctl.Polling? ==>
              && r.ctl.j < |region.coroutines| == |r.pos|
              && var mine, theirs := region.coroutines[r.ctl.j].priority, region.coroutines[i].priority.value;
                 ((if mine.Some? then theirs < mine.value else theirs < U32_MAX) ==>
                    EndedOrBlocked(sem, src, region, bands, report, start, n, i))
  {
    var start := PrioStart(bands, b, w);
    var r := PrioRun(sem, src, region, bands, report, start, n);
    ScanInvRun(sem, src, region, bands, report, start, n);
    PassedRun(sem, src, region, bands, report, start, n);
    hide PrioRun, ScanFrom, Visited, BlockedSince;
    if r.ctl.Polling? && Outranks(region, i, r.ctl.j) {
      var q := r.sched.rest[0];
      var p := PlaceOf(region, bands, i);
      LowestFirst(region, bands);
      EarlierIsBehind(region, bands, r, p);
    }
  }

  lemma PlaceOf(region: Region, bands: Bands, i: nat) returns (p: Place)
    requires BandsOk(region, bands) && i < |region.coroutines|
    ensures IsPlace(bands, p) && bands[p.0][p.1] == i
  {
    assert InBands(bands, i);
    var b :| 0 <= b < |bands| && i in bands[b];
    var k :| 0 <= k < |bands[b]| && bands[b][k] == i;
    p := (b, k);
  }

  /** A poll of coroutine `i` has just ended, and not because it is blocked. */
  predicate JustRan<U>(r: Prio<U>, i: nat) {
    r.ctl.Polled? && r.ctl.j == i && !r.ctl.res.Blocked?
  }

  /** Coroutine `i` ran last in its band: in step `m` it did, and after that, up to step `n`,
      control stayed in the region and nobody did that takes turns with it. */
  ghost predicate RanLast<U>(sem: Sem<U>, src: Blocks, region: Region, bands: Bands, report: bool, r: Prio<U>, m: nat,
                             n: nat, i: nat)
    requires i < |region.coroutines|
  {
    && m < n && JustRan(PrioRun(sem, src, region, bands, report, r, m), i)
    && forall k :: m < k < n ==>
         var now := PrioRun(sem, src, region, bands, report, r, k);
         && !now.ctl.Outside?
         && forall j :: 0 <= j < |region.coroutines| && TakeTurns(region, i, j) ==> !JustRan(now, j)
  }

  /** What a step does to the scheduler's note of who ran last in a band. */
  lemma LastsMove<U>(sem: Sem<U>, src: Blocks, region: Region, bands: Bands, report: bool, r: Prio<U>, p: Place)
    requires BandsOk(region, bands) && ScanInv(region, bands, r) && IsPlace(bands, p)
    requires !r.ctl.Outside? && !r.ctl.Halted?
    ensures var r' := PrioStep(sem, src, region, bands, report, r);
            && r'.sched.lasts != [] && |r'.sched.lasts| == |bands|
            && (JustRan(r, bands[p.0][p.1]) ==> r'.sched.lasts[p.0] == p.1)
            && ((forall l :: 0 <= l < |bands[p.0]| ==> !JustRan(r, bands[p.0][l])) ==>
                  r'.sched.lasts[p.0] == r.sched.lasts[p.0])
  {
    hide DoAll, Do, RunFrom, Visited, ScanFrom, BandsOk;
    if r.ctl.Inside? && r.ctl.b < |src| && r.ctl.k <= |src[r.ctl.b].stmts| {
      RunFromResult(sem, src, region.coroutines[r.ctl.j], r, r.ctl.j, r.ctl.b, r.ctl.k);
    } else if JustRan(r, bands[p.0][p.1]) {
      var q := r.sched.rest[0];
      OnePlace(region, bands, p.0, p.1, q.0, q.1);
    }
  }

  lemma {:induction false} LastIs<U>(sem: Sem<U>, src: Blocks, region: Region, bands: Bands, report: bool, r: Prio<U>,
                                     m: nat, n: nat, p: Place)
    requires BandsOk(region, bands) && ScanInv(region, bands, r) && IsPlace(bands, p)
    requires bands[p.0][p.1] < |region.coroutines|
    requires RanLast(sem, src, region, bands, report, r, m, n, bands[p.0][p.1])
    ensures var now := PrioRun(sem, src, region, bands, report, r, n);
            now.ctl.Outside? || now.ctl.Halted? || (|now.sched.lasts| == |bands| && now.sched.lasts[p.0] == p.1)
    decreases n
  {
    hide PrioStep, PrioRun, ScanInv, BandsOk, TakeTurns;
    var i := bands[p.0][p.1];
    var was := PrioRun(sem, src, region, bands, report, r, n - 1);
    OneStepMore(sem, src, region, bands, report, r, n - 1);
    ScanInvRun(sem, src, region, bands, report, r, n - 1);
    if was.ctl.Halted? {
      HaltedStays(sem, src, region, bands, report, was);
    } else {
      LastsMove(sem, src, region, bands, report, was, p);
      if m < n - 1 {
        assert RanLast(sem, src, region, bands, report, r, m, n - 1, i);
        LastIs(sem, src, region, bands, report, r, m, n - 1, p);
        forall l: nat | l < |bands[p.0]|
          ensures !JustRan(was, bands[p.0][l])
        {
          SharesBandIff(region, bands, p.0, p.1, p.0, l);
        }
      }
    }
  }

  lemma HaltedStays<U>(sem: Sem<U>, src: Blocks, region: Region, bands: Bands, report: bool, r: Prio<U>)
    requires r.ctl.Halted?
    ensures PrioStep(sem, src, region, bands, report, r) == r
  {
  }

  /** Equal priorities take turns, unless a tie at `u32::MAX` comes between them. When the one of
      them that ran last is about to run again, every other has ended or has blocked in this same
      scan. */
  lemma LastGoesLast<U>(sem: Sem<U>, src: Blocks, region: Region, bands: Bands, report: bool, b: BlockId, w: World<U>,
                        m: nat, n: nat, i: nat)
    requires BandsOk(region, bands) && i < |region.coroutines|
    ensures var start := PrioStart(bands, b, w);
            var r := PrioRun(sem, src, region, bands, report, start, n);
            r.ctl.Polling? ==>
              && r.ctl.j < |region.coroutines| == |r.pos|
              && (RanLast(sem, src, region, bands, report, start, m, n, r.ctl.j) && i != r.ctl.j
                  && TakeTurns(region, i, r.ctl.j) ==>
                    EndedOrBlocked(sem, src, region, bands, report, start, n, i))
  {
    var start := PrioStart(bands, b, w);
    var r := PrioRun(sem, src, region, bands, report, start, n);
    ScanInvRun(sem, src, region, bands, report, start, n);
    PassedRun(sem, src, region, bands, report, start, n);
    hide PrioRun, ScanFrom, Visited, BlockedSince, RanLast, TakeTurns;
    if r.ctl.Polling? && i != r.ctl.j && TakeTurns(region, i, r.ctl.j)
      && RanLast(sem, src, region, bands, report, start, m, n, r.ctl.j) {
      var q := r.sched.rest[0];
      var p := PlaceOf(region, bands, i);
      SharesBandIff(region, bands, p.0, p.1, q.0, q.1);
      LastIs(sem, src, region, bands, report, start, m, n, q);
      EarlierIsBehind(region, bands, r, p);
    }
  }

  lemma NothingAhead<U>(region: Region, bands: Bands, r: Prio<U>, i: nat)
    requires BandsOk(region, bands) && LastsOk(bands, r.sched.lasts) && r.sched.rest == [] && i < |region.coroutines|
    requires exists visited :: Visited(bands, r, visited)
    ensures i < |r.pos| && (r.pos[i].Done? || i in r.sched.passed)
  {
    var visited :| Visited(bands, r, visited);
    ScanIsFair(bands, r.sched.lasts, 0);
    hide ScanFrom, Behind, BandsOk;
    var p := PlaceOf(region, bands, i);
    var order := ScanFrom(bands, r.sched.lasts, 0);
    var at :| 0 <= at < |order| && order[at] == p;
    assert visited + r.sched.rest == visited;
    assert Behind(bands, r.pos, r.sched.passed, visited[at]);
    BehindIs(bands, r.pos, r.sched.passed, p);
  }

  /** At the end of a scan every coroutine has ended or blocked in it. */
  lemma EndOfScan<U>(sem: Sem<U>, src: Blocks, region: Region, bands: Bands, report: bool, b: BlockId, w: World<U>,
                     n: nat, i: nat)
    requires BandsOk(region, bands) && i < |region.coroutines|
    ensures var r := PrioRun(sem, src, region, bands, report, PrioStart(bands, b, w), n);
            r.ctl.Deciding? && !r.sched.atTop && r.sched.rest == [] ==>
              && |r.pos| == |region.coroutines| && (r.pos[i].Done? || i in r.sched.passed)
              && EndedOrBlocked(sem, src, region, bands, report, PrioStart(bands, b, w), n, i)
  {
    hide PrioRun, Visited, BandsOk, BlockedSince;
    var r := PrioRun(sem, src, region, bands, report, PrioStart(bands, b, w), n);
    ScanInvRun(sem, src, region, bands, report, PrioStart(bands, b, w), n);
    PassedRun(sem, src, region, bands, report, PrioStart(bands, b, w), n);
    if r.ctl.Deciding? && !r.sched.atTop && r.sched.rest == [] {
      NothingAhead(region, bands, r, i);
    }
  }

  /** The decision that is a report. */
  lemma WhenReported<U>(sem: Sem<U>, src: Blocks, region: Region, bands: Bands, b: BlockId, w: World<U>, n: nat)
    requires BandsOk(region, bands)
    ensures var r := PrioRun(sem, src, region, bands, true, PrioStart(bands, b, w), n);
            r.ctl.Deciding? ==>
              (PrioStep(sem, src, region, bands, true, r).ctl == Halted(Deadlock) <==>
                 (!r.sched.atTop && r.sched.rest == [] && !r.progress && !AllEnded(r.pos)))
  {
    ScanInvRun(sem, src, region, bands, true, PrioStart(bands, b, w), n);
    hide PrioRun, ScanFrom, Behind, Visited, AllEnded;
  }

  lemma BehindIs(bands: Bands, pos: seq<Pos>, passed: seq<nat>, p: Place)
    requires Behind(bands, pos, passed, p)
    ensures IsPlace(bands, p) && bands[p.0][p.1] < |pos| && (pos[bands[p.0][p.1]].Done? || bands[p.0][p.1] in passed)
  {
  }

  // ── Deadlock reports ─────────────────────────────────────────────────

  /** As long as a scan has passed no guard, whoever blocked in it stands at a shut guard. */
  ghost predicate PassedAreShut<U>(sem: Sem<U>, src: Blocks, r: Prio<U>) {
    r.ctl.Outside? || r.ctl.Halted? ||
    (!r.progress && !r.sched.atTop && !(r.ctl.Polled? && !r.ctl.res.Blocked?) ==>
       && (forall i :: i in r.sched.passed ==> i < |r.pos| && AtClosedGuard(sem, src, r.pos[i], r.w.u))
       && (r.ctl.Polled? ==> r.ctl.j < |r.pos| && AtClosedGuard(sem, src, r.pos[r.ctl.j], r.w.u)))
  }

  lemma ShutStep<U(!new)>(sem: Sem<U>, src: Blocks, region: Region, bands: Bands, report: bool, r: Prio<U>)
    requires ChannelsOnly(sem) && NoBareRecv(src) && PassedAreShut(sem, src, r) && ScanInv(region, bands, r)
    ensures PassedAreShut(sem, src, PrioStep(sem, src, region, bands, report, r))
  {
    hide DoAll, Do, RunFrom, ChannelsOnly, NoBareRecv, AtClosedGuard, Visited;
    if r.ctl.Inside? {
      var j, b, k := r.ctl.j, r.ctl.b, r.ctl.k;
      if b < |src| && k <= |src[b].stmts| {
        var r' := RunFrom(sem, src, region.coroutines[j], r, j, b, k);
        RunFromQuiet(sem, src, region.coroutines[j], r, j, b, k);
        RunFromResult(sem, src, region.coroutines[j], r, j, b, k);
        if !r'.progress && !(r'.ctl.Polled? && r'.ctl.res.Yielded?) {
          forall i | i in r.sched.passed && i < |r.pos| && i != j && AtClosedGuard(sem, src, r.pos[i], r.w.u)
            ensures AtClosedGuard(sem, src, r'.pos[i], r'.w.u)
          {
            ShutStays(sem, src, r.pos[i], r.w.u, r'.w.u);
          }
          if AtClosedGuard(sem, src, r.pos[j], r.w.u) {
            ShutStays(sem, src, r.pos[j], r.w.u, r'.w.u);
          }
        }
      }
    }
  }

  lemma ShutStays<U>(sem: Sem<U>, src: Blocks, p: Pos, u: U, u': U)
    requires AtClosedGuard(sem, src, p, u) && SameReady(sem, u, u')
    ensures AtClosedGuard(sem, src, p, u')
  {
  }

  lemma {:induction false} ShutRun<U(!new)>(sem: Sem<U>, src: Blocks, region: Region, bands: Bands, report: bool,
                                            r: Prio<U>, n: nat)
    requires ChannelsOnly(sem) && NoBareRecv(src) && BandsOk(region, bands)
    requires PassedAreShut(sem, src, r) && ScanInv(region, bands, r)
    ensures PassedAreShut(sem, src, PrioRun(sem, src, region, bands, report, r, n))
    decreases n
  {
    hide PrioStep, ScanInv, BandsOk, PassedAreShut, ChannelsOnly, NoBareRecv;
    if n > 0 {
      ShutStep(sem, src, region, bands, report, r);
      ScanInvStep(sem, src, region, bands, report, r);
      ShutRun(sem, src, region, bands, report, PrioStep(sem, src, region, bands, report, r), n - 1);
    }
  }

  /** When the priority loop reports, every coroutine that has not ended stands at a shut
      guard, and polling it would do nothing. Ended coroutines do not hide a deadlock here. */
  lemma PriorityReportIsSound<U(!new)>(sem: Sem<U>, src: Blocks, region: Region, bands: Bands, b: BlockId, w: World<U>,
                                       n: nat, i: nat)
    requires ChannelsOnly(sem) && NoBareRecv(src) && BandsOk(region, bands) && i < |region.coroutines|
    ensures var r := PrioRun(sem, src, region, bands, true, PrioStart(bands, b, w), n);
            r.ctl.Deciding? && PrioStep(sem, src, region, bands, true, r).ctl == Halted(Deadlock) ==>
              && |r.pos| == |region.coroutines|
              && (r.pos[i].Done? ||
                  (&& AtClosedGuard(sem, src, r.pos[i], r.w.u)
                   && PollStep(sem, src, region, PollStep(sem, src, region, r.(ctl := Polling(i))))
                     == r.(ctl := Polled(i, Blocked))))
  {
    hide PrioRun, BandsOk, ChannelsOnly, NoBareRecv, ScanInv, AtClosedGuard, PollStep;
    var r := PrioRun(sem, src, region, bands, true, PrioStart(bands, b, w), n);
    WhenReported(sem, src, region, bands, b, w, n);
    EndOfScan(sem, src, region, bands, true, b, w, n, i);
    StartIsFine(sem, src, region, bands, b, w);
    ShutRun(sem, src, region, bands, true, PrioStart(bands, b, w), n);
    if r.ctl.Deciding? && PrioStep(sem, src, region, bands, true, r).ctl == Halted(Deadlock) && !r.pos[i].Done? {
      ShutPoll(sem, src, region, r, i);
    }
  }

  lemma StartIsFine<U>(sem: Sem<U>, src: Blocks, region: Region, bands: Bands, b: BlockId, w: World<U>)
    ensures ScanInv(region, bands, PrioStart(bands, b, w)) && PassedAreShut(sem, src, PrioStart(bands, b, w))
  {
  }

  lemma ShutPoll<U, S>(sem: Sem<U>, src: Blocks, region: Region, r: Ref<U, S>, i: nat)
    requires i < |r.pos| == |region.coroutines| && AtClosedGuard(sem, src, r.pos[i], r.w.u)
    ensures PollStep(sem, src, region, PollStep(sem, src, region, r.(ctl := Polling(i))))
            == r.(ctl := Polled(i, Blocked))
  {
    var b, k := r.pos[i].b, r.pos[i].k;
    ShutRunFrom(sem, src, region.coroutines[i], r.(ctl := Inside(i, b, k)), i, b, k);
  }

  // ── Which deadlocks are reported ─────────────────────────────────────

  /** The scheduler is about to begin a scan. */
  ghost predicate AtTop<U>(region: Region, bands: Bands, r: Prio<U>) {
    r.ctl.Deciding? && r.sched.atTop && |r.pos| == |region.coroutines| && LastsOk(bands, r.sched.lasts)
  }

  /** In a stuck region nothing moves: no coroutine, no guard, nothing of the user's. */
  ghost predicate Still<U>(region: Region, bands: Bands, pos: seq<Pos>, w: World<U>, r: Prio<U>) {
    && ScanInv(region, bands, r) && r.pos == pos && r.w == w
    && match r.ctl
       case Deciding => r.sched.atTop || !r.progress
       case Polling(j) => pos[j].At? && !r.progress
       case Inside(j, b, k) => pos[j] == At(b, k) && !r.progress
       case Polled(_, res) => res.Blocked? && !r.progress
       case _ => false
  }

  lemma StillStep<U>(sem: Sem<U>, src: Blocks, region: Region, bands: Bands, report: bool, pos: seq<Pos>, w: World<U>,
                     r: Prio<U>)
    requires BandsOk(region, bands) && Stuck(sem, src, pos, w.u) && Still(region, bands, pos, w, r)
    ensures var r' := PrioStep(sem, src, region, bands, report, r);
            Still(region, bands, pos, w, r')
            || (report && r'.ctl == Halted(Deadlock) && r.ctl.Deciding? && !r.sched.atTop && r.sched.rest == [])
  {
    ScanInvStep(sem, src, region, bands, report, r);
    hide DoAll, Do, RunFrom, Visited, ScanFrom, BandsOk, AtClosedGuard;
    if r.ctl.Inside? {
      ShutRunFrom(sem, src, region.coroutines[r.ctl.j], r, r.ctl.j, r.ctl.b, r.ctl.k);
    } else if r.ctl.Deciding? && !r.sched.atTop && |r.sched.rest| > 0 {
      RestInRange(region, bands, r);
    }
  }

  /** How many steps a scan still takes, at most. */
  function StepsLeft<U>(r: Prio<U>): int {
    4 * |r.sched.rest| -
    match r.ctl
    case Polling(_) => 1
    case Inside(_, _, _) => 2
    case Polled(_, _) => 3
    case _ => 0
  }

  /** From within a scan of a stuck region, the loop comes to the scan's end and reports. */
  lemma {:induction false} ScanReports<U>(sem: Sem<U>, src: Blocks, region: Region, bands: Bands, pos: seq<Pos>,
                                          w: World<U>, r: Prio<U>)
    returns (n: nat)
    requires BandsOk(region, bands) && Stuck(sem, src, pos, w.u) && Still(region, bands, pos, w, r) && !r.sched.atTop
    ensures PrioRun(sem, src, region, bands, true, r, n).ctl == Halted(Deadlock)
    decreases StepsLeft(r) + 4
  {
    var r' := PrioStep(sem, src, region, bands, true, r);
    assert PrioRun(sem, src, region, bands, true, r, 1) == PrioRun(sem, src, region, bands, true, r', 0);
    StillStep(sem, src, region, bands, true, pos, w, r);
    if r'.ctl == Halted(Deadlock) {
      n := 1;
    } else {
      ScanGoesOn(sem, src, region, bands, pos, w, r);
      hide PrioStep, Still, BandsOk, Stuck;
      n := ScanReports(sem, src, region, bands, pos, w, r');
      n := n + 1;
    }
  }

  lemma ScanGoesOn<U>(sem: Sem<U>, src: Blocks, region: Region, bands: Bands, pos: seq<Pos>, w: World<U>, r: Prio<U>)
    requires BandsOk(region, bands) && Stuck(sem, src, pos, w.u) && Still(region, bands, pos, w, r) && !r.sched.atTop
    ensures var r' := PrioStep(sem, src, region, bands, true, r);
            r'.ctl == Halted(Deadlock) || (!r'.sched.atTop && StepsLeft(r') < StepsLeft(r))
    ensures StepsLeft(r) + 4 >= 0
  {
    hide DoAll, Do, RunFrom, Visited, ScanFrom, BandsOk, AtClosedGuard;
    if r.ctl.Inside? {
      ShutRunFrom(sem, src, region.coroutines[r.ctl.j], r, r.ctl.j, r.ctl.b, r.ctl.k);
    } else if r.ctl.Deciding? && |r.sched.rest| > 0 {
      RestInRange(region, bands, r);
    }
  }

  lemma {:induction false} StillWithoutReport<U>(sem: Sem<U>, src: Blocks, region: Region, bands: Bands,
                                                 pos: seq<Pos>, w: World<U>, r: Prio<U>, n: nat)
    requires BandsOk(region, bands) && Stuck(sem, src, pos, w.u) && Still(region, bands, pos, w, r)
    ensures Still(region, bands, pos, w, PrioRun(sem, src, region, bands, false, r, n))
    decreases n
  {
    hide PrioStep, Still, BandsOk, Stuck;
    if n > 0 {
      StillStep(sem, src, region, bands, false, pos, w, r);
      StillWithoutReport(sem, src, region, bands, pos, w, PrioStep(sem, src, region, bands, false, r), n - 1);
    }
  }

  /** Every deadlock is reported. From the top of a scan in which every coroutine that has not
      ended stands at a shut guard, and one has not ended, the loop ends in a report if and
      only if the host takes reports. Coroutines that have ended do not matter. */
  lemma ReportedIff<U>(sem: Sem<U>, src: Blocks, region: Region, bands: Bands, report: bool, r: Prio<U>)
    requires BandsOk(region, bands) && AtTop(region, bands, r) && Stuck(sem, src, r.pos, r.w.u)
    ensures (exists n: nat :: PrioRun(sem, src, region, bands, report, r, n).ctl == Halted(Deadlock)) <==> report
  {
    assert Still(region, bands, r.pos, r.w, r);
    if report {
      var r' := PrioStep(sem, src, region, bands, true, r);
      assert PrioRun(sem, src, region, bands, true, r, 1) == PrioRun(sem, src, region, bands, true, r', 0);
      StillStep(sem, src, region, bands, true, r.pos, r.w, r);
      assert !r'.sched.atTop && r'.ctl.Deciding?;
      hide PrioStep, Still, BandsOk, Stuck;
      var n := ScanReports(sem, src, region, bands, r.pos, r.w, r');
      PrioRunAdds(sem, src, region, bands, true, r, 1, n);
      assert PrioRun(sem, src, region, bands, report, r, 1 + n).ctl == Halted(Deadlock);
    } else {
      forall n: nat
        ensures PrioRun(sem, src, region, bands, report, r, n).ctl != Halted(Deadlock)
      {
        StillWithoutReport(sem, src, region, bands, r.pos, r.w, r, n);
      }
    }
  }
}
