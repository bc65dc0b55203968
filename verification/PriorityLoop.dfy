/** The strict-priority loop of krio-stackless, against strict-priority scheduling.

`PrioShape` is the loop the executor emits: two scan sites for each member of a band, of which
the first polls if the member comes after the one that ran last and the second if it does not.
A site of the output corresponds to the places the reference's scan has yet to visit.
*/
module PriorityLoop {
  import opened Cfg
  import opened Coroutines
  import opened Regions
  import opened Machines
  import opened Fleets
  import opened Executors
  import opened Priority
  import opened PriorityRuns

  // ── The emitted loop ─────────────────────────────────────────────────

  /** The blocks and locals of one member of a band. */
  datatype Stop = Stop(
    first: BlockId, second: BlockId, pollFirst: BlockId, pollSecond: BlockId,
    after: BlockId, ran: BlockId, passOn: BlockId,
    doneFirst: LocalId, doneSecond: LocalId, blocked: LocalId)

  datatype PrioLoop = PrioLoop(
    init: BlockId, top: BlockId, exit: BlockId, post: BlockId, noProgress: BlockId, stuck: BlockId,
    progressed: LocalId, lasts: seq<LocalId>, sweeps: seq<LocalId>, stops: seq<seq<Stop>>,
    checks: seq<BlockId>, dones: seq<LocalId>)

  /** A scan site: in the first half of a band's sweep, in the second, or past all bands. */
  datatype Spot = Spot(b: nat, second: bool, k: nat) | ScanEnd

  predicate IsSpot(bands: Bands, sp: Spot) {
    sp.Spot? ==> sp.b < |bands| && sp.k < |bands[sp.b]|
  }

  predicate NoEmptyBand(bands: Bands) {
    forall b :: 0 <= b < |bands| ==> |bands[b]| > 0
  }

  /** Where the scan goes from a site it passes. */
  function NextSpot(bands: Bands, sp: Spot): (next: Spot)
    requires sp.Spot? && IsSpot(bands, sp) && NoEmptyBand(bands)
    ensures IsSpot(bands, next)
  {
    if sp.k + 1 < |bands[sp.b]| then sp.(k := sp.k + 1)
    else if !sp.second then Spot(sp.b, true, 0)
    else if sp.b + 1 < |bands| then Spot(sp.b + 1, false, 0)
    else ScanEnd
  }

  predicate Fits(bands: Bands, lay: PrioLoop) {
    && |lay.stops| == |lay.lasts| == |lay.sweeps| == |bands| && |lay.checks| > 0
    && forall b :: 0 <= b < |bands| ==> |lay.stops[b]| == |bands[b]|
  }

  function BlockOf(bands: Bands, lay: PrioLoop, sp: Spot): BlockId
    requires Fits(bands, lay) && IsSpot(bands, sp)
  {
    if sp.ScanEnd? then lay.checks[0]
    else if sp.second then lay.stops[sp.b][sp.k].second
    else lay.stops[sp.b][sp.k].first
  }

  /** The arms of a switch for a last index at or past `k`. */
  function Later(k: nat, n: nat, to: BlockId): (r: seq<(int, BlockId)>)
    requires k <= n
    ensures |r| == n - k && forall i :: 0 <= i < |r| ==> r[i] == (k + i, to)
  {
    seq(n - k, i requires 0 <= i < n - k => (k + i, to))
  }

  ghost predicate StopShape(out: Blocks, bands: Bands, lay: PrioLoop, m: Machine, b: nat, k: nat)
    requires Fits(bands, lay) && NoEmptyBand(bands) && IsPlace(bands, (b, k))
  {
    var st := lay.stops[b][k];
    var n, last, sweep := |bands[b]|, lay.lasts[b], lay.sweeps[b];
    var next1, next2 := BlockOf(bands, lay, NextSpot(bands, Spot(b, false, k))),
      BlockOf(bands, lay, NextSpot(bands, Spot(b, true, k)));
    && Is(out, st.first, [], Switch(last, Later(k, n, next1), st.pollFirst))
    && Is(out, st.second, [], Switch(last, Later(k, n, st.pollSecond), next2))
    && Is(out, st.pollFirst, [AssignI64(sweep, 0), EqCheck(st.doneFirst, m.state, DONE_STATE)],
          Branch(st.doneFirst, next1, m.dispatch))
    && Is(out, st.pollSecond, [AssignI64(sweep, 1), EqCheck(st.doneSecond, m.state, DONE_STATE)],
          Branch(st.doneSecond, next2, m.dispatch))
    && Is(out, m.exit, [], Goto(st.after))
    && Is(out, st.after, [EqCheck(st.blocked, m.poll, POLL_BLOCKED)], Branch(st.blocked, st.passOn, st.ran))
    && Is(out, st.ran, [AssignI64(last, k)], Goto(lay.top))
    && Is(out, st.passOn, [], Switch(sweep, [(0, next1)], next2))
  }

  /** A local that neither a machine nor the scan keeps anything in. */
  ghost predicate Temp(base: nat, ms: seq<Machine>, lay: PrioLoop, l: LocalId)
    requires |ms| > 0
  {
    Scratch(base, ms, l) && l !in lay.lasts && l !in lay.sweeps
  }

  ghost predicate ScanLocals(base: nat, ms: seq<Machine>, lay: PrioLoop)
    requires |ms| > 0
  {
    && (forall b :: 0 <= b < |lay.lasts| ==> Scratch(base, ms, lay.lasts[b]) && Foreign(ms, lay.lasts[b]))
    && (forall b :: 0 <= b < |lay.sweeps| ==> Scratch(base, ms, lay.sweeps[b]) && Foreign(ms, lay.sweeps[b]))
    && (forall b, c :: 0 <= b < |lay.lasts| && 0 <= c < |lay.lasts| && b != c ==> lay.lasts[b] != lay.lasts[c])
    && (forall b, c :: 0 <= b < |lay.sweeps| && 0 <= c < |lay.sweeps| && b != c ==> lay.sweeps[b] != lay.sweeps[c])
    && (forall b, c :: 0 <= b < |lay.lasts| && 0 <= c < |lay.sweeps| ==> lay.lasts[b] != lay.sweeps[c])
    && Temp(base, ms, lay, lay.progressed)
    && (forall i :: 0 <= i < |lay.dones| ==> Temp(base, ms, lay, lay.dones[i]))
    && (forall b, k :: 0 <= b < |lay.stops| && 0 <= k < |lay.stops[b]| ==>
          && Temp(base, ms, lay, lay.stops[b][k].doneFirst) && Temp(base, ms, lay, lay.stops[b][k].doneSecond)
          && Temp(base, ms, lay, lay.stops[b][k].blocked))
  }

  function LastInits(lasts: seq<LocalId>): (r: seq<Stmt>)
    ensures |r| == |lasts| && forall b :: 0 <= b < |r| ==> r[b] == AssignI64(lasts[b], -1)
  {
    seq(|lasts|, b requires 0 <= b < |lasts| => AssignI64(lasts[b], -1))
  }

  ghost predicate EndShape(out: Blocks, ms: seq<Machine>, report: bool, lay: PrioLoop)
    requires |ms| > 0
  {
    && |lay.checks| == |ms| + 1 && |lay.dones| == |ms|
    && (forall i :: 0 <= i < |ms| ==>
          Is(out, lay.checks[i], [EqCheck(lay.dones[i], ms[i].state, DONE_STATE)],
             Branch(lay.dones[i], lay.checks[i + 1], lay.noProgress)))
    && Is(out, lay.checks[|ms|], [], Goto(lay.exit))
    && Is(out, lay.noProgress, [EqCheck(lay.progressed, ms[0].progress, 1)], Branch(lay.progressed, lay.top, lay.stuck))
    && Is(out, lay.stuck, [], if report then Deadlock else Goto(lay.top))
  }

  ghost predicate ScanShape(out: Blocks, base: nat, bands: Bands, ms: seq<Machine>, report: bool, lay: PrioLoop) {
    && |ms| > 0 && |bands| > 0 && NoEmptyBand(bands) && Fits(bands, lay)
    && ScanLocals(base, ms, lay)
    && Is(out, lay.init, LastInits(lay.lasts), Goto(lay.top))
    && Is(out, lay.top, [AssignI64(ms[0].progress, 0)], Goto(lay.stops[0][0].first))
    && (forall b: nat, k: nat :: IsPlace(bands, (b, k)) ==>
          bands[b][k] < |ms| && StopShape(out, bands, lay, ms[bands[b][k]], b, k))
    && EndShape(out, ms, report, lay)
  }

  /** The whole output for one region with priorities. */
  ghost predicate PrioShape(src: Blocks, out: Blocks, base: nat, region: Region, bands: Bands, report: bool,
                            ms: seq<Machine>, lifted: BlockId, lay: PrioLoop) {
    && BandsOk(region, bands)
    && FleetOk(src, out, base, region, ms, lifted)
    && ScanShape(out, base, bands, ms, report, lay)
    && KeepsOutside(src, out, region)
    && EntersAt(src, out, region, ms, lay.init)
    && ExitsBy(src, out, region, lay.exit, lay.post)
  }

  // ── Scan sites and scan order ────────────────────────────────────────

  /** The first half polls members after the last one, the second half the others. */
  predicate PollsAt(lasts: seq<int>, sp: Spot)
    requires sp.Spot? && sp.b < |lasts|
  {
    sp.second == (lasts[sp.b] >= sp.k)
  }

  /** The places a scan at `sp` has yet to visit. */
  function Ahead(bands: Bands, lasts: seq<int>, sp: Spot): seq<Place>
    requires NoEmptyBand(bands) && LastsOk(bands, lasts) && IsSpot(bands, sp)
    decreases if sp.ScanEnd? then 0 else |bands| - sp.b, if sp.ScanEnd? || sp.second then 0 else 1,
              if sp.ScanEnd? then 0 else |bands[sp.b]| - sp.k
  {
    if sp.ScanEnd? then []
    else (if PollsAt(lasts, sp) then [(sp.b, sp.k)] else []) + Ahead(bands, lasts, NextSpot(bands, sp))
  }

  function AfterBand(bands: Bands, b: nat): Spot {
    if b + 1 < |bands| then Spot(b + 1, false, 0) else ScanEnd
  }

  lemma {:induction false} SecondHalf(bands: Bands, lasts: seq<int>, b: nat, k: nat)
    requires NoEmptyBand(bands) && LastsOk(bands, lasts) && IsPlace(bands, (b, k))
    ensures Ahead(bands, lasts, Spot(b, true, k))
         == (if k <= lasts[b] then Places(b, k, lasts[b] + 1) else []) + Ahead(bands, lasts, AfterBand(bands, b))
    decreases |bands[b]| - k
  {
    var rest := Ahead(bands, lasts, AfterBand(bands, b));
    if k + 1 < |bands[b]| {
      SecondHalf(bands, lasts, b, k + 1);
    }
    if k <= lasts[b] {
      var more := if k + 1 <= lasts[b] then Places(b, k + 1, lasts[b] + 1) else [];
      assert Places(b, k, lasts[b] + 1) == [(b, k)] + more;
      assert [(b, k)] + (more + rest) == [(b, k)] + more + rest;
    }
  }

  lemma {:induction false} FirstHalf(bands: Bands, lasts: seq<int>, b: nat, k: nat)
    requires NoEmptyBand(bands) && LastsOk(bands, lasts) && IsPlace(bands, (b, k))
    ensures var from := if lasts[b] < k then k else lasts[b] + 1;
            Ahead(bands, lasts, Spot(b, false, k)) == Places(b, from, |bands[b]|)
              + Ahead(bands, lasts, Spot(b, true, 0))
    decreases |bands[b]| - k
  {
    var n, rest := |bands[b]|, Ahead(bands, lasts, Spot(b, true, 0));
    if k + 1 < n {
      FirstHalf(bands, lasts, b, k + 1);
    }
    if lasts[b] < k {
      assert Places(b, k, n) == [(b, k)] + Places(b, k + 1, n);
      assert [(b, k)] + (Places(b, k + 1, n) + rest) == [(b, k)] + Places(b, k + 1, n) + rest;
      assert k + 1 == n ==> Places(b, k + 1, n) == [];
    } else {
      assert lasts[b] + 1 == n ==> Places(b, lasts[b] + 1, n) == [];
    }
  }

  /** Going through the sites from a band on is scanning in order. */
  lemma {:induction false} SitesAreTheScan(bands: Bands, lasts: seq<int>, b: nat)
    requires NoEmptyBand(bands) && LastsOk(bands, lasts) && b < |bands|
    ensures Ahead(bands, lasts, Spot(b, false, 0)) == ScanFrom(bands, lasts, b)
    decreases |bands| - b
  {
    FirstHalf(bands, lasts, b, 0);
    SecondHalf(bands, lasts, b, 0);
    if b + 1 < |bands| {
      SitesAreTheScan(bands, lasts, b + 1);
    }
    var l, n := lasts[b], |bands[b]|;
    var x, y, z := Places(b, l + 1, n), Places(b, 0, l + 1), Ahead(bands, lasts, AfterBand(bands, b));
    assert z == ScanFrom(bands, lasts, b + 1);
    hide Ahead, Places;
    assert l < 0 ==> y == [];
    Regroup(x, y, z);
  }

  lemma Regroup<T>(x: seq<T>, y: seq<T>, z: seq<T>)
    ensures x + (y + z) == (x + y) + z
  {
  }

  // ── The simulation ───────────────────────────────────────────────────

  /** The scan's own locals hold what the scheduler holds. */
  ghost predicate LastsAre(lay: PrioLoop, lasts: seq<int>, sys: map<LocalId, int>) {
    |lay.lasts| == |lasts| && forall b :: 0 <= b < |lasts| ==> Get(sys, lay.lasts[b]) == lasts[b]
  }

  ghost predicate SweepIs(lay: PrioLoop, sp: Spot, sys: map<LocalId, int>) {
    sp.Spot? && sp.b < |lay.sweeps| && Get(sys, lay.sweeps[sp.b]) == Bit(sp.second)
  }

  ghost predicate StandsAt<U>(bands: Bands, r: Prio<U>, sp: Spot)
    requires NoEmptyBand(bands) && LastsOk(bands, r.sched.lasts)
  {
    IsSpot(bands, sp) && !r.sched.atTop && Ahead(bands, r.sched.lasts, sp) == r.sched.rest
  }

  /** The scan has sent coroutine `j` off from a site. */
  ghost predicate SentFrom<U>(bands: Bands, lay: PrioLoop, r: Prio<U>, j: nat, sys: map<LocalId, int>, sp: Spot)
    requires NoEmptyBand(bands) && LastsOk(bands, r.sched.lasts)
  {
    && StandsAt(bands, r, sp) && sp.Spot? && PollsAt(r.sched.lasts, sp)
    && bands[sp.b][sp.k] == j && SweepIs(lay, sp, sys)
  }

  ghost predicate ScansAt<U>(src: Blocks, region: Region, bands: Bands, ms: seq<Machine>, lay: PrioLoop, r: Prio<U>,
                             c: Conf<U>)
    requires |ms| > 0 && NoEmptyBand(bands) && Fits(bands, lay)
  {
    && c.Entering? && c.st.w == r.w && LastsOk(bands, r.sched.lasts) && LastsAre(lay, r.sched.lasts, c.st.sys)
    && AgreeBut(src, region, ms, r.pos, c.st.sys, |ms|)
    && if r.sched.atTop then c.b == lay.top
       else
         && (Get(c.st.sys, ms[0].progress) == 1) == r.progress
         && exists sp :: StandsAt(bands, r, sp) && c.b == BlockOf(bands, lay, sp)
  }

  ghost predicate Polls<U>(src: Blocks, region: Region, bands: Bands, ms: seq<Machine>, lifted: BlockId, lay: PrioLoop,
                           r: Prio<U>, c: Conf<U>, j: nat)
    requires |ms| > 0 && NoEmptyBand(bands) && Fits(bands, lay)
  {
    && InPoll(src, region, ms, lifted, r, c)
    && LastsOk(bands, r.sched.lasts) && LastsAre(lay, r.sched.lasts, c.st.sys)
    && exists sp :: SentFrom(bands, lay, r, j, c.st.sys, sp)
  }

  /** The output stands where the reference stands. */
  ghost predicate PrioSim<U>(src: Blocks, region: Region, bands: Bands, ms: seq<Machine>, lifted: BlockId,
                             lay: PrioLoop, r: Prio<U>, c: Conf<U>)
    requires |ms| > 0 && NoEmptyBand(bands) && Fits(bands, lay)
  {
    match r.ctl
    case Outside(_) => IsOut(src, region, lay.exit, r, c)
    case Deciding => ScansAt(src, region, bands, ms, lay, r, c)
    case Halted(t) => c.Stopped? && c.term == t && c.st.w == r.w
    case Polling(j) => Polls(src, region, bands, ms, lifted, lay, r, c, j)
    case Inside(j, _, _) => Polls(src, region, bands, ms, lifted, lay, r, c, j)
    case Polled(j, _) => Polls(src, region, bands, ms, lifted, lay, r, c, j)
  }

  // ── Blocks of a scan ─────────────────────────────────────────────────

  /** Nothing that matters between polls has changed. */
  ghost predicate Still(ms: seq<Machine>, lay: PrioLoop, sys: map<LocalId, int>, sys': map<LocalId, int>)
    requires |ms| > 0
  {
    && SameStates(ms, sys, sys') && Get(sys', ms[0].progress) == Get(sys, ms[0].progress)
    && (forall b :: 0 <= b < |lay.lasts| ==> Get(sys', lay.lasts[b]) == Get(sys, lay.lasts[b]))
  }

  lemma TempStill(base: nat, ms: seq<Machine>, lay: PrioLoop, sys: map<LocalId, int>, l: LocalId, v: int)
    requires |ms| > 0 && Temp(base, ms, lay, l)
    ensures Still(ms, lay, sys, sys[l := v])
  {
  }

  lemma {:induction false} ChooseLater(k: nat, n: nat, to: BlockId, v: int, otherwise: BlockId)
    requires k <= n
    ensures Choose(Later(k, n, to), v, otherwise) == if k <= v < n then to else otherwise
    decreases n - k
  {
    if k < n {
      assert Later(k, n, to)[1..] == Later(k + 1, n, to);
      ChooseLater(k + 1, n, to, v, otherwise);
    }
  }

  lemma SwitchStep<U>(sem: Sem<U>, out: Blocks, at: BlockId, l: LocalId, targets: seq<(int, BlockId)>,
                      otherwise: BlockId, st: Store<U>)
    requires Is(out, at, [], Switch(l, targets, otherwise)) && sem.base <= l
    ensures Step(sem, out, Entering(at, st)) == Entering(Choose(targets, Get(st.sys, l), otherwise), st)
  {
  }

  /** What a stop's blocks do needs only this of its locals. */
  ghost predicate StopOk(base: nat, ms: seq<Machine>, lay: PrioLoop, st: Stop, b: nat)
    requires |ms| > 0
  {
    && b < |lay.lasts| == |lay.sweeps| && base <= lay.lasts[b] && base <= lay.sweeps[b]
    && Temp(base, ms, lay, st.doneFirst) && Temp(base, ms, lay, st.doneSecond) && Temp(base, ms, lay, st.blocked)
    && Scratch(base, ms, lay.sweeps[b]) && lay.sweeps[b] !in lay.lasts
    && Scratch(base, ms, lay.lasts[b])
    && (forall c :: 0 <= c < |lay.lasts| && c != b ==> lay.lasts[c] != lay.lasts[b])
  }

  lemma StopFacts(out: Blocks, base: nat, bands: Bands, ms: seq<Machine>, report: bool, lay: PrioLoop, b: nat, k: nat)
    requires ScanShape(out, base, bands, ms, report, lay) && IsPlace(bands, (b, k))
    ensures StopOk(base, ms, lay, lay.stops[b][k], b) && bands[b][k] < |ms|
    ensures StopShape(out, bands, lay, ms[bands[b][k]], b, k)
  {
    hide StopShape, EndShape, Temp;
    forall c | 0 <= c < |lay.lasts|
      ensures lay.lasts[c] != lay.sweeps[b]
    {
    }
  }

  /** A site either passes the scan on or goes to its poll. */
  lemma SiteStep<U>(sem: Sem<U>, out: Blocks, bands: Bands, ms: seq<Machine>, report: bool, lay: PrioLoop,
                    lasts: seq<int>, sp: Spot, st: Store<U>)
    requires ScanShape(out, sem.base, bands, ms, report, lay) && IsSpot(bands, sp) && sp.Spot?
    requires LastsOk(bands, lasts) && LastsAre(lay, lasts, st.sys)
    ensures var stop := lay.stops[sp.b][sp.k];
            Step(sem, out, Entering(BlockOf(bands, lay, sp), st))
              == Entering(if PollsAt(lasts, sp) then (if sp.second then stop.pollSecond else stop.pollFirst)
                          else BlockOf(bands, lay, NextSpot(bands, sp)), st)
  {
    StopFacts(out, sem.base, bands, ms, report, lay, sp.b, sp.k);
    hide ScanShape, Temp, Scratch;
    var stop, n := lay.stops[sp.b][sp.k], |bands[sp.b]|;
    var v := lasts[sp.b];
    var next := BlockOf(bands, lay, NextSpot(bands, sp));
    if sp.second {
      SwitchStep(sem, out, stop.second, lay.lasts[sp.b], Later(sp.k, n, stop.pollSecond), next, st);
      ChooseLater(sp.k, n, stop.pollSecond, v, next);
    } else {
      SwitchStep(sem, out, stop.first, lay.lasts[sp.b], Later(sp.k, n, next), stop.pollFirst, st);
      ChooseLater(sp.k, n, next, v, stop.pollFirst);
    }
  }

  function PollBlock(lay: PrioLoop, sp: Spot): BlockId
    requires sp.Spot? && sp.b < |lay.stops| && sp.k < |lay.stops[sp.b]|
  {
    if sp.second then lay.stops[sp.b][sp.k].pollSecond else lay.stops[sp.b][sp.k].pollFirst
  }

  /** The scan gets to the next site that polls, or past all of them. */
  lemma {:induction false} Seek<U>(sem: Sem<U>, out: Blocks, bands: Bands, ms: seq<Machine>, report: bool,
                                   lay: PrioLoop, lasts: seq<int>, sp: Spot, st: Store<U>) returns (n: nat, at: Spot)
    requires ScanShape(out, sem.base, bands, ms, report, lay) && IsSpot(bands, sp)
    requires LastsOk(bands, lasts) && LastsAre(lay, lasts, st.sys)
    ensures IsSpot(bands, at) && Ahead(bands, lasts, at) == Ahead(bands, lasts, sp)
    ensures at.ScanEnd? <==> Ahead(bands, lasts, sp) == []
    ensures at.Spot? ==>
              && PollsAt(lasts, at)
              && Run(sem, out, Entering(BlockOf(bands, lay, sp), st), n) == Entering(PollBlock(lay, at), st)
    ensures at.ScanEnd? ==> Run(sem, out, Entering(BlockOf(bands, lay, sp), st), n) == Entering(lay.checks[0], st)
    decreases if sp.ScanEnd? then 0 else |bands| - sp.b, if sp.ScanEnd? || sp.second then 0 else 1,
              if sp.ScanEnd? then 0 else |bands[sp.b]| - sp.k
  {
    hide StopShape, EndShape, ScanLocals, Step;
    if sp.ScanEnd? {
      n, at := 0, sp;
    } else {
      SiteStep(sem, out, bands, ms, report, lay, lasts, sp, st);
      if PollsAt(lasts, sp) {
        n, at := 1, sp;
        RunStep(sem, out, Entering(BlockOf(bands, lay, sp), st), 0);
      } else {
        var n';
        n', at := Seek(sem, out, bands, ms, report, lay, lasts, NextSpot(bands, sp), st);
        n := 1 + n';
        RunStep(sem, out, Entering(BlockOf(bands, lay, sp), st), n');
      }
    }
  }

  /** The poll block notes the half of the sweep, and passes over a coroutine that has ended. */
  lemma PollBlockStep<U>(sem: Sem<U>, out: Blocks, bands: Bands, ms: seq<Machine>, report: bool, lay: PrioLoop,
                         sp: Spot, st: Store<U>)
    requires ScanShape(out, sem.base, bands, ms, report, lay) && IsSpot(bands, sp) && sp.Spot?
    requires LocalsApart(sem.base, ms)
    ensures bands[sp.b][sp.k] < |ms|
    ensures var c := Step(sem, out, Entering(PollBlock(lay, sp), st)); var m := ms[bands[sp.b][sp.k]];
            && c.Entering? && c.st.w == st.w && Still(ms, lay, st.sys, c.st.sys) && SweepIs(lay, sp, c.st.sys)
            && c.b == (if Get(st.sys, m.state) == DONE_STATE then BlockOf(bands, lay, NextSpot(bands, sp))
                       else m.dispatch)
  {
    hide ScanShape, StopShape, Temp, Scratch, LocalsApart;
    ScanSizes(out, sem.base, bands, ms, report, lay);
    StopFacts(out, sem.base, bands, ms, report, lay, sp.b, sp.k);
    var stop, m := lay.stops[sp.b][sp.k], ms[bands[sp.b][sp.k]];
    var sweep := lay.sweeps[sp.b];
    var done := if sp.second then stop.doneSecond else stop.doneFirst;
    PollBlockIs(out, bands, lay, m, sp);
    StateIsSystem(sem.base, ms, lay, stop, bands[sp.b][sp.k], sp.b);
    CheckAfterSweep(sem, out, PollBlock(lay, sp), sweep, Bit(sp.second), done, m.state,
                    BlockOf(bands, lay, NextSpot(bands, sp)), m.dispatch, st);
    var s1 := st.sys[sweep := Bit(sp.second)];
    SweepStill(sem.base, ms, lay, stop, sp.b, st.sys, Bit(sp.second));
    TempStill(sem.base, ms, lay, s1, done, Bit(Get(st.sys, m.state) == DONE_STATE));
    TempIsNotSweep(sem.base, ms, lay, done, sp.b);
  }

  lemma PollBlockIs(out: Blocks, bands: Bands, lay: PrioLoop, m: Machine, sp: Spot)
    requires Fits(bands, lay) && NoEmptyBand(bands) && IsSpot(bands, sp) && sp.Spot?
    requires StopShape(out, bands, lay, m, sp.b, sp.k)
    ensures var stop := lay.stops[sp.b][sp.k]; var done := if sp.second then stop.doneSecond else stop.doneFirst;
            Is(out, PollBlock(lay, sp),
               [AssignI64(lay.sweeps[sp.b], Bit(sp.second)), EqCheck(done, m.state, DONE_STATE)],
               Branch(done, BlockOf(bands, lay, NextSpot(bands, sp)), m.dispatch))
  {
    assert sp == Spot(sp.b, sp.second, sp.k);
  }

  lemma StateIsSystem(base: nat, ms: seq<Machine>, lay: PrioLoop, stop: Stop, i: nat, b: nat)
    requires |ms| > 0 && LocalsApart(base, ms) && StopOk(base, ms, lay, stop, b) && i < |ms|
    ensures base <= ms[i].state && base <= ms[i].poll && base <= stop.doneFirst && base <= stop.doneSecond
            && base <= stop.blocked
    ensures lay.sweeps[b] != ms[i].state && lay.sweeps[b] != ms[i].poll
  {
  }

  lemma CheckAfterSweep<U>(sem: Sem<U>, out: Blocks, at: BlockId, sweep: LocalId, v: int, done: LocalId, state: LocalId,
                           yes: BlockId, no: BlockId, st: Store<U>)
    requires Is(out, at, [AssignI64(sweep, v), EqCheck(done, state, DONE_STATE)], Branch(done, yes, no))
    requires sem.base <= sweep && sem.base <= done && sem.base <= state && sweep != state
    ensures var d := Get(st.sys, state) == DONE_STATE;
            Step(sem, out, Entering(at, st))
              == Entering(if d then yes else no, Store(st.w, st.sys[sweep := v][done := Bit(d)]))
  {
    ExecFew(sem, AssignI64(sweep, v), EqCheck(done, state, DONE_STATE), Nop, st);
  }

  lemma SweepStill(base: nat, ms: seq<Machine>, lay: PrioLoop, stop: Stop, b: nat, sys: map<LocalId, int>, v: int)
    requires |ms| > 0 && StopOk(base, ms, lay, stop, b)
    ensures Still(ms, lay, sys, sys[lay.sweeps[b] := v])
  {
    hide Temp;
  }

  lemma TempIsNotSweep(base: nat, ms: seq<Machine>, lay: PrioLoop, l: LocalId, b: nat)
    requires |ms| > 0 && Temp(base, ms, lay, l) && b < |lay.sweeps|
    ensures l != lay.sweeps[b]
  {
  }

  lemma StillAll<U>(src: Blocks, region: Region, bands: Bands, ms: seq<Machine>, lay: PrioLoop, r: Prio<U>,
                    sys: map<LocalId, int>, sys': map<LocalId, int>)
    requires |ms| > 0 && Still(ms, lay, sys, sys')
    requires AgreeBut(src, region, ms, r.pos, sys, |ms|) && LastsAre(lay, r.sched.lasts, sys)
    ensures AgreeBut(src, region, ms, r.pos, sys', |ms|) && LastsAre(lay, r.sched.lasts, sys')
    ensures Get(sys', ms[0].progress) == Get(sys, ms[0].progress)
  {
    AgreeMoves(src, region, ms, r.pos, sys, sys');
    hide AgreeBut;
  }

  // ── One step of the scheduler ────────────────────────────────────────

  lemma ScanSizes(out: Blocks, base: nat, bands: Bands, ms: seq<Machine>, report: bool, lay: PrioLoop)
    requires ScanShape(out, base, bands, ms, report, lay)
    ensures |ms| > 0 && |bands| > 0 && NoEmptyBand(bands) && Fits(bands, lay) && EndShape(out, ms, report, lay)
    ensures Is(out, lay.top, [AssignI64(ms[0].progress, 0)], Goto(BlockOf(bands, lay, Spot(0, false, 0))))
    ensures Is(out, lay.init, LastInits(lay.lasts), Goto(lay.top))
    ensures ScanLocals(base, ms, lay)
  {
    hide StopShape, EndShape, ScanLocals;
  }

  /** A new scan. */
  lemma TopSim<U>(sem: Sem<U>, src: Blocks, out: Blocks, region: Region, bands: Bands, ms: seq<Machine>, report: bool,
                  lifted: BlockId, lay: PrioLoop, r: Prio<U>, c: Conf<U>)
    requires FleetOk(src, out, sem.base, region, ms, lifted) && ScanShape(out, sem.base, bands, ms, report, lay)
    requires ScansAt(src, region, bands, ms, lay, r, c) && r.sched.atTop && r.ctl.Deciding?
    ensures ScansAt(src, region, bands, ms, lay, PrioDecide(region, bands, report, r), Run(sem, out, c, 1))
  {
    hide FleetOk, ScanShape, AgreeBut, LocalsApart, ScanLocals, EndShape, ScanFrom, Ahead, Run;
    ScanSizes(out, sem.base, bands, ms, report, lay);
    FleetApart(src, out, sem.base, region, ms, lifted);
    ProgressAlone(sem.base, ms, lay);
    ExecFew(sem, AssignI64(ms[0].progress, 0), Nop, Nop, c.st);
    RunStep(sem, out, c, 0);
    var sys' := c.st.sys[ms[0].progress := 0];
    Scratches(sem.base, ms, c.st.sys, ms[0].progress, 0);
    AgreeMoves(src, region, ms, r.pos, c.st.sys, sys');
    SitesAreTheScan(bands, r.sched.lasts, 0);
    var r' := PrioDecide(region, bands, report, r);
    assert StandsAt(bands, r', Spot(0, false, 0));
  }

  lemma ProgressAlone(base: nat, ms: seq<Machine>, lay: PrioLoop)
    requires |ms| > 0 && LocalsApart(base, ms) && ScanLocals(base, ms, lay)
    ensures base <= ms[0].progress && forall i :: 0 <= i < |ms| ==>
              ms[i].state != ms[0].progress && ms[i].poll != ms[0].progress
    ensures forall b :: 0 <= b < |lay.lasts| ==> lay.lasts[b] != ms[0].progress
  {
    hide Temp;
  }

  lemma HeadOfAhead(bands: Bands, lasts: seq<int>, sp: Spot)
    requires NoEmptyBand(bands) && LastsOk(bands, lasts) && IsSpot(bands, sp) && sp.Spot? && PollsAt(lasts, sp)
    ensures var order := Ahead(bands, lasts, sp);
            |order| > 0 && order[0] == (sp.b, sp.k) && order[1..] == Ahead(bands, lasts, NextSpot(bands, sp))
  {
  }

  /** The next member that may be polled is passed over or polled. */
  lemma MemberSim<U>(sem: Sem<U>, src: Blocks, out: Blocks, region: Region, bands: Bands, ms: seq<Machine>,
                     report: bool, lifted: BlockId, lay: PrioLoop, r: Prio<U>, c: Conf<U>) returns (n: nat)
    requires FleetOk(src, out, sem.base, region, ms, lifted) && ScanShape(out, sem.base, bands, ms, report, lay)
    requires ScansAt(src, region, bands, ms, lay, r, c) && !r.sched.atTop && |r.sched.rest| > 0 && r.ctl.Deciding?
    ensures n >= 1
    ensures PrioSim(src, region, bands, ms, lifted, lay, PrioDecide(region, bands, report, r), Run(sem, out, c, n))
  {
    hide FleetOk, ScanShape, AgreeBut, LocalsApart, Ahead, Run, Step, Still, LastsAre, LastsOk;
    ScanSizes(out, sem.base, bands, ms, report, lay);
    FleetApart(src, out, sem.base, region, ms, lifted);
    AgreeSize(src, region, ms, r.pos, c.st.sys);
    var lasts := r.sched.lasts;
    var sp :| StandsAt(bands, r, sp) && c.b == BlockOf(bands, lay, sp);
    var k, at := Seek(sem, out, bands, ms, report, lay, lasts, sp, c.st);
    HeadOfAhead(bands, lasts, at);
    PollBlockStep(sem, out, bands, ms, report, lay, at, c.st);
    var j := bands[at.b][at.k];
    var c1 := Entering(PollBlock(lay, at), c.st);
    var c2 := Step(sem, out, c1);
    RunStep(sem, out, c1, 0);
    RunAdds(sem, out, c, k, 1);
    n := k + 1;
    StillAll(src, region, bands, ms, lay, r, c.st.sys, c2.st.sys);
    StateDone(src, out, sem.base, region, ms, lifted, r.pos, c.st.sys, j);
    SameProgress(sem.base, ms, j);
    var r' := PrioDecide(region, bands, report, r);
    if r.pos[j].Done? {
      assert StandsAt(bands, r', NextSpot(bands, at));
    } else {
      assert SentFrom(bands, lay, r', j, c2.st.sys, at);
    }
  }

  lemma CheckOne<U>(sem: Sem<U>, out: Blocks, ms: seq<Machine>, report: bool, lay: PrioLoop, i: nat, st: Store<U>)
    requires |ms| > 0 && EndShape(out, ms, report, lay) && ScanLocals(sem.base, ms, lay) && LocalsApart(sem.base, ms)
             && i < |ms|
    ensures var c := Step(sem, out, Entering(lay.checks[i], st));
            && c.Entering? && c.st.w == st.w && Still(ms, lay, st.sys, c.st.sys)
            && c.b == (if Get(st.sys, ms[i].state) == DONE_STATE then lay.checks[i + 1] else lay.noProgress)
  {
    var l := lay.dones[i];
    assert Is(out, lay.checks[i], [EqCheck(l, ms[i].state, DONE_STATE)], Branch(l, lay.checks[i + 1], lay.noProgress));
    assert Temp(sem.base, ms, lay, l);
    assert LocalsOk(sem.base, ms[i]);
    hide ScanLocals, Temp, LocalsApart;
    ExecFew(sem, EqCheck(l, ms[i].state, DONE_STATE), Nop, Nop, st);
    TempStill(sem.base, ms, lay, st.sys, l, Bit(Get(st.sys, ms[i].state) == DONE_STATE));
    TempIsSystem(sem.base, ms, lay, l);
  }

  lemma TempIsSystem(base: nat, ms: seq<Machine>, lay: PrioLoop, l: LocalId)
    requires |ms| > 0 && Temp(base, ms, lay, l)
    ensures base <= l
  {
  }

  /** After a scan: out of the region if every coroutine has ended. */
  lemma {:induction false} ChecksSim<U>(sem: Sem<U>, src: Blocks, out: Blocks, region: Region, bands: Bands,
                                        ms: seq<Machine>, report: bool, lifted: BlockId, lay: PrioLoop, r: Prio<U>,
                                          i: nat, st: Store<U>) returns (n: nat)
    requires FleetOk(src, out, sem.base, region, ms, lifted) && ScanShape(out, sem.base, bands, ms, report, lay)
    requires AgreeBut(src, region, ms, r.pos, st.sys, |ms|) && LastsAre(lay, r.sched.lasts, st.sys)
    requires |r.pos| == |ms| && i <= |ms| < |lay.checks| && forall k :: 0 <= k < i ==> r.pos[k].Done?
    ensures n >= 1
    ensures var c := Run(sem, out, Entering(lay.checks[i], st), n);
            && c.Entering? && c.st.w == st.w && c.b == (if AllEnded(r.pos) then lay.exit else lay.noProgress)
            && AgreeBut(src, region, ms, r.pos, c.st.sys, |ms|) && LastsAre(lay, r.sched.lasts, c.st.sys)
            && |ms| > 0 && Get(c.st.sys, ms[0].progress) == Get(st.sys, ms[0].progress)
    decreases |ms| - i
  {
    hide FleetOk, ScanShape, AgreeBut, LastsAre, Run, Step, ScanLocals, Still, LocalsApart;
    ScanSizes(out, sem.base, bands, ms, report, lay);
    if i == |ms| {
      n := 1;
      EmptyStep(sem, out, lay.checks[i], Goto(lay.exit), st);
      RunStep(sem, out, Entering(lay.checks[i], st), 0);
    } else {
      FleetApart(src, out, sem.base, region, ms, lifted);
      CheckOne(sem, out, ms, report, lay, i, st);
      var c1 := Step(sem, out, Entering(lay.checks[i], st));
      StillAll(src, region, bands, ms, lay, r, st.sys, c1.st.sys);
      StateDone(src, out, sem.base, region, ms, lifted, r.pos, st.sys, i);
      if r.pos[i].Done? {
        var n' := ChecksSim(sem, src, out, region, bands, ms, report, lifted, lay, r, i + 1, c1.st);
        n := 1 + n';
        RunStep(sem, out, Entering(lay.checks[i], st), n');
      } else {
        n := 1;
        RunStep(sem, out, Entering(lay.checks[i], st), 0);
      }
    }
  }

  lemma NoProgressSteps<U>(sem: Sem<U>, out: Blocks, ms: seq<Machine>, report: bool, lay: PrioLoop, st: Store<U>,
                           progress: bool)
    requires |ms| > 0 && EndShape(out, ms, report, lay) && ScanLocals(sem.base, ms, lay) && LocalsApart(sem.base, ms)
    requires (Get(st.sys, ms[0].progress) == 1) == progress
    ensures var c1 := Step(sem, out, Entering(lay.noProgress, st)); var c2 := Step(sem, out, c1);
            && c1.Entering? && c1.b == (if progress then lay.top else lay.stuck) && c1.st.w == st.w
            && Still(ms, lay, st.sys, c1.st.sys)
            && (!progress ==> c2 == if report then Stopped(Deadlock, c1.st) else Entering(lay.top, c1.st))
  {
    var l := lay.progressed;
    assert Temp(sem.base, ms, lay, l);
    assert LocalsOk(sem.base, ms[0]);
    hide ScanLocals, LocalsApart, Temp;
    TempIsSystem(sem.base, ms, lay, l);
    ExecFew(sem, EqCheck(l, ms[0].progress, 1), Nop, Nop, st);
    TempStill(sem.base, ms, lay, st.sys, l, Bit(progress));
    var c1 := Step(sem, out, Entering(lay.noProgress, st));
    assert c1.st == Store(st.w, st.sys[l := Bit(progress)]);
    if !progress {
      EmptyStep(sem, out, lay.stuck, if report then Deadlock else Goto(lay.top), c1.st);
    }
  }

  /** The end of a scan. */
  lemma EndSim<U>(sem: Sem<U>, src: Blocks, out: Blocks, region: Region, bands: Bands, ms: seq<Machine>, report: bool,
                  lifted: BlockId, lay: PrioLoop, r: Prio<U>, c: Conf<U>) returns (n: nat)
    requires FleetOk(src, out, sem.base, region, ms, lifted) && ScanShape(out, sem.base, bands, ms, report, lay)
    requires ScansAt(src, region, bands, ms, lay, r, c) && !r.sched.atTop && r.sched.rest == [] && r.ctl.Deciding?
    ensures n >= 1
    ensures PrioSim(src, region, bands, ms, lifted, lay, PrioDecide(region, bands, report, r), Run(sem, out, c, n))
  {
    hide FleetOk, ScanShape, AgreeBut, LocalsApart, Ahead, Run, Step, Still, LastsAre, LastsOk, ScanLocals;
    ScanSizes(out, sem.base, bands, ms, report, lay);
    FleetApart(src, out, sem.base, region, ms, lifted);
    AgreeSize(src, region, ms, r.pos, c.st.sys);
    var sp :| StandsAt(bands, r, sp) && c.b == BlockOf(bands, lay, sp);
    var k, at := Seek(sem, out, bands, ms, report, lay, r.sched.lasts, sp, c.st);
    var k1 := ChecksSim(sem, src, out, region, bands, ms, report, lifted, lay, r, 0, c.st);
    RunAdds(sem, out, c, k, k1);
    var c1 := Run(sem, out, c, k + k1);
    if AllEnded(r.pos) {
      n := k + k1;
    } else {
      NoProgressSteps(sem, out, ms, report, lay, c1.st, r.progress);
      var c2 := Step(sem, out, c1);
      StillAll(src, region, bands, ms, lay, r, c1.st.sys, c2.st.sys);
      RunStep(sem, out, c1, 0);
      RunStep(sem, out, c1, 1);
      RunStep(sem, out, c2, 0);
      RunAdds(sem, out, c, k + k1, 1);
      RunAdds(sem, out, c, k + k1, 2);
      n := k + k1 + (if r.progress then 1 else 2);
    }
  }

  // ── After a poll ─────────────────────────────────────────────────────

  lemma AfterSteps<U>(sem: Sem<U>, out: Blocks, bands: Bands, ms: seq<Machine>, report: bool, lay: PrioLoop, sp: Spot,
                      st: Store<U>)
    requires ScanShape(out, sem.base, bands, ms, report, lay) && LocalsApart(sem.base, ms)
    requires IsSpot(bands, sp) && SweepIs(lay, sp, st.sys)
    ensures bands[sp.b][sp.k] < |ms|
    ensures var m := ms[bands[sp.b][sp.k]]; var c2 := Run(sem, out, Entering(m.exit, st), 2);
            var c3 := Step(sem, out, c2);
            && c2.Entering? && c2.st.w == st.w && Still(ms, lay, st.sys, c2.st.sys)
            && (if Get(st.sys, m.poll) == POLL_BLOCKED
                then c3 == Entering(BlockOf(bands, lay, NextSpot(bands, sp)), c2.st)
                else c3 == Entering(lay.top, Store(st.w, c2.st.sys[lay.lasts[sp.b] := sp.k])))
  {
    hide ScanShape, StopShape, Temp, Scratch, LocalsApart, Run;
    ScanSizes(out, sem.base, bands, ms, report, lay);
    StopFacts(out, sem.base, bands, ms, report, lay, sp.b, sp.k);
    var stop, m := lay.stops[sp.b][sp.k], ms[bands[sp.b][sp.k]];
    var blocked := Get(st.sys, m.poll) == POLL_BLOCKED;
    StateIsSystem(sem.base, ms, lay, stop, bands[sp.b][sp.k], sp.b);
    TempStill(sem.base, ms, lay, st.sys, stop.blocked, Bit(blocked));
    TempIsNotSweep(sem.base, ms, lay, stop.blocked, sp.b);
    AfterBlocks(sem, out, bands, lay, m, sp, st);
    RunStep(sem, out, Entering(m.exit, st), 1);
    RunStep(sem, out, Entering(stop.after, st), 0);
  }

  lemma AfterBlocks<U>(sem: Sem<U>, out: Blocks, bands: Bands, lay: PrioLoop, m: Machine, sp: Spot, st: Store<U>)
    requires Fits(bands, lay) && NoEmptyBand(bands) && IsSpot(bands, sp) && SweepIs(lay, sp, st.sys)
    requires StopShape(out, bands, lay, m, sp.b, sp.k)
    requires var stop := lay.stops[sp.b][sp.k];
             sem.base <= stop.blocked && sem.base <= m.poll && sem.base <= lay.sweeps[sp.b]
               && sem.base <= lay.lasts[sp.b]
             && stop.blocked != lay.sweeps[sp.b]
    ensures var stop := lay.stops[sp.b][sp.k]; var blocked := Get(st.sys, m.poll) == POLL_BLOCKED;
            var st2 := Store(st.w, st.sys[stop.blocked := Bit(blocked)]);
            && Step(sem, out, Entering(m.exit, st)) == Entering(stop.after, st)
            && Step(sem, out, Entering(stop.after, st)) == Entering(if blocked then stop.passOn else stop.ran, st2)
            && Step(sem, out, Entering(stop.passOn, st2)) == Entering(BlockOf(bands, lay, NextSpot(bands, sp)), st2)
            && Step(sem, out, Entering(stop.ran, st2))
              == Entering(lay.top, Store(st.w, st2.sys[lay.lasts[sp.b] := sp.k]))
  {
    var stop := lay.stops[sp.b][sp.k];
    var st2 := Store(st.w, st.sys[stop.blocked := Bit(Get(st.sys, m.poll) == POLL_BLOCKED)]);
    var n1, n2 := BlockOf(bands, lay, NextSpot(bands, Spot(sp.b, false, sp.k))),
      BlockOf(bands, lay, NextSpot(bands, Spot(sp.b, true, sp.k)));
    EmptyStep(sem, out, m.exit, Goto(stop.after), st);
    ExecFew(sem, EqCheck(stop.blocked, m.poll, POLL_BLOCKED), Nop, Nop, st);
    SwitchStep(sem, out, stop.passOn, lay.sweeps[sp.b], [(0, n1)], n2, st2);
    assert [(0, n1)][1..] == [];
    ExecFew(sem, AssignI64(lay.lasts[sp.b], sp.k), Nop, Nop, st2);
    assert sp == Spot(sp.b, sp.second, sp.k);
  }

  lemma RanKeeps(base: nat, ms: seq<Machine>, lay: PrioLoop, stop: Stop, b: nat, k: nat, lasts: seq<int>,
                 sys: map<LocalId, int>)
    requires |ms| > 0 && StopOk(base, ms, lay, stop, b) && LastsAre(lay, lasts, sys)
    ensures SameStates(ms, sys, sys[lay.lasts[b] := k]) && LastsAre(lay, lasts[b := k], sys[lay.lasts[b] := k])
    ensures Get(sys[lay.lasts[b] := k], ms[0].progress) == Get(sys, ms[0].progress)
  {
    hide Temp;
  }

  lemma RanOk(bands: Bands, lasts: seq<int>, b: nat, k: nat)
    requires LastsOk(bands, lasts) && IsPlace(bands, (b, k))
    ensures LastsOk(bands, lasts[b := k])
  {
  }

  lemma PrioAfterSim<U>(sem: Sem<U>, src: Blocks, out: Blocks, region: Region, bands: Bands, ms: seq<Machine>,
                        report: bool, lifted: BlockId, lay: PrioLoop, r: Prio<U>, c: Conf<U>)
    requires FleetOk(src, out, sem.base, region, ms, lifted) && ScanShape(out, sem.base, bands, ms, report, lay)
    requires r.ctl.Polled? && Polls(src, region, bands, ms, lifted, lay, r, c, r.ctl.j)
    ensures PrioSim(src, region, bands, ms, lifted, lay, PrioAfter(bands, r), Run(sem, out, c, 3))
  {
    hide FleetOk, ScanShape, AgreeBut, LocalsApart, Ahead, Run, Step, Still, LastsAre, LastsOk, StopShape, StopOk;
    ScanSizes(out, sem.base, bands, ms, report, lay);
    FleetApart(src, out, sem.base, region, ms, lifted);
    var j := r.ctl.j;
    var sp :| SentFrom(bands, lay, r, j, c.st.sys, sp);
    HeadOfAhead(bands, r.sched.lasts, sp);
    AfterSteps(sem, out, bands, ms, report, lay, sp, c.st);
    var c2 := Run(sem, out, c, 2);
    RunAdds(sem, out, c, 2, 1);
    RunStep(sem, out, c2, 0);
    StillAll(src, region, bands, ms, lay, r, c.st.sys, c2.st.sys);
    SameProgress(sem.base, ms, j);
    var r' := PrioAfter(bands, r);
    if r.ctl.res.Blocked? {
      assert StandsAt(bands, r', NextSpot(bands, sp));
    } else {
      StopFacts(out, sem.base, bands, ms, report, lay, sp.b, sp.k);
      RanKeeps(sem.base, ms, lay, lay.stops[sp.b][sp.k], sp.b, sp.k, r.sched.lasts, c2.st.sys);
      AgreeMoves(src, region, ms, r.pos, c2.st.sys, c2.st.sys[lay.lasts[sp.b] := sp.k]);
      RanOk(bands, r.sched.lasts, sp.b, sp.k);
    }
  }

  // ── Whole runs ───────────────────────────────────────────────────────

  lemma {:induction false} ExecLasts<U>(sem: Sem<U>, lasts: seq<LocalId>, st: Store<U>)
    requires forall b :: 0 <= b < |lasts| ==> sem.base <= lasts[b]
    ensures var st' := ExecAll(sem, LastInits(lasts), st);
            && st'.w == st.w
            && forall l :: Get(st'.sys, l) == if l in lasts then -1 else Get(st.sys, l)
  {
    if |lasts| > 0 {
      assert LastInits(lasts)[1..] == LastInits(lasts[1..]);
      ExecLasts(sem, lasts[1..], Exec(sem, LastInits(lasts)[0], st));
    }
  }

  lemma InitSteps<U>(sem: Sem<U>, out: Blocks, ms: seq<Machine>, lay: PrioLoop, st: Store<U>)
    requires |ms| > 0 && ScanLocals(sem.base, ms, lay) && Is(out, lay.init, LastInits(lay.lasts), Goto(lay.top))
    ensures var c := Step(sem, out, Entering(lay.init, st));
            && c.Entering? && c.b == lay.top && c.st.w == st.w && SameStates(ms, st.sys, c.st.sys)
            && forall b :: 0 <= b < |lay.lasts| ==> Get(c.st.sys, lay.lasts[b]) == -1
  {
    hide Temp;
    ExecLasts(sem, lay.lasts, st);
  }

  /** Entering the region. */
  lemma PrioEnterSim<U>(sem: Sem<U>, src: Blocks, out: Blocks, region: Region, bands: Bands, ms: seq<Machine>,
                        report: bool, lifted: BlockId, lay: PrioLoop, r: Prio<U>, c: Conf<U>)
    requires SourceOk(src, sem.base) && PrioShape(src, out, sem.base, region, bands, report, ms, lifted, lay)
    requires r.ctl == Outside(region.begin.0) && IsOut(src, region, lay.exit, r, c) && region.begin.0 != region.end.0
    ensures |ms| > 0 && NoEmptyBand(bands) && Fits(bands, lay)
    ensures PrioSim(src, region, bands, ms, lifted, lay, PrioStep(sem, src, region, bands, report, r),
                    Run(sem, out, c, 2))
  {
    hide FleetOk, ScanShape, AgreeBut, Run, Step, ScanLocals, EntersAt, KeepsOutside, ExitsBy, OutsideStep, SourceOk,
         BandsOk;
    ScanSizes(out, sem.base, bands, ms, report, lay);
    EnterSim(sem, src, out, region, ms, lifted, lay.init, r, FirstScan(bands), c);
    var r' := OutsideStep(sem, src, region, r, FirstScan(bands), region.begin.0);
    var c1 := Step(sem, out, c);
    InitSteps(sem, out, ms, lay, c1.st);
    RunStep(sem, out, c, 1);
    RunStep(sem, out, c1, 0);
    BandsStart(region, bands);
    AgreeMoves(src, region, ms, r'.pos, c1.st.sys, Step(sem, out, c1).st.sys);
  }

  lemma PollKeepsScan<U>(bands: Bands, ms: seq<Machine>, lay: PrioLoop, base: nat, r: Prio<U>, r': Prio<U>, j: nat,
                         sys: map<LocalId, int>, sys': map<LocalId, int>)
    requires |ms| > 0 && NoEmptyBand(bands) && Fits(bands, lay) && ScanLocals(base, ms, lay)
    requires LastsOk(bands, r.sched.lasts) && LastsAre(lay, r.sched.lasts, sys) && r'.sched == r.sched
    requires exists sp :: SentFrom(bands, lay, r, j, sys, sp)
    requires SameForeign(ms, sys, sys')
    ensures LastsAre(lay, r'.sched.lasts, sys') && exists sp :: SentFrom(bands, lay, r', j, sys', sp)
  {
    hide Temp, Ahead, Foreign;
    var sp :| SentFrom(bands, lay, r, j, sys, sp);
    assert SentFrom(bands, lay, r', j, sys', sp);
  }

  /** One step within the region. It speaks of the region's machines and of the loop alone. */
  lemma PrioInnerStepSim<U>(sem: Sem<U>, src: Blocks, out: Blocks, region: Region, bands: Bands, ms: seq<Machine>,
                            report: bool, lifted: BlockId, lay: PrioLoop, r: Prio<U>, c: Conf<U>) returns (n: nat)
    requires FleetOk(src, out, sem.base, region, ms, lifted) && ScanShape(out, sem.base, bands, ms, report, lay)
    requires |ms| > 0 && NoEmptyBand(bands) && Fits(bands, lay)
    requires IsActive(r.ctl) && PrioSim(src, region, bands, ms, lifted, lay, r, c)
    ensures n >= 1
    ensures PrioSim(src, region, bands, ms, lifted, lay, PrioStep(sem, src, region, bands, report, r),
                    Run(sem, out, c, n))
  {
    hide FleetOk, ScanShape, AgreeBut, Run, Step, PrioDecide, PrioAfter, OutsideStep, PollStep, LastsAre, LastsOk,
         Ahead, ScanLocals, InPoll, SentFrom, ScanFrom;
    match r.ctl
    case Deciding =>
      if r.sched.atTop {
        n := 1;
        TopSim(sem, src, out, region, bands, ms, report, lifted, lay, r, c);
        DecidingAfterTop(region, bands, report, r);
      } else if r.sched.rest == [] {
        n := EndSim(sem, src, out, region, bands, ms, report, lifted, lay, r, c);
      } else {
        n := MemberSim(sem, src, out, region, bands, ms, report, lifted, lay, r, c);
      }
    case Polled(j, _) =>
      n := 3;
      PrioAfterSim(sem, src, out, region, bands, ms, report, lifted, lay, r, c);
    case Polling(j) => n := InPollSim(sem, src, out, region, bands, ms, report, lifted, lay, r, c, j);
    case Inside(j, _, _) => n := InPollSim(sem, src, out, region, bands, ms, report, lifted, lay, r, c, j);
  }

  /** One step of strict-priority scheduling is one block of the output or a few. */
  lemma PrioStepSim<U>(sem: Sem<U>, src: Blocks, out: Blocks, region: Region, bands: Bands, ms: seq<Machine>,
                       report: bool, lifted: BlockId, lay: PrioLoop, r: Prio<U>, c: Conf<U>) returns (n: nat)
    requires RegionOk(src, sem.base, region) && PrioShape(src, out, sem.base, region, bands, report, ms, lifted, lay)
    requires |ms| > 0 && NoEmptyBand(bands) && Fits(bands, lay)
    requires PrioSim(src, region, bands, ms, lifted, lay, r, c)
    ensures n >= 1
    ensures PrioSim(src, region, bands, ms, lifted, lay, PrioStep(sem, src, region, bands, report, r),
                    Run(sem, out, c, n))
  {
    hide FleetOk, ScanShape, BodiesOk, AgreeBut, EntersAt, ExitsBy, KeepsOutside, Run, Step, PrioDecide, PrioAfter,
         OutsideStep, PollStep, LastsAre, LastsOk, Ahead, ScanLocals, BandsOk, SourceOk, InPoll, SentFrom, ScanFrom;
    ScanSizes(out, sem.base, bands, ms, report, lay);
    match r.ctl
    case Outside(b) =>
      if b == region.begin.0 {
        n := 2;
        PrioEnterSim(sem, src, out, region, bands, ms, report, lifted, lay, r, c);
      } else {
        n := OutsideSim(sem, src, out, region, lay.exit, lay.post, r, FirstScan(bands), c);
      }
    case Halted(_) =>
      n := 1;
      RunStep(sem, out, c, 0);
      StoppedStays(sem, out, c);
    case _ => n := PrioInnerStepSim(sem, src, out, region, bands, ms, report, lifted, lay, r, c);
  }

  lemma DecidingAfterTop<U>(region: Region, bands: Bands, report: bool, r: Prio<U>)
    requires LastsOk(bands, r.sched.lasts) && r.ctl.Deciding? && r.sched.atTop
    ensures PrioDecide(region, bands, report, r).ctl.Deciding?
  {
  }

  lemma InPollSim<U>(sem: Sem<U>, src: Blocks, out: Blocks, region: Region, bands: Bands, ms: seq<Machine>,
                     report: bool, lifted: BlockId, lay: PrioLoop, r: Prio<U>, c: Conf<U>, j: nat) returns (n: nat)
    requires FleetOk(src, out, sem.base, region, ms, lifted) && ScanShape(out, sem.base, bands, ms, report, lay)
    requires (r.ctl.Polling? && r.ctl.j == j) || (r.ctl.Inside? && r.ctl.j == j)
    requires |ms| > 0 && NoEmptyBand(bands) && Fits(bands, lay)
    requires Polls(src, region, bands, ms, lifted, lay, r, c, j)
    ensures n >= 1
    ensures PrioSim(src, region, bands, ms, lifted, lay, PollStep(sem, src, region, r), Run(sem, out, c, n))
  {
    hide FleetOk, ScanShape, AgreeBut, Run, Step, PollStep, LastsAre, LastsOk, Ahead, ScanLocals, SentFrom, Follows;
    ScanSizes(out, sem.base, bands, ms, report, lay);
    n := PollSim(sem, src, out, region, ms, lifted, r, c);
    var r', c' := PollStep(sem, src, region, r), Run(sem, out, c, n);
    PollKeeps(sem, src, region, r);
    PollKeepsScan(bands, ms, lay, sem.base, r, r', j, c.st.sys, c'.st.sys);
  }

  /** However long the source runs, the output keeps up. */
  lemma {:induction false} PrioRunSim<U>(sem: Sem<U>, src: Blocks, out: Blocks, region: Region, bands: Bands,
                                         ms: seq<Machine>, report: bool, lifted: BlockId, lay: PrioLoop, r: Prio<U>,
                                           c: Conf<U>, n: nat) returns (m: nat)
    requires RegionOk(src, sem.base, region) && PrioShape(src, out, sem.base, region, bands, report, ms, lifted, lay)
    requires |ms| > 0 && NoEmptyBand(bands) && Fits(bands, lay)
    requires PrioSim(src, region, bands, ms, lifted, lay, r, c)
    ensures m >= n
    ensures PrioSim(src, region, bands, ms, lifted, lay, PrioRun(sem, src, region, bands, report, r, n),
                    Run(sem, out, c, m))
    decreases n
  {
    hide RegionOk, PrioShape, PrioSim, PrioStep, Step;
    if n == 0 {
      m := 0;
    } else {
      var k := PrioStepSim(sem, src, out, region, bands, ms, report, lifted, lay, r, c);
      var rest := PrioRunSim(sem, src, out, region, bands, ms, report, lifted, lay,
                             PrioStep(sem, src, region, bands, report, r), Run(sem, out, c, k), n - 1);
      RunAdds(sem, out, c, k, rest);
      m := k + rest;
    }
  }

  lemma PrioSimIsSame<U>(src: Blocks, region: Region, bands: Bands, ms: seq<Machine>, lifted: BlockId, lay: PrioLoop,
                         r: Prio<U>, c: Conf<U>)
    requires |ms| > 0 && NoEmptyBand(bands) && Fits(bands, lay) && PrioSim(src, region, bands, ms, lifted, lay, r, c)
    ensures SameOutcome(r, c)
  {
    hide AgreeBut, LastsAre, LastsOk, SentFrom, StandsAt;
  }

  /** The priority transform preserves meaning: the output passes through every state of the
      source's strict-priority run, and stops exactly when and how the source does. */
  lemma EveryPriorityStepIsMatched<U>(sem: Sem<U>, src: Blocks, out: Blocks, region: Region, bands: Bands,
                                      ms: seq<Machine>, report: bool, lifted: BlockId, lay: PrioLoop, b: BlockId,
                                        w: World<U>, sys: map<LocalId, int>, n: nat)
    requires RegionOk(src, sem.base, region) && PrioShape(src, out, sem.base, region, bands, report, ms, lifted, lay)
    requires IsOutside(src, region, b)
    ensures exists m :: m >= n && SameOutcome(PrioRun(sem, src, region, bands, report, PrioStart(bands, b, w), n),
                                              Run(sem, out, Entering(b, Store(w, sys)), m))
  {
    hide RegionOk, FleetOk, ScanShape, Run, PrioRun;
    ScanSizes(out, sem.base, bands, ms, report, lay);
    var r0, c0 := PrioStart(bands, b, w), Entering(b, Store(w, sys));
    var m := PrioRunSim(sem, src, out, region, bands, ms, report, lifted, lay, r0, c0, n);
    PrioSimIsSame(src, region, bands, ms, lifted, lay, PrioRun(sem, src, region, bands, report, r0, n),
                  Run(sem, out, c0, m));
  }

  /** And the output does nothing else. */
  lemma NothingElseHappensByPriority<U>(sem: Sem<U>, src: Blocks, out: Blocks, region: Region, bands: Bands,
                                        ms: seq<Machine>, report: bool, lifted: BlockId, lay: PrioLoop, b: BlockId,
                                          w: World<U>, sys: map<LocalId, int>, m: nat)
    requires RegionOk(src, sem.base, region) && PrioShape(src, out, sem.base, region, bands, report, ms, lifted, lay)
    requires IsOutside(src, region, b)
    ensures exists n ::
              var r, c := PrioRun(sem, src, region, bands, report, PrioStart(bands, b, w), n),
                Run(sem, out, Entering(b, Store(w, sys)), m);
              c.st.w.trace <= r.w.trace && (c.Stopped? ==> SameOutcome(r, c))
  {
    hide RegionOk, PrioShape, IsOutside, Run, PrioRun;
    var c0 := Entering(b, Store(w, sys));
    EveryPriorityStepIsMatched(sem, src, out, region, bands, ms, report, lifted, lay, b, w, sys, m);
    var m' :| m' >= m
      && SameOutcome(PrioRun(sem, src, region, bands, report, PrioStart(bands, b, w), m), Run(sem, out, c0, m'));
    RunAdds(sem, out, c0, m, m' - m);
    RunTraceGrows(sem, out, Run(sem, out, c0, m), m' - m);
    if Run(sem, out, c0, m).Stopped? {
      StoppedForGood(sem, out, Run(sem, out, c0, m), m' - m);
    }
  }
}
