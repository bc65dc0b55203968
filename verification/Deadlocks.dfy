/** What a deadlock report means. */
module Deadlocks {
  // The report is sound: when it is made, every coroutine of the region stands at a guard that
  // is shut and will stay shut. It is not complete: the loop counts passing over a coroutine
  // that has ended as progress, so once one has ended no pass reports anything. A region that
  // is stuck at the start of a pass is reported exactly if none of its coroutines has ended.

  import opened Cfg
  import opened Coroutines
  import opened Regions
  import opened Guards
  import opened Cooperative

  ghost predicate ClosedUpTo<U>(sem: Sem<U>, src: Blocks, pos: seq<Pos>, n: nat, u: U) {
    n <= |pos| && forall i :: 0 <= i < n ==> AtClosedGuard(sem, src, pos[i], u)
  }

  /** As long as a pass has made no progress, every coroutine it polled is at a shut guard. */
  ghost predicate StuckSoFar<U>(sem: Sem<U>, src: Blocks, region: Region, r: Coop<U>) {
    && PassInv(region, r)
    && (!r.progress ==>
          match r.ctl
          case Deciding => ClosedUpTo(sem, src, r.pos, r.sched.next, r.w.u)
          case Polling(j) => ClosedUpTo(sem, src, r.pos, j, r.w.u)
          case Inside(j, _, _) => ClosedUpTo(sem, src, r.pos, j, r.w.u)
          case Polled(j, res) => res.Blocked? ==> ClosedUpTo(sem, src, r.pos, j + 1, r.w.u)
          case _ => true)
  }

  lemma ClosedStay<U>(sem: Sem<U>, src: Blocks, pos: seq<Pos>, pos': seq<Pos>, n: nat, u: U, u': U)
    requires ClosedUpTo(sem, src, pos, n, u) && SameReady(sem, u, u')
    requires n <= |pos'| && forall i :: 0 <= i < n ==> pos'[i] == pos[i]
    ensures ClosedUpTo(sem, src, pos', n, u')
  {
  }

  lemma StuckStep<U(!new)>(sem: Sem<U>, src: Blocks, region: Region, report: bool, r: Coop<U>)
    requires ChannelsOnly(sem) && NoBareRecv(src) && StuckSoFar(sem, src, region, r)
    ensures StuckSoFar(sem, src, region, CoopStep(sem, src, region, report, r))
  {
    PassInvStep(sem, src, region, report, r);
    hide DoAll, Do, RunFrom, ChannelsOnly, NoBareRecv, AtClosedGuard, SameReady;
    if r.ctl.Inside? {
      var j, b, k := r.ctl.j, r.ctl.b, r.ctl.k;
      if b < |src| && k <= |src[b].stmts| {
        var r' := RunFrom(sem, src, region.coroutines[j], r, j, b, k);
        RunFromQuiet(sem, src, region.coroutines[j], r, j, b, k);
        RunFromResult(sem, src, region.coroutines[j], r, j, b, k);
        if !r'.progress && SameReady(sem, r.w.u, r'.w.u) {
          ClosedStay(sem, src, r.pos, r'.pos, j, r.w.u, r'.w.u);
        }
      }
    }
  }

  lemma {:induction false} StuckRun<U(!new)>(sem: Sem<U>, src: Blocks, region: Region, report: bool, r: Coop<U>, n: nat)
    requires ChannelsOnly(sem) && NoBareRecv(src) && StuckSoFar(sem, src, region, r)
    ensures StuckSoFar(sem, src, region, CoopRun(sem, src, region, report, r, n))
    decreases n
  {
    hide CoopStep, StuckSoFar, ChannelsOnly, NoBareRecv;
    if n > 0 {
      StuckStep(sem, src, region, report, r);
      StuckRun(sem, src, region, report, CoopStep(sem, src, region, report, r), n - 1);
    }
  }

  /** A poll of a coroutine at a shut guard does nothing at all. */
  lemma ShutPollDoesNothing<U>(sem: Sem<U>, src: Blocks, region: Region, report: bool, r: Coop<U>, i: nat)
    requires i < |r.pos| == |region.coroutines| && AtClosedGuard(sem, src, r.pos[i], r.w.u)
    ensures CoopRun(sem, src, region, report, r.(ctl := Polling(i)), 2) == r.(ctl := Polled(i, Blocked))
  {
    var b, k := r.pos[i].b, r.pos[i].k;
    var r1 := CoopStep(sem, src, region, report, r.(ctl := Polling(i)));
    assert r1 == r.(ctl := Inside(i, b, k));
    assert NextSite(src[b].stmts, k) == k && src[b].stmts[k..k] == [];
    assert CoopStep(sem, src, region, report, r1) == RunFrom(sem, src, region.coroutines[i], r1, i, b, k);
    assert r.pos[i := At(b, k)] == r.pos;
    assert CoopRun(sem, src, region, report, r1, 1)
           == CoopRun(sem, src, region, report, CoopStep(sem, src, region, report, r1), 0);
  }

  /** The round-robin loop reports a deadlock at the end of a pass. Then every coroutine
      stands at a shut guard, none has ended, and polling any of them would do nothing. */
  lemma ReportIsSound<U(!new)>(sem: Sem<U>, src: Blocks, region: Region, report: bool, b: BlockId, w: World<U>, n: nat)
    requires ChannelsOnly(sem) && NoBareRecv(src) && |region.coroutines| > 0
    ensures var r := CoopRun(sem, src, region, report, SourceStart(b, w), n);
            r.ctl.Deciding? && CoopStep(sem, src, region, report, r).ctl == Halted(Deadlock) ==>
              && |r.pos| == |region.coroutines|
              && (forall i :: 0 <= i < |r.pos| ==> AtClosedGuard(sem, src, r.pos[i], r.w.u))
              && (forall i :: 0 <= i < |r.pos| ==>
                    CoopRun(sem, src, region, report, r.(ctl := Polling(i)), 2) == r.(ctl := Polled(i, Blocked)))
  {
    var r := CoopRun(sem, src, region, report, SourceStart(b, w), n);
    StuckRun(sem, src, region, report, SourceStart(b, w), n);
    hide CoopRun, ChannelsOnly, NoBareRecv, AtClosedGuard;
    if r.ctl.Deciding? && CoopStep(sem, src, region, report, r).ctl == Halted(Deadlock) {
      assert r.sched.next == |r.pos| && !r.progress;
      forall i | 0 <= i < |r.pos|
        ensures AtClosedGuard(sem, src, r.pos[i], r.w.u)
        ensures CoopRun(sem, src, region, report, r.(ctl := Polling(i)), 2) == r.(ctl := Polled(i, Blocked))
      {
        ShutPollDoesNothing(sem, src, region, report, r, i);
      }
    }
  }

  // ── What the report misses ───────────────────────────────────────────

  /** A coroutine of this pass that has ended has been counted as progress. */
  ghost predicate EndedIsProgress<U>(region: Region, r: Coop<U>) {
    && PassInv(region, r)
    && (!r.ctl.Outside? && !r.ctl.Halted? && !(r.ctl.Deciding? && r.sched.next == 0) ==>
          forall i :: 0 <= i < r.sched.next ==> r.pos[i].Done? ==> r.progress)
  }

  lemma EndedStep<U>(sem: Sem<U>, src: Blocks, region: Region, report: bool, r: Coop<U>)
    requires EndedIsProgress(region, r)
    ensures EndedIsProgress(region, CoopStep(sem, src, region, report, r))
  {
    PassInvStep(sem, src, region, report, r);
    hide DoAll, Do, RunFrom;
    if r.ctl.Inside? {
      var j, b, k := r.ctl.j, r.ctl.b, r.ctl.k;
      if b < |src| && k <= |src[b].stmts| {
        RunFromResult(sem, src, region.coroutines[j], r, j, b, k);
        ProgressStays(sem, src, region.coroutines[j], r, j, b, k);
      }
    }
  }

  lemma ProgressStays<U>(sem: Sem<U>, src: Blocks, co: Coroutine, r: Coop<U>, j: nat, b: BlockId, k: nat)
    requires b < |src| && k <= |src[b].stmts| && j < |r.pos|
    ensures r.progress ==> RunFrom(sem, src, co, r, j, b, k).progress
  {
    hide DoAll, Do;
  }

  lemma {:induction false} EndedRun<U>(sem: Sem<U>, src: Blocks, region: Region, report: bool, r: Coop<U>, n: nat)
    requires EndedIsProgress(region, r)
    ensures EndedIsProgress(region, CoopRun(sem, src, region, report, r, n))
    decreases n
  {
    hide CoopStep, EndedIsProgress;
    if n > 0 {
      EndedStep(sem, src, region, report, r);
      EndedRun(sem, src, region, report, CoopStep(sem, src, region, report, r), n - 1);
    }
  }

  /** Once a coroutine has ended, the end of a pass is never a report: with others blocked
      for good, the loop goes round for ever. */
  lemma NoReportOnceOneHasEnded<U>(sem: Sem<U>, src: Blocks, region: Region, report: bool, b: BlockId, w: World<U>,
                                   n: nat)
    ensures var r := CoopRun(sem, src, region, report, SourceStart(b, w), n);
            r.ctl.Deciding? && r.sched.next == |r.pos| > 0 && (exists i :: 0 <= i < |r.pos| && r.pos[i].Done?) ==>
              var ctl := CoopStep(sem, src, region, report, r).ctl;
              ctl.Deciding? || ctl == Outside(region.end.0)
  {
    EndedRun(sem, src, region, report, SourceStart(b, w), n);
  }

  // ── Which deadlocks are reported ─────────────────────────────────────

  /** A stuck region, of which nothing moves and which no report will end. */
  ghost predicate GoesRound<U>(region: Region, pos: seq<Pos>, w: World<U>, r: Coop<U>) {
    && EndedIsProgress(region, r) && r.pos == pos && r.w == w
    && match r.ctl
       case Deciding => true
       case Polling(j) => pos[j].At?
       case Inside(j, b, k) => pos[j] == At(b, k)
       case Polled(_, res) => res.Blocked?
       case _ => false
  }

  predicate SomeEnded(pos: seq<Pos>) {
    exists i :: 0 <= i < |pos| && pos[i].Done?
  }

  lemma GoesRoundStep<U>(sem: Sem<U>, src: Blocks, region: Region, report: bool, pos: seq<Pos>, w: World<U>, r: Coop<U>)
    requires Stuck(sem, src, pos, w.u) && (SomeEnded(pos) || !report) && GoesRound(region, pos, w, r)
    ensures GoesRound(region, pos, w, CoopStep(sem, src, region, report, r))
  {
    EndedStep(sem, src, region, report, r);
    hide DoAll, Do, EndedIsProgress, RunFrom;
    if r.ctl.Deciding? {
      PassEnds(region, r);
    } else if r.ctl.Inside? {
      var j, b, k := r.ctl.j, r.ctl.b, r.ctl.k;
      EndedIsPass(region, r);
      ShutRunFrom(sem, src, region.coroutines[j], r, j, b, k);
    } else {
      EndedIsPass(region, r);
    }
  }

  lemma EndedIsPass<U>(region: Region, r: Coop<U>)
    requires EndedIsProgress(region, r)
    ensures PassInv(region, r)
  {
  }

  lemma PassEnds<U>(region: Region, r: Coop<U>)
    requires EndedIsProgress(region, r) && r.ctl.Deciding?
    ensures |r.pos| == |region.coroutines| && r.sched.next <= |r.pos|
    ensures r.sched.next == |r.pos| > 0 ==>
              && (r.sched.allDone <==> forall i :: 0 <= i < |r.pos| ==> r.pos[i].Done?)
              && (SomeEnded(r.pos) ==> r.progress)
  {
  }

  /** A stuck region of which one coroutine has ended is never left, never reported, and
      nothing in it runs again. Nor is any stuck region reported to a host without a report. */
  lemma {:induction false} StuckGoesRound<U>(sem: Sem<U>, src: Blocks, region: Region, report: bool,
                                             pos: seq<Pos>, w: World<U>, r: Coop<U>, n: nat)
    requires Stuck(sem, src, pos, w.u) && (SomeEnded(pos) || !report) && GoesRound(region, pos, w, r)
    ensures var r' := CoopRun(sem, src, region, report, r, n);
            !r'.ctl.Halted? && !r'.ctl.Outside? && r'.pos == pos && r'.w == w
    decreases n
  {
    hide CoopStep, Stuck;
    if n > 0 {
      GoesRoundStep(sem, src, region, report, pos, w, r);
      StuckGoesRound(sem, src, region, report, pos, w, CoopStep(sem, src, region, report, r), n - 1);
    }
  }

  /** The scheduler is about to begin a pass. */
  ghost predicate AtPassStart<U>(region: Region, r: Coop<U>) {
    r.ctl.Deciding? && r.sched.next == 0 && |r.pos| == |region.coroutines|
  }

  lemma {:induction false} CoopRunAdds<U>(sem: Sem<U>, src: Blocks, region: Region, report: bool, r: Coop<U>, m: nat,
                                          n: nat)
    ensures CoopRun(sem, src, region, report, r, m + n)
         == CoopRun(sem, src, region, report, CoopRun(sem, src, region, report, r, m), n)
    decreases m
  {
    hide CoopStep;
    if m > 0 {
      CoopRunAdds(sem, src, region, report, CoopStep(sem, src, region, report, r), m - 1, n);
    }
  }

  /** The turn of a coroutine at a shut guard: nothing moves, and no progress is made. */
  lemma ShutTurn<U>(sem: Sem<U>, src: Blocks, region: Region, report: bool, r: Coop<U>)
    requires r.ctl.Deciding? && |r.pos| == |region.coroutines| && r.sched.next < |r.pos|
    requires AtClosedGuard(sem, src, r.pos[r.sched.next], r.w.u)
    ensures CoopRun(sem, src, region, report, r, 4)
         == r.(sched := Turn(r.sched.next + 1, false), progress := r.progress && r.sched.next > 0)
  {
    var i := r.sched.next;
    var r1 := CoopStep(sem, src, region, report, r);
    ShutPollDoesNothing(sem, src, region, report, r1, i);
    var r3 := r1.(ctl := Polled(i, Blocked));
    hide AtClosedGuard, PollStep;
    CoopRunAdds(sem, src, region, report, r1, 2, 1);
    assert CoopRun(sem, src, region, report, r1, 2) == r3;
    assert CoopRun(sem, src, region, report, r3, 1)
           == CoopRun(sem, src, region, report, CoopStep(sem, src, region, report, r3), 0);
    assert CoopRun(sem, src, region, report, r, 1 + 3) == CoopRun(sem, src, region, report, r1, 3);
  }

  /** In a pass over coroutines all of which are at shut guards, no turn makes progress. */
  lemma {:induction false} ShutTurns<U>(sem: Sem<U>, src: Blocks, region: Region, report: bool, r: Coop<U>, k: nat)
    requires AtPassStart(region, r) && 0 < k <= |r.pos|
    requires forall i :: 0 <= i < |r.pos| ==> AtClosedGuard(sem, src, r.pos[i], r.w.u)
    ensures CoopRun(sem, src, region, report, r, 4 * k) == r.(sched := Turn(k, false), progress := false)
  {
    hide AtClosedGuard, CoopStep;
    if k == 1 {
      ShutTurn(sem, src, region, report, r);
    } else {
      ShutTurns(sem, src, region, report, r, k - 1);
      ShutTurn(sem, src, region, report, r.(sched := Turn(k - 1, false), progress := false));
      CoopRunAdds(sem, src, region, report, r, 4 * (k - 1), 4);
    }
  }

  /** Exactly which deadlocks are reported. From the start of a pass in which every coroutine
      that has not ended stands at a shut guard, and one has not ended, the loop ends in a
      report if and only if the host takes reports and no coroutine has ended. */
  lemma ReportedIff<U>(sem: Sem<U>, src: Blocks, region: Region, report: bool, r: Coop<U>)
    requires AtPassStart(region, r) && Stuck(sem, src, r.pos, r.w.u)
    ensures (exists n: nat :: CoopRun(sem, src, region, report, r, n).ctl == Halted(Deadlock))
            <==> report && !SomeEnded(r.pos)
  {
    if report && !SomeEnded(r.pos) {
      var k := |r.pos|;
      ShutTurns(sem, src, region, report, r, k);
      hide AtClosedGuard;
      CoopRunAdds(sem, src, region, report, r, 4 * k, 1);
      var r1 := r.(sched := Turn(k, false), progress := false);
      assert CoopStep(sem, src, region, report, r1).ctl == Halted(Deadlock);
      assert CoopRun(sem, src, region, report, r1, 1)
             == CoopRun(sem, src, region, report, CoopStep(sem, src, region, report, r1), 0);
    } else {
      forall n: nat
        ensures CoopRun(sem, src, region, report, r, n).ctl != Halted(Deadlock)
      {
        StuckGoesRound(sem, src, region, report, r.pos, r.w, r, n);
      }
    }
  }
}
