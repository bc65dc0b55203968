/** Round robin: the emitted loop and its reference. */
module Cooperative {
  // `CoopStep` is the meaning of a region under the cooperative executor: coroutines take
  // turns, a pass polls each that has not ended once, and a pass in which nothing moved ends in
  // a deadlock report if the host has one. `CoopShape` is the loop the executor emits.

  import opened Cfg
  import opened Coroutines
  import opened Regions
  import opened Machines
  import opened Fleets
  import opened Executors

  // ── Round robin, on the source ───────────────────────────────────────

  /** Whose turn it is, and whether every coroutine of this pass so far has ended. */
  datatype Turn = Turn(next: nat, allDone: bool)

  type Coop<U> = Ref<U, Turn>

  const FIRST_TURN := Turn(0, true)

  /** The scheduler's turn. A pass starts by forgetting the last one. A coroutine that has
      ended is passed over, and passing it over counts as progress. */
  function Decide<U>(region: Region, report: bool, r: Coop<U>): Coop<U>
    requires |r.pos| == |region.coroutines|
  {
    if r.sched.next < |r.pos| then
      var r0 := if r.sched.next == 0 then r.(progress := false, sched := FIRST_TURN) else r;
      if r.pos[r.sched.next].Done?
      then r0.(progress := true, sched := r0.sched.(next := r.sched.next + 1))
      else r0.(ctl := Polling(r.sched.next))
    else if r.sched.allDone then r.(ctl := Outside(region.end.0))
    else if r.progress || !report then r.(sched := r.sched.(next := 0))
    else r.(ctl := Halted(Deadlock))
  }

  function AfterPoll<U>(r: Coop<U>): Coop<U>
    requires r.ctl.Polled?
  {
    r.(ctl := Deciding,
       progress := r.progress || !r.ctl.res.Blocked?,
       sched := Turn(r.ctl.j + 1, r.sched.allDone && r.ctl.res.Completed?))
  }

  function CoopStep<U>(sem: Sem<U>, src: Blocks, region: Region, report: bool, r: Coop<U>): Coop<U> {
    match r.ctl
    case Outside(b) => OutsideStep(sem, src, region, r, FIRST_TURN, b)
    case Deciding => if |r.pos| == |region.coroutines| then Decide(region, report, r) else r
    case Polled(_, _) => AfterPoll(r)
    case Halted(_) => r
    case _ => PollStep(sem, src, region, r)
  }

  function CoopRun<U>(sem: Sem<U>, src: Blocks, region: Region, report: bool, r: Coop<U>, n: nat): Coop<U>
    decreases n
  {
    if n == 0 then r else CoopRun(sem, src, region, report, CoopStep(sem, src, region, report, r), n - 1)
  }

  // ── The emitted loop ─────────────────────────────────────────────────

  /** The blocks and locals of one coroutine's turn. */
  datatype Link = Link(
    check: BlockId, after: BlockId, markDone: BlockId, markPending: BlockId, ran: BlockId, next: BlockId,
    isDone: LocalId, isReady: LocalId, blocked: LocalId)

  datatype Loop = Loop(
    top: BlockId, exit: BlockId, post: BlockId, notDone: BlockId, stuck: BlockId,
    allDone: LocalId, progressed: LocalId, links: seq<Link>)

  ghost predicate LoopLocal(base: nat, ms: seq<Machine>, lay: Loop, l: LocalId) {
    base <= l && Foreign(ms, l) && l != lay.allDone
  }

  ghost predicate LinkShape(out: Blocks, m: Machine, lay: Loop, link: Link, first: bool) {
    && Is(out, link.check,
          if first
          then [AssignBool(lay.allDone, true), AssignI64(m.progress, 0), EqCheck(link.isDone, m.state, DONE_STATE)]
          else [EqCheck(link.isDone, m.state, DONE_STATE)],
          Branch(link.isDone, link.after, m.dispatch))
    && Is(out, m.exit, [], Goto(link.after))
    && Is(out, link.after, [EqCheck(link.isReady, m.poll, POLL_READY)],
          Branch(link.isReady, link.markDone, link.markPending))
    && Is(out, link.markDone, [AssignI64(m.state, DONE_STATE), AssignI64(m.progress, 1)], Goto(link.next))
    && Is(out, link.markPending, [AssignBool(lay.allDone, false), EqCheck(link.blocked, m.poll, POLL_BLOCKED)],
          Branch(link.blocked, link.next, link.ran))
    && Is(out, link.ran, [AssignI64(m.progress, 1)], Goto(link.next))
  }

  ghost predicate LinkLocals(base: nat, ms: seq<Machine>, lay: Loop, link: Link) {
    && LoopLocal(base, ms, lay, link.isDone)
    && LoopLocal(base, ms, lay, link.isReady)
    && LoopLocal(base, ms, lay, link.blocked)
  }

  ghost predicate LoopShape(out: Blocks, base: nat, ms: seq<Machine>, report: bool, lay: Loop) {
    && |lay.links| == |ms| && |ms| > 0
    && base <= lay.allDone && Foreign(ms, lay.allDone) && LoopLocal(base, ms, lay, lay.progressed)
    && (forall i :: 0 <= i < |ms| ==> LinkLocals(base, ms, lay, lay.links[i]))
    && lay.links[0].check == lay.top
    && (forall i :: 0 <= i < |ms| ==> LinkShape(out, ms[i], lay, lay.links[i], i == 0))
    && (forall i :: 0 <= i < |ms| - 1 ==> Is(out, lay.links[i].next, [], Goto(lay.links[i + 1].check)))
    && Is(out, lay.links[|ms| - 1].next, [], Branch(lay.allDone, lay.exit, lay.notDone))
    && Is(out, lay.notDone, [EqCheck(lay.progressed, ms[0].progress, 1)], Branch(lay.progressed, lay.top, lay.stuck))
    && Is(out, lay.stuck, [], if report then Deadlock else Goto(lay.top))
  }

  /** The whole output for one region. */
  ghost predicate CoopShape(src: Blocks, out: Blocks, base: nat, region: Region, report: bool,
                            ms: seq<Machine>, lifted: BlockId, lay: Loop) {
    && FleetOk(src, out, base, region, ms, lifted)
    && LoopShape(out, base, ms, report, lay)
    && KeepsOutside(src, out, region)
    && EntersAt(src, out, region, ms, lay.top)
    && ExitsBy(src, out, region, lay.exit, lay.post)
  }

  // ── The simulation ───────────────────────────────────────────────────

  ghost predicate DecidesAt<U>(src: Blocks, region: Region, ms: seq<Machine>, lay: Loop, r: Coop<U>, c: Conf<U>)
    requires |lay.links| == |ms| > 0
  {
    && c.Entering? && c.st.w == r.w
    && AgreeBut(src, region, ms, r.pos, c.st.sys, |ms|)
    && r.sched.next <= |ms|
    && c.b == (if r.sched.next < |ms| then lay.links[r.sched.next].check else lay.links[|ms| - 1].next)
    && (r.sched.next > 0 ==>
          && (Get(c.st.sys, ms[0].progress) == 1) == r.progress
          && Get(c.st.sys, lay.allDone) == Bit(r.sched.allDone))
  }

  /** The output stands where the reference stands. */
  ghost predicate CoopSim<U>(src: Blocks, region: Region, ms: seq<Machine>, lifted: BlockId, lay: Loop, r: Coop<U>,
                             c: Conf<U>)
    requires |lay.links| == |ms| > 0
  {
    match r.ctl
    case Outside(_) => IsOut(src, region, lay.exit, r, c)
    case Deciding => DecidesAt(src, region, ms, lay, r, c)
    case Halted(t) => c.Stopped? && c.term == t && c.st.w == r.w
    case Polling(j) =>
      InPoll(src, region, ms, lifted, r, c) && Get(c.st.sys, lay.allDone) == Bit(r.sched.allDone) && r.sched.next == j
    case Inside(j, _, _) =>
      InPoll(src, region, ms, lifted, r, c) && Get(c.st.sys, lay.allDone) == Bit(r.sched.allDone) && r.sched.next == j
    case Polled(j, _) =>
      InPoll(src, region, ms, lifted, r, c) && Get(c.st.sys, lay.allDone) == Bit(r.sched.allDone) && r.sched.next == j
  }

  // ── The blocks of a turn ─────────────────────────────────────────────

  /** The loop's own variables hold these values. */
  ghost predicate Carries(ms: seq<Machine>, lay: Loop, sys: map<LocalId, int>, progress: bool, allDone: bool)
    requires |ms| > 0
  {
    (Get(sys, ms[0].progress) == 1) == progress && Get(sys, lay.allDone) == Bit(allDone)
  }

  ghost predicate LinkOk(out: Blocks, base: nat, ms: seq<Machine>, lay: Loop, link: Link, t: nat)
    requires t < |ms|
  {
    && LinkShape(out, ms[t], lay, link, t == 0)
    && ms[t].progress == ms[0].progress && base <= ms[t].progress && base <= ms[t].state && base <= ms[t].poll
    && (forall i :: 0 <= i < |ms| ==> ms[i].state != ms[0].progress && ms[i].poll != ms[0].progress)
    && Scratch(base, ms, lay.allDone)
    && Scratch(base, ms, link.isDone) && link.isDone != lay.allDone
    && Scratch(base, ms, link.isReady) && link.isReady != lay.allDone
    && Scratch(base, ms, link.blocked) && link.blocked != lay.allDone
  }

  lemma LinkFacts(out: Blocks, base: nat, ms: seq<Machine>, report: bool, lay: Loop, t: nat)
    requires LoopShape(out, base, ms, report, lay) && LocalsApart(base, ms) && t < |ms|
    ensures LinkOk(out, base, ms, lay, lay.links[t], t)
  {
    hide LinkShape, Is;
    assert LinkLocals(base, ms, lay, lay.links[t]);
    forall l | base <= l && Foreign(ms, l)
      ensures Scratch(base, ms, l)
    {
    }
  }

  lemma CheckStep<U>(sem: Sem<U>, out: Blocks, ms: seq<Machine>, lay: Loop, link: Link, t: nat, st: Store<U>,
                     progress: bool, allDone: bool)
    requires t < |ms| && LinkOk(out, sem.base, ms, lay, link, t)
    requires t > 0 ==> Carries(ms, lay, st.sys, progress, allDone)
    ensures var c := Step(sem, out, Entering(link.check, st));
            && c.Entering? && c.st.w == st.w && SameStates(ms, st.sys, c.st.sys)
            && c.b == (if Get(st.sys, ms[t].state) == DONE_STATE then link.after else ms[t].dispatch)
            && Carries(ms, lay, c.st.sys, t > 0 && progress, t == 0 || allDone)
  {
    var m := ms[t];
    var d := Bit(Get(st.sys, m.state) == DONE_STATE);
    if t == 0 {
      ExecFew(sem, AssignBool(lay.allDone, true), AssignI64(m.progress, 0), EqCheck(link.isDone, m.state, DONE_STATE),
              st);
      var s1 := st.sys[lay.allDone := 1];
      var s2 := s1[m.progress := 0];
      Scratches(sem.base, ms, st.sys, lay.allDone, 1);
      Scratches(sem.base, ms, s1, m.progress, 0);
      Scratches(sem.base, ms, s2, link.isDone, d);
      assert Step(sem, out, Entering(link.check, st)).st == Store(st.w, s2[link.isDone := d]);
    } else {
      ExecFew(sem, EqCheck(link.isDone, m.state, DONE_STATE), Nop, Nop, st);
      Scratches(sem.base, ms, st.sys, link.isDone, d);
      assert Step(sem, out, Entering(link.check, st)).st == Store(st.w, st.sys[link.isDone := d]);
    }
  }

  lemma AfterStep<U>(sem: Sem<U>, out: Blocks, ms: seq<Machine>, lay: Loop, link: Link, t: nat, st: Store<U>,
                     progress: bool, allDone: bool)
    requires t < |ms| && LinkOk(out, sem.base, ms, lay, link, t)
    requires Carries(ms, lay, st.sys, progress, allDone)
    ensures var c := Step(sem, out, Entering(link.after, st));
            && c.Entering? && c.st.w == st.w && SameStates(ms, st.sys, c.st.sys)
            && c.b == (if Get(st.sys, ms[t].poll) == POLL_READY then link.markDone else link.markPending)
            && Carries(ms, lay, c.st.sys, progress, allDone)
  {
    ExecFew(sem, EqCheck(link.isReady, ms[t].poll, POLL_READY), Nop, Nop, st);
    Scratches(sem.base, ms, st.sys, link.isReady, Bit(Get(st.sys, ms[t].poll) == POLL_READY));
  }

  lemma MarkDoneStep<U>(sem: Sem<U>, out: Blocks, ms: seq<Machine>, lay: Loop, link: Link, t: nat, st: Store<U>,
                        progress: bool, allDone: bool)
    requires t < |ms| && LinkOk(out, sem.base, ms, lay, link, t)
    requires Carries(ms, lay, st.sys, progress, allDone) && Get(st.sys, ms[t].state) == DONE_STATE
    ensures var c := Step(sem, out, Entering(link.markDone, st));
            && c.Entering? && c.st.w == st.w && SameStates(ms, st.sys, c.st.sys)
            && c.b == link.next
            && Carries(ms, lay, c.st.sys, true, allDone)
  {
    TwoAssigns(sem, out, link.markDone, ms[t].state, DONE_STATE, ms[t].progress, 1, link.next, st);
    Scratches(sem.base, ms, st.sys[ms[t].state := DONE_STATE], ms[t].progress, 1);
  }

  lemma MarkPendingSteps<U>(sem: Sem<U>, out: Blocks, ms: seq<Machine>, lay: Loop, link: Link, t: nat, st: Store<U>,
                            progress: bool, allDone: bool) returns (n: nat)
    requires t < |ms| && LinkOk(out, sem.base, ms, lay, link, t)
    requires Carries(ms, lay, st.sys, progress, allDone)
    ensures n >= 1
    ensures var c := Run(sem, out, Entering(link.markPending, st), n);
            && c.Entering? && c.st.w == st.w && SameStates(ms, st.sys, c.st.sys)
            && c.b == link.next
            && Carries(ms, lay, c.st.sys, progress || Get(st.sys, ms[t].poll) != POLL_BLOCKED, false)
  {
    hide Run;
    var m := ms[t];
    var still := Get(st.sys, m.poll) == POLL_BLOCKED;
    var s1 := st.sys[lay.allDone := 0];
    var s2 := s1[link.blocked := Bit(still)];
    Scratches(sem.base, ms, st.sys, lay.allDone, 0);
    Scratches(sem.base, ms, s1, link.blocked, Bit(still));
    var c1 := Entering(if still then link.next else link.ran, Store(st.w, s2));
    MarkPendingStep(sem, out, ms, lay, link, t, st);
    if still {
      n := 1;
      RunStep(sem, out, Entering(link.markPending, st), 0);
    } else {
      n := 2;
      ExecFew(sem, AssignI64(m.progress, 1), Nop, Nop, c1.st);
      Scratches(sem.base, ms, s2, m.progress, 1);
      assert Step(sem, out, c1) == Entering(link.next, Store(st.w, s2[m.progress := 1]));
      RunStep(sem, out, Entering(link.markPending, st), 1);
      RunStep(sem, out, c1, 0);
    }
  }

  lemma MarkPendingStep<U>(sem: Sem<U>, out: Blocks, ms: seq<Machine>, lay: Loop, link: Link, t: nat, st: Store<U>)
    requires t < |ms| && LinkOk(out, sem.base, ms, lay, link, t)
    ensures var still := Get(st.sys, ms[t].poll) == POLL_BLOCKED;
            Step(sem, out, Entering(link.markPending, st))
              == Entering(if still then link.next else link.ran,
                          Store(st.w, st.sys[lay.allDone := 0][link.blocked := Bit(still)]))
  {
    ExecFew(sem, AssignBool(lay.allDone, false), EqCheck(link.blocked, ms[t].poll, POLL_BLOCKED), Nop, st);
  }

  /** The turn passes to the next coroutine, or the pass ends. */
  lemma TurnOver<U>(sem: Sem<U>, src: Blocks, out: Blocks, region: Region, ms: seq<Machine>, report: bool,
                    lifted: BlockId, lay: Loop, r: Coop<U>, t: nat, st: Store<U>) returns (n: nat)
    requires LoopShape(out, sem.base, ms, report, lay) && t < |ms|
    requires r.ctl.Deciding? && r.sched.next == t + 1 && st.w == r.w
    requires AgreeBut(src, region, ms, r.pos, st.sys, |ms|) && Carries(ms, lay, st.sys, r.progress, r.sched.allDone)
    ensures CoopSim(src, region, ms, lifted, lay, r, Run(sem, out, Entering(lay.links[t].next, st), n))
  {
    if t + 1 < |ms| {
      n := 1;
      EmptyStep(sem, out, lay.links[t].next, Goto(lay.links[t + 1].check), st);
      RunStep(sem, out, Entering(lay.links[t].next, st), 0);
    } else {
      n := 0;
    }
  }

  // ── One step of the reference is a few blocks of the output ──────────

  lemma ShapeSizes(out: Blocks, base: nat, ms: seq<Machine>, report: bool, lay: Loop)
    requires LoopShape(out, base, ms, report, lay)
    ensures |lay.links| == |ms| > 0 && lay.links[0].check == lay.top
  {
  }

  /** A coroutine that has ended is passed over. */
  lemma SkipSim<U>(sem: Sem<U>, src: Blocks, out: Blocks, region: Region, ms: seq<Machine>, report: bool,
                   lifted: BlockId, lay: Loop, r: Coop<U>, c: Conf<U>) returns (n: nat)
    requires FleetOk(src, out, sem.base, region, ms, lifted) && LoopShape(out, sem.base, ms, report, lay)
    requires r.ctl.Deciding? && DecidesAt(src, region, ms, lay, r, c) && r.sched.next < |ms|
             && r.pos[r.sched.next].Done?
    ensures n >= 1
    ensures CoopSim(src, region, ms, lifted, lay, Decide(region, report, r), Run(sem, out, c, n))
  {
    hide FleetOk, LoopShape, LinkOk, AgreeBut, SameStates, EntersAt, ExitsBy, KeepsOutside, Run, Step;
    ShapeSizes(out, sem.base, ms, report, lay);
    AgreeSize(src, region, ms, r.pos, c.st.sys);
    var t := r.sched.next;
    var link := lay.links[t];
    var r' := Decide(region, report, r);
    FleetApart(src, out, sem.base, region, ms, lifted);
    LinkFacts(out, sem.base, ms, report, lay, t);
    StateDone(src, out, sem.base, region, ms, lifted, r.pos, c.st.sys, t);
    CheckStep(sem, out, ms, lay, link, t, c.st, r.progress, r.sched.allDone);
    var c1 := Step(sem, out, c);
    var p, a := t > 0 && r.progress, t == 0 || r.sched.allDone;
    AgreeMoves(src, region, ms, r.pos, c.st.sys, c1.st.sys);
    StateDone(src, out, sem.base, region, ms, lifted, r.pos, c1.st.sys, t);
    AfterStep(sem, out, ms, lay, link, t, c1.st, p, a);
    var c2 := Step(sem, out, c1);
    AgreeMoves(src, region, ms, r.pos, c1.st.sys, c2.st.sys);
    StateDone(src, out, sem.base, region, ms, lifted, r.pos, c2.st.sys, t);
    MarkDoneStep(sem, out, ms, lay, link, t, c2.st, p, a);
    var c3 := Step(sem, out, c2);
    AgreeMoves(src, region, ms, r.pos, c2.st.sys, c3.st.sys);
    var n' := TurnOver(sem, src, out, region, ms, report, lifted, lay, r', t, c3.st);
    n := 3 + n';
    RunStep(sem, out, c, 2 + n');
    RunStep(sem, out, c1, 1 + n');
    RunStep(sem, out, c2, n');
  }

  /** The next coroutine is polled. */
  lemma ToPollSim<U>(sem: Sem<U>, src: Blocks, out: Blocks, region: Region, ms: seq<Machine>, report: bool,
                     lifted: BlockId, lay: Loop, r: Coop<U>, c: Conf<U>)
    requires FleetOk(src, out, sem.base, region, ms, lifted) && LoopShape(out, sem.base, ms, report, lay)
    requires r.ctl.Deciding? && DecidesAt(src, region, ms, lay, r, c) && r.sched.next < |ms| && r.pos[r.sched.next].At?
    ensures CoopSim(src, region, ms, lifted, lay, Decide(region, report, r), Run(sem, out, c, 1))
  {
    hide FleetOk, LoopShape, LinkOk, AgreeBut, SameStates, EntersAt, ExitsBy, KeepsOutside, Run, Step;
    ShapeSizes(out, sem.base, ms, report, lay);
    AgreeSize(src, region, ms, r.pos, c.st.sys);
    var t := r.sched.next;
    FleetApart(src, out, sem.base, region, ms, lifted);
    LinkFacts(out, sem.base, ms, report, lay, t);
    StateDone(src, out, sem.base, region, ms, lifted, r.pos, c.st.sys, t);
    CheckStep(sem, out, ms, lay, lay.links[t], t, c.st, r.progress, r.sched.allDone);
    AgreeMoves(src, region, ms, r.pos, c.st.sys, Step(sem, out, c).st.sys);
    SameProgress(sem.base, ms, t);
    RunStep(sem, out, c, 0);
  }

  /** A pass is over. */
  lemma PassOverSim<U>(sem: Sem<U>, src: Blocks, out: Blocks, region: Region, ms: seq<Machine>, report: bool,
                       lifted: BlockId, lay: Loop, r: Coop<U>, c: Conf<U>) returns (n: nat)
    requires FleetOk(src, out, sem.base, region, ms, lifted) && LoopShape(out, sem.base, ms, report, lay)
    requires r.ctl.Deciding? && DecidesAt(src, region, ms, lay, r, c) && r.sched.next == |ms|
    ensures n >= 1
    ensures CoopSim(src, region, ms, lifted, lay, Decide(region, report, r), Run(sem, out, c, n))
  {
    hide FleetOk, AgreeBut, EntersAt, ExitsBy, KeepsOutside, Run, Step, LinkShape;
    ShapeSizes(out, sem.base, ms, report, lay);
    AgreeSize(src, region, ms, r.pos, c.st.sys);
    FleetApart(src, out, sem.base, region, ms, lifted);
    PassOverSteps(sem, out, ms, report, lay, c, r.progress, r.sched.allDone);
    var c1 := Step(sem, out, c);
    var c2 := Step(sem, out, c1);
    var c3 := Step(sem, out, c2);
    RunStep(sem, out, c, 0);
    RunStep(sem, out, c, 1);
    RunStep(sem, out, c, 2);
    RunStep(sem, out, c1, 0);
    RunStep(sem, out, c1, 1);
    RunStep(sem, out, c2, 0);
    if r.sched.allDone {
      n := 1;
    } else {
      n := if r.progress then 2 else 3;
      AgreeMoves(src, region, ms, r.pos, c.st.sys, c2.st.sys);
    }
  }

  lemma PassOverSteps<U>(sem: Sem<U>, out: Blocks, ms: seq<Machine>, report: bool, lay: Loop, c: Conf<U>,
                         progress: bool, allDone: bool)
    requires LoopShape(out, sem.base, ms, report, lay) && LocalsApart(sem.base, ms)
    requires c.Entering? && c.b == lay.links[|ms| - 1].next && Carries(ms, lay, c.st.sys, progress, allDone)
    ensures var c1 := Step(sem, out, c); var c2 := Step(sem, out, c1); var c3 := Step(sem, out, c2);
            && c1 == Entering(if allDone then lay.exit else lay.notDone, c.st)
            && (!allDone ==>
                  && c2.Entering? && c2.b == (if progress then lay.top else lay.stuck) && c2.st.w == c.st.w
                  && SameStates(ms, c.st.sys, c2.st.sys)
                  && (!progress ==> c3 == if report then Stopped(Deadlock, c2.st) else Entering(lay.top, c2.st)))
  {
    hide LinkShape;
    var c1 := Step(sem, out, c);
    LinkFacts(out, sem.base, ms, report, lay, 0);
    assert Scratch(sem.base, ms, lay.allDone);
    EmptyStep(sem, out, c.b, Branch(lay.allDone, lay.exit, lay.notDone), c.st);
    if !allDone {
      var v := Bit(Get(c.st.sys, ms[0].progress) == 1);
      ExecFew(sem, EqCheck(lay.progressed, ms[0].progress, 1), Nop, Nop, c.st);
      assert LoopLocal(sem.base, ms, lay, lay.progressed);
      Scratches(sem.base, ms, c.st.sys, lay.progressed, v);
      var c2 := Step(sem, out, c1);
      assert c2.st == Store(c.st.w, c.st.sys[lay.progressed := v]);
      if !progress {
        EmptyStep(sem, out, lay.stuck, if report then Deadlock else Goto(lay.top), c2.st);
      }
    }
  }

  /** A poll is over. */
  lemma AfterPollSim<U>(sem: Sem<U>, src: Blocks, out: Blocks, region: Region, ms: seq<Machine>, report: bool,
                        lifted: BlockId, lay: Loop, r: Coop<U>, c: Conf<U>) returns (n: nat)
    requires FleetOk(src, out, sem.base, region, ms, lifted) && LoopShape(out, sem.base, ms, report, lay)
    requires r.ctl.Polled? && CoopSim(src, region, ms, lifted, lay, r, c)
    ensures n >= 1
    ensures CoopSim(src, region, ms, lifted, lay, AfterPoll(r), Run(sem, out, c, n))
  {
    hide FleetOk, LoopShape, LinkOk, AgreeBut, SameStates, EntersAt, ExitsBy, KeepsOutside, Run, Step;
    ShapeSizes(out, sem.base, ms, report, lay);
    var t := r.ctl.j;
    var link := lay.links[t];
    var r' := AfterPoll(r);
    FleetApart(src, out, sem.base, region, ms, lifted);
    LinkFacts(out, sem.base, ms, report, lay, t);
    SameProgress(sem.base, ms, t);
    ExitStep(sem, out, sem.base, ms, lay, link, t, c);
    var c1 := Step(sem, out, c);
    AfterStep(sem, out, ms, lay, link, t, c1.st, r.progress, r.sched.allDone);
    var c2 := Step(sem, out, c1);
    SameAt(ms, c1.st.sys, c2.st.sys, t);
    AgreeMoves(src, region, ms, r.pos, c1.st.sys, c2.st.sys);
    var k: nat;
    var c3: Conf<U>;
    if r.ctl.res.Completed? {
      k := 1;
      StateDone(src, out, sem.base, region, ms, lifted, r.pos, c2.st.sys, t);
      MarkDoneStep(sem, out, ms, lay, link, t, c2.st, r.progress, r.sched.allDone);
      RunStep(sem, out, c2, 0);
    } else {
      k := MarkPendingSteps(sem, out, ms, lay, link, t, c2.st, r.progress, r.sched.allDone);
    }
    c3 := Run(sem, out, c2, k);
    AgreeMoves(src, region, ms, r.pos, c2.st.sys, c3.st.sys);
    var n' := TurnOver(sem, src, out, region, ms, report, lifted, lay, r', t, c3.st);
    n := 2 + k + n';
    RunStep(sem, out, c, 1 + k + n');
    RunStep(sem, out, c1, k + n');
    RunAdds(sem, out, c2, k, n');
  }

  lemma ExitStep<U>(sem: Sem<U>, out: Blocks, base: nat, ms: seq<Machine>, lay: Loop, link: Link, t: nat, c: Conf<U>)
    requires t < |ms| && LinkOk(out, base, ms, lay, link, t) && c.Entering? && c.b == ms[t].exit
    ensures Step(sem, out, c) == Entering(link.after, c.st)
  {
    EmptyStep(sem, out, ms[t].exit, Goto(link.after), c.st);
  }

  /** One step within the region. It speaks of the region's machines and of the loop alone. */
  lemma InnerStepSim<U>(sem: Sem<U>, src: Blocks, out: Blocks, region: Region, ms: seq<Machine>, report: bool,
                        lifted: BlockId, lay: Loop, r: Coop<U>, c: Conf<U>) returns (n: nat)
    requires FleetOk(src, out, sem.base, region, ms, lifted) && LoopShape(out, sem.base, ms, report, lay)
    requires IsActive(r.ctl) && CoopSim(src, region, ms, lifted, lay, r, c)
    ensures n >= 1
    ensures CoopSim(src, region, ms, lifted, lay, CoopStep(sem, src, region, report, r), Run(sem, out, c, n))
  {
    hide FleetOk, LoopShape, AgreeBut, SameStates, Run, Step, Decide, AfterPoll, OutsideStep, PollStep;
    match r.ctl
    case Deciding =>
      AgreeSize(src, region, ms, r.pos, c.st.sys);
      if r.sched.next == |ms| {
        n := PassOverSim(sem, src, out, region, ms, report, lifted, lay, r, c);
      } else if r.pos[r.sched.next].Done? {
        n := SkipSim(sem, src, out, region, ms, report, lifted, lay, r, c);
      } else {
        n := 1;
        ToPollSim(sem, src, out, region, ms, report, lifted, lay, r, c);
      }
    case Polled(_, _) =>
      n := AfterPollSim(sem, src, out, region, ms, report, lifted, lay, r, c);
    case _ =>
      n := PollSim(sem, src, out, region, ms, lifted, r, c);
      AllDoneKept(out, sem.base, ms, report, lay, c.st.sys, Run(sem, out, c, n).st.sys);
      PollKeeps(sem, src, region, r);
  }

  /** One step of round robin is one block of the output or a few. */
  lemma CoopStepSim<U>(sem: Sem<U>, src: Blocks, out: Blocks, region: Region, ms: seq<Machine>, report: bool,
                       lifted: BlockId, lay: Loop, r: Coop<U>, c: Conf<U>) returns (n: nat)
    requires RegionOk(src, sem.base, region) && CoopShape(src, out, sem.base, region, report, ms, lifted, lay)
    requires CoopSim(src, region, ms, lifted, lay, r, c)
    ensures n >= 1
    ensures CoopSim(src, region, ms, lifted, lay, CoopStep(sem, src, region, report, r), Run(sem, out, c, n))
  {
    hide FleetOk, LoopShape, BodiesOk, AgreeBut, SameStates, EntersAt, ExitsBy, KeepsOutside, Run, Step, Decide,
         AfterPoll, OutsideStep, PollStep;
    match r.ctl
    case Outside(b) =>
      if b == region.begin.0 {
        n := 1;
        EnterSim(sem, src, out, region, ms, lifted, lay.top, r, FIRST_TURN, c);
        ShapeSizes(out, sem.base, ms, report, lay);
        RunStep(sem, out, c, 0);
      } else {
        n := OutsideSim(sem, src, out, region, lay.exit, lay.post, r, FIRST_TURN, c);
      }
    case Halted(_) =>
      n := 1;
      RunStep(sem, out, c, 0);
      StoppedStays(sem, out, c);
    case _ => n := InnerStepSim(sem, src, out, region, ms, report, lifted, lay, r, c);
  }

  lemma AllDoneKept(out: Blocks, base: nat, ms: seq<Machine>, report: bool, lay: Loop, sys: map<LocalId, int>,
                    sys': map<LocalId, int>)
    requires LoopShape(out, base, ms, report, lay) && SameForeign(ms, sys, sys')
    ensures Get(sys', lay.allDone) == Get(sys, lay.allDone)
  {
  }

  // ── Whole runs ───────────────────────────────────────────────────────

  /** However long the source runs, the output keeps up. */
  lemma {:induction false} CoopRunSim<U>(sem: Sem<U>, src: Blocks, out: Blocks, region: Region, ms: seq<Machine>,
                                         report: bool, lifted: BlockId, lay: Loop, r: Coop<U>, c: Conf<U>, n: nat)
                                           returns (m: nat)
    requires RegionOk(src, sem.base, region) && CoopShape(src, out, sem.base, region, report, ms, lifted, lay)
    requires CoopSim(src, region, ms, lifted, lay, r, c)
    ensures m >= n
    ensures CoopSim(src, region, ms, lifted, lay, CoopRun(sem, src, region, report, r, n), Run(sem, out, c, m))
    decreases n
  {
    hide RegionOk, CoopShape, CoopSim, CoopStep, Step;
    if n == 0 {
      m := 0;
    } else {
      var k := CoopStepSim(sem, src, out, region, ms, report, lifted, lay, r, c);
      var rest := CoopRunSim(sem, src, out, region, ms, report, lifted, lay,
                             CoopStep(sem, src, region, report, r), Run(sem, out, c, k), n - 1);
      RunAdds(sem, out, c, k, rest);
      m := k + rest;
    }
  }

  /** A source program about to run a block outside its region. */
  function SourceStart<U>(b: BlockId, w: World<U>): Coop<U> {
    Ref(Outside(b), [], false, FIRST_TURN, w)
  }

  lemma SimIsSame<U>(src: Blocks, region: Region, ms: seq<Machine>, lifted: BlockId, lay: Loop, r: Coop<U>, c: Conf<U>)
    requires |lay.links| == |ms| > 0 && CoopSim(src, region, ms, lifted, lay, r, c)
    ensures SameOutcome(r, c)
  {
    hide AgreeBut;
  }

  /** The transform preserves meaning. Started alike, outside the region, the output passes
      through every state of the source's round-robin run: same user world, same trace, and
      it stops exactly when and how the source does. */
  lemma EveryStepIsMatched<U>(sem: Sem<U>, src: Blocks, out: Blocks, region: Region, ms: seq<Machine>, report: bool,
                              lifted: BlockId, lay: Loop, b: BlockId, w: World<U>, sys: map<LocalId, int>, n: nat)
    requires RegionOk(src, sem.base, region) && CoopShape(src, out, sem.base, region, report, ms, lifted, lay)
    requires IsOutside(src, region, b)
    ensures exists m :: m >= n && SameOutcome(CoopRun(sem, src, region, report, SourceStart(b, w), n),
                                              Run(sem, out, Entering(b, Store(w, sys)), m))
  {
    hide RegionOk, FleetOk, Run, CoopRun;
    ShapeSizes(out, sem.base, ms, report, lay);
    var m := CoopRunSim(sem, src, out, region, ms, report, lifted, lay, SourceStart(b, w), Entering(b, Store(w, sys)),
                        n);
    SimIsSame(src, region, ms, lifted, lay, CoopRun(sem, src, region, report, SourceStart(b, w), n),
              Run(sem, out, Entering(b, Store(w, sys)), m));
  }

  /** And the output does nothing else: its trace is always one the source goes on from, and
      it never stops where the source would not. */
  lemma NothingElseHappens<U>(sem: Sem<U>, src: Blocks, out: Blocks, region: Region, ms: seq<Machine>, report: bool,
                              lifted: BlockId, lay: Loop, b: BlockId, w: World<U>, sys: map<LocalId, int>, m: nat)
    requires RegionOk(src, sem.base, region) && CoopShape(src, out, sem.base, region, report, ms, lifted, lay)
    requires IsOutside(src, region, b)
    ensures exists n ::
              var r, c := CoopRun(sem, src, region, report, SourceStart(b, w), n),
                Run(sem, out, Entering(b, Store(w, sys)), m);
              c.st.w.trace <= r.w.trace && (c.Stopped? ==> SameOutcome(r, c))
  {
    hide RegionOk, CoopShape, IsOutside, Run, CoopRun;
    var c0 := Entering(b, Store(w, sys));
    EveryStepIsMatched(sem, src, out, region, ms, report, lifted, lay, b, w, sys, m);
    var m' :| m' >= m && SameOutcome(CoopRun(sem, src, region, report, SourceStart(b, w), m), Run(sem, out, c0, m'));
    RunAdds(sem, out, c0, m, m' - m);
    RunTraceGrows(sem, out, Run(sem, out, c0, m), m' - m);
    if Run(sem, out, c0, m).Stopped? {
      StoppedForGood(sem, out, Run(sem, out, c0, m), m' - m);
    }
  }

  lemma StateNamesPosition<U>(src: Blocks, out: Blocks, base: nat, region: Region, ms: seq<Machine>, report: bool,
                              lifted: BlockId, lay: Loop, r: Coop<U>, c: Conf<U>, i: nat)
    requires CoopShape(src, out, base, region, report, ms, lifted, lay)
    requires CoopSim(src, region, ms, lifted, lay, r, c) && r.ctl.Deciding? && i < |ms|
    ensures |r.pos| == |ms| == |region.coroutines|
    ensures StateTells(src, region.coroutines[i], ms[i], r.pos[i], Get(c.st.sys, ms[i].state))
  {
    StateDone(src, out, base, region, ms, lifted, r.pos, c.st.sys, i);
    LoweredOne(src, out, base, region, ms, lifted, i);
    AgreesOne(src, region, ms, r.pos, c.st.sys, i);
    var co := region.coroutines[i];
    assert MachineShape(src, out, base, co, ms[i], EntryOf(region, co, lifted), co.begin.1);
    hide FleetOk, LoopShape, CutShape, BodyOf;
  }

  /** A saved state is 9999 exactly if the coroutine has ended, 0 or the number of a suspension
      exactly if not, and then it is the number of where the coroutine stands. */
  ghost predicate StateTells(src: Blocks, co: Coroutine, m: Machine, p: Pos, v: int) {
    && (v == DONE_STATE <==> p.Done?)
    && (0 <= v <= |m.cuts| <==> p.At?)
    && StateIs(src, co, m, p, v)
  }

  /** Throughout the source's run, whenever the scheduler decides, the output comes to a point
      with the same world and trace where each machine's saved state tells the position of its
      coroutine. */
  lemma SavedStateIsPosition<U>(sem: Sem<U>, src: Blocks, out: Blocks, region: Region, ms: seq<Machine>, report: bool,
                                lifted: BlockId, lay: Loop, b: BlockId, w: World<U>, sys: map<LocalId, int>, n: nat)
    requires RegionOk(src, sem.base, region) && CoopShape(src, out, sem.base, region, report, ms, lifted, lay)
    requires IsOutside(src, region, b)
    ensures exists m ::
              && m >= n
              && var r, c := CoopRun(sem, src, region, report, SourceStart(b, w), n),
                             Run(sem, out, Entering(b, Store(w, sys)), m);
                 && SameOutcome(r, c)
                 && (r.ctl.Deciding? ==>
                       && |r.pos| == |ms| == |region.coroutines|
                       && forall i :: 0 <= i < |ms| ==>
                            StateTells(src, region.coroutines[i], ms[i], r.pos[i], Get(c.st.sys, ms[i].state)))
  {
    hide RegionOk, FleetOk, Run, CoopRun, StateTells;
    ShapeSizes(out, sem.base, ms, report, lay);
    var c0 := Entering(b, Store(w, sys));
    var m := CoopRunSim(sem, src, out, region, ms, report, lifted, lay, SourceStart(b, w), c0, n);
    var r, c := CoopRun(sem, src, region, report, SourceStart(b, w), n), Run(sem, out, c0, m);
    SimIsSame(src, region, ms, lifted, lay, r, c);
    if r.ctl.Deciding? {
      SomeMachine(ms, out, sem.base, report, lay);
      StateNamesPosition(src, out, sem.base, region, ms, report, lifted, lay, r, c, 0);
      forall i | 0 <= i < |ms|
        ensures StateTells(src, region.coroutines[i], ms[i], r.pos[i], Get(c.st.sys, ms[i].state))
      {
        StateNamesPosition(src, out, sem.base, region, ms, report, lifted, lay, r, c, i);
      }
    }
  }

  lemma SomeMachine(ms: seq<Machine>, out: Blocks, base: nat, report: bool, lay: Loop)
    requires LoopShape(out, base, ms, report, lay)
    ensures |ms| > 0
  {
  }

  // ── What round robin promises ────────────────────────────────────────

  /** `allDone` is what it says. */
  ghost predicate PassInv<U>(region: Region, r: Coop<U>) {
    r.ctl.Outside? || r.ctl.Halted? ||
    (&& |r.pos| == |region.coroutines|
     && (match r.ctl
         case Deciding => r.sched.next <= |r.pos|
         case Polling(j) => j == r.sched.next < |r.pos|
         case Inside(j, _, _) => j == r.sched.next < |r.pos|
         case Polled(j, res) => j == r.sched.next < |r.pos| && (res.Completed? <==> r.pos[j].Done?))
     && (r.sched.next > 0 || !r.ctl.Deciding? ==>
           (r.sched.allDone <==> forall i :: 0 <= i < r.sched.next ==> r.pos[i].Done?)))
  }

  lemma PassInvStep<U>(sem: Sem<U>, src: Blocks, region: Region, report: bool, r: Coop<U>)
    requires PassInv(region, r)
    ensures PassInv(region, CoopStep(sem, src, region, report, r))
  {
    hide DoAll, Do, NextSite;
    if r.ctl.Inside? {
      var j, b, k := r.ctl.j, r.ctl.b, r.ctl.k;
      if b < |src| && k <= |src[b].stmts| {
        RunFromResult(sem, src, region.coroutines[j], r, j, b, k);
      }
    }
  }

  lemma {:induction false} PassInvRun<U>(sem: Sem<U>, src: Blocks, region: Region, report: bool, r: Coop<U>, n: nat)
    requires PassInv(region, r)
    ensures PassInv(region, CoopRun(sem, src, region, report, r, n))
    decreases n
  {
    hide CoopStep, PassInv;
    if n > 0 {
      PassInvStep(sem, src, region, report, r);
      PassInvRun(sem, src, region, report, CoopStep(sem, src, region, report, r), n - 1);
    }
  }

  /** Control leaves the region at the end of a pass exactly if every coroutine has ended. */
  lemma LeavesWhenAllEnded<U>(sem: Sem<U>, src: Blocks, region: Region, report: bool, b: BlockId, w: World<U>, n: nat)
    ensures var r := CoopRun(sem, src, region, report, SourceStart(b, w), n);
            r.ctl.Deciding? && r.sched.next == |r.pos| > 0 ==>
              (CoopStep(sem, src, region, report, r).ctl == Outside(region.end.0) <==> forall i :: 0 <= i < |r.pos| ==>
                 r.pos[i].Done?)
  {
    PassInvRun(sem, src, region, report, SourceStart(b, w), n);
  }

  // ── Whose turn it is ─────────────────────────────────────────────────

  lemma {:induction false} OneStepMore<U>(sem: Sem<U>, src: Blocks, region: Region, report: bool, r: Coop<U>, n: nat)
    ensures CoopRun(sem, src, region, report, r, n + 1)
         == CoopStep(sem, src, region, report, CoopRun(sem, src, region, report, r, n))
    decreases n
  {
    hide CoopStep;
    var r' := CoopStep(sem, src, region, report, r);
    if n > 0 {
      OneStepMore(sem, src, region, report, r', n - 1);
    } else {
      assert CoopRun(sem, src, region, report, r', 0) == r';
    }
  }

  /** The scheduler begins a pass. */
  predicate BeginsPass<U>(r: Coop<U>) { r.ctl.Deciding? && r.sched.next == 0 }

  /** A pass began in step `m` of the run and goes on up to step `n`. */
  ghost predicate SamePass<U>(sem: Sem<U>, src: Blocks, region: Region, report: bool, r: Coop<U>, m: nat, n: nat) {
    && m <= n && BeginsPass(CoopRun(sem, src, region, report, r, m))
    && forall k :: m < k <= n ==>
         var now := CoopRun(sem, src, region, report, r, k);
         !now.ctl.Outside? && !now.ctl.Halted? && !BeginsPass(now)
  }

  /** In this pass coroutine `i` has been polled, or had ended. */
  ghost predicate Served<U>(sem: Sem<U>, src: Blocks, region: Region, report: bool, r: Coop<U>, m: nat, n: nat,
                            i: nat) {
    exists k: nat :: m <= k < n && IsServed(CoopRun(sem, src, region, report, r, k), i)
  }

  predicate IsServed<U>(r: Coop<U>, i: nat) {
    r.ctl == Polling(i) || (i < |r.pos| && r.pos[i].Done?)
  }

  /** The first coroutine whose turn has not come in this pass. */
  function Front<U>(r: Coop<U>): nat {
    match r.ctl
    case Polling(j) => j
    case Inside(j, _, _) => j + 1
    case Polled(j, _) => j + 1
    case _ => r.sched.next
  }

  /** Only one that has not ended is polled. */
  predicate PollsLive<U>(r: Coop<U>) {
    r.ctl.Polling? ==> r.ctl.j < |r.pos| && r.pos[r.ctl.j].At?
  }

  lemma PollsLiveStep<U>(sem: Sem<U>, src: Blocks, region: Region, report: bool, r: Coop<U>)
    requires PassInv(region, r) && PollsLive(r)
    ensures PollsLive(CoopStep(sem, src, region, report, r))
  {
    hide DoAll, Do, NextSite;
    if r.ctl.Inside? {
      var j, b, k := r.ctl.j, r.ctl.b, r.ctl.k;
      if b < |src| && k <= |src[b].stmts| {
        RunFromResult(sem, src, region.coroutines[j], r, j, b, k);
      }
    }
  }

  lemma {:induction false} PollsLiveRun<U>(sem: Sem<U>, src: Blocks, region: Region, report: bool, r: Coop<U>, n: nat)
    requires PassInv(region, r) && PollsLive(r)
    ensures PollsLive(CoopRun(sem, src, region, report, r, n))
    decreases n
  {
    hide CoopStep, PassInv, PollsLive;
    if n > 0 {
      PassInvStep(sem, src, region, report, r);
      PollsLiveStep(sem, src, region, report, r);
      PollsLiveRun(sem, src, region, report, CoopStep(sem, src, region, report, r), n - 1);
    }
  }

  lemma FrontMoves<U>(sem: Sem<U>, src: Blocks, region: Region, report: bool, r: Coop<U>)
    requires PassInv(region, r) && PollsLive(r) && !r.ctl.Outside? && !r.ctl.Halted?
    ensures var r' := CoopStep(sem, src, region, report, r);
            r'.ctl.Outside? || r'.ctl.Halted? || BeginsPass(r')
            || (&& Front(r) <= Front(r') <= Front(r) + 1
                && (Front(r') > Front(r) ==> IsServed(r, Front(r)))
                && (r.ctl.Polling? ==> Front(r') > Front(r)))
  {
    hide DoAll, Do, NextSite;
    if r.ctl.Inside? {
      var j, b, k := r.ctl.j, r.ctl.b, r.ctl.k;
      if b < |src| && k <= |src[b].stmts| {
        RunFromResult(sem, src, region.coroutines[j], r, j, b, k);
      }
    }
  }

  /** Turns go from the first coroutine to the last: in a pass nobody is polled twice, nobody before
      one written earlier, and everybody whose turn has come was polled or had ended. */
  lemma {:induction false} TurnsInOrder<U>(sem: Sem<U>, src: Blocks, region: Region, report: bool, r: Coop<U>, m: nat,
                                           n: nat)
    requires PassInv(region, r) && PollsLive(r) && SamePass(sem, src, region, report, r, m, n)
    ensures var now := CoopRun(sem, src, region, report, r, n);
            && (forall i: nat :: i < Front(now) ==> Served(sem, src, region, report, r, m, n, i))
            && (forall k: nat :: m <= k < n && CoopRun(sem, src, region, report, r, k).ctl.Polling? ==>
                  CoopRun(sem, src, region, report, r, k).ctl.j < Front(now))
    decreases n
  {
    hide CoopRun, CoopStep, PassInv;
    if m < n {
      TurnsInOrder(sem, src, region, report, r, m, n - 1);
      OneStepMore(sem, src, region, report, r, n - 1);
      PassInvRun(sem, src, region, report, r, n - 1);
      PollsLiveRun(sem, src, region, report, r, n - 1);
      var was, now := CoopRun(sem, src, region, report, r, n - 1), CoopRun(sem, src, region, report, r, n);
      FrontMoves(sem, src, region, report, was);
      hide Front, IsServed;
      forall i: nat | i < Front(now)
        ensures Served(sem, src, region, report, r, m, n, i)
      {
        if i < Front(was) {
          assert Served(sem, src, region, report, r, m, n - 1, i);
          var k: nat :| m <= k < n - 1 && IsServed(CoopRun(sem, src, region, report, r, k), i);
          assert m <= k < n;
        }
      }
      PollFront(was);
    }
  }

  lemma PollFront<U>(r: Coop<U>)
    ensures r.ctl.Polling? ==> Front(r) == r.ctl.j
  {
  }

  /** Round robin, over runs: when coroutine `j` is polled, every earlier one has been polled in this
      pass or had ended, and neither `j` nor a later one has been polled in it; and at the end of a
      pass everyone has been polled or had ended. */
  lemma EachPolledOnceAPass<U>(sem: Sem<U>, src: Blocks, region: Region, report: bool, b: BlockId, w: World<U>, m: nat,
                               n: nat)
    requires SamePass(sem, src, region, report, SourceStart(b, w), m, n)
    ensures var start := SourceStart(b, w); var now := CoopRun(sem, src, region, report, start, n);
            && (now.ctl.Polling? ==>
                  && (forall i: nat :: i < now.ctl.j ==> Served(sem, src, region, report, start, m, n, i))
                  && (forall k: nat :: m <= k < n && CoopRun(sem, src, region, report, start, k).ctl.Polling? ==>
                        CoopRun(sem, src, region, report, start, k).ctl.j < now.ctl.j))
            && (now.ctl.Deciding? && now.sched.next >= |now.pos| ==>
                  forall i: nat :: i < |now.pos| ==> Served(sem, src, region, report, start, m, n, i))
  {
    hide CoopRun, Served;
    TurnsInOrder(sem, src, region, report, SourceStart(b, w), m, n);
  }
}
