/** The one-shot executor of krio-stackless, against passes of the round-robin scheduler. */
module OneShot {
  // The structure polls every unfinished coroutine once and leaves, through `done` when all have
  // ended and through `pending` otherwise. A host calls it again at `top`, with its locals kept.
  // The reference is the round robin of Cooperative without a deadlock report: one call is one
  // pass. What a host puts into the `pending` block is `waiting`; the executor leaves the default.

  import opened Cfg
  import opened Coroutines
  import opened Regions
  import opened Machines
  import opened Fleets
  import opened Executors
  import opened Cooperative

  // ── The emitted structure ────────────────────────────────────────────

  /** The blocks and locals of one coroutine's visit. */
  datatype Visit = Visit(check: BlockId, after: BlockId, markDone: BlockId, markPending: BlockId, next: BlockId,
                         isDone: LocalId, isReady: LocalId)

  datatype Shot = Shot(top: BlockId, done: BlockId, pending: BlockId, post: BlockId, allDone: LocalId,
                       visits: seq<Visit>)

  ghost predicate VisitShape(out: Blocks, m: Machine, allDone: LocalId, v: Visit, first: bool) {
    && Is(out, v.check,
          if first then [AssignBool(allDone, true), EqCheck(v.isDone, m.state, DONE_STATE)]
          else [EqCheck(v.isDone, m.state, DONE_STATE)],
          Branch(v.isDone, v.after, m.dispatch))
    && Is(out, m.exit, [], Goto(v.after))
    && Is(out, v.after, [EqCheck(v.isReady, m.poll, POLL_READY)], Branch(v.isReady, v.markDone, v.markPending))
    && Is(out, v.markDone, [AssignI64(m.state, DONE_STATE)], Goto(v.next))
    && Is(out, v.markPending, [AssignBool(allDone, false)], Goto(v.next))
  }

  ghost predicate OwnLocal(base: nat, ms: seq<Machine>, l: LocalId) {
    base <= l && Foreign(ms, l)
  }

  ghost predicate VisitsShape(out: Blocks, base: nat, ms: seq<Machine>, waiting: Term, lay: Shot) {
    && |lay.visits| == |ms| && |ms| > 0
    && OwnLocal(base, ms, lay.allDone)
    && (forall i :: 0 <= i < |ms| ==>
          && OwnLocal(base, ms, lay.visits[i].isDone) && lay.visits[i].isDone != lay.allDone
          && OwnLocal(base, ms, lay.visits[i].isReady) && lay.visits[i].isReady != lay.allDone)
    && lay.visits[0].check == lay.top
    && (forall i :: 0 <= i < |ms| ==> VisitShape(out, ms[i], lay.allDone, lay.visits[i], i == 0))
    && (forall i :: 0 <= i < |ms| - 1 ==> Is(out, lay.visits[i].next, [], Goto(lay.visits[i + 1].check)))
    && Is(out, lay.visits[|ms| - 1].next, [], Branch(lay.allDone, lay.done, lay.pending))
    && Is(out, lay.pending, [], waiting)
  }

  /** The whole output for one region. */
  ghost predicate ShotShape(src: Blocks, out: Blocks, base: nat, region: Region, waiting: Term,
                            ms: seq<Machine>, lifted: BlockId, lay: Shot) {
    && FleetOk(src, out, base, region, ms, lifted)
    && VisitsShape(out, base, ms, waiting, lay)
    && KeepsOutside(src, out, region)
    && EntersAt(src, out, region, ms, lay.top)
    && ExitsBy(src, out, region, lay.done, lay.post)
  }

  // ── The simulation ───────────────────────────────────────────────────

  /** The locals the structure never reads for itself, and its own flag. */
  ghost predicate Holds(ms: seq<Machine>, allDone: LocalId, sys: map<LocalId, int>, progress: bool, all: bool)
    requires |ms| > 0
  {
    (Get(sys, ms[0].progress) == 1) == progress && Get(sys, allDone) == Bit(all)
  }

  ghost predicate VisitsAt<U>(src: Blocks, region: Region, ms: seq<Machine>, lay: Shot, r: Coop<U>, c: Conf<U>)
    requires |lay.visits| == |ms| > 0
  {
    && c.Entering? && c.st.w == r.w
    && AgreeBut(src, region, ms, r.pos, c.st.sys, |ms|)
    && r.sched.next <= |ms|
    && c.b == (if r.sched.next < |ms| then lay.visits[r.sched.next].check else lay.visits[|ms| - 1].next)
    && (Get(c.st.sys, ms[0].progress) == 1) == r.progress
    && (r.sched.next > 0 ==> Get(c.st.sys, lay.allDone) == Bit(r.sched.allDone))
  }

  ghost predicate Polls<U>(src: Blocks, region: Region, ms: seq<Machine>, lifted: BlockId, lay: Shot, r: Coop<U>,
                           c: Conf<U>, j: nat)
  {
    InPoll(src, region, ms, lifted, r, c) && Get(c.st.sys, lay.allDone) == Bit(r.sched.allDone) && r.sched.next == j
  }

  /** The output stands where the reference stands. `r.progress` is here what the output's
      own local holds: the one-shot structure never clears it. */
  ghost predicate ShotSim<U>(src: Blocks, region: Region, ms: seq<Machine>, lifted: BlockId, lay: Shot, r: Coop<U>,
                             c: Conf<U>)
    requires |lay.visits| == |ms| > 0
  {
    match r.ctl
    case Outside(_) => IsOut(src, region, lay.done, r, c) && (Get(c.st.sys, ms[0].progress) == 1) == r.progress
    case Deciding => VisitsAt(src, region, ms, lay, r, c)
    case Halted(t) => c.Stopped? && c.term == t && c.st.w == r.w
    case Polling(j) => Polls(src, region, ms, lifted, lay, r, c, j)
    case Inside(j, _, _) => Polls(src, region, ms, lifted, lay, r, c, j)
    case Polled(j, _) => Polls(src, region, ms, lifted, lay, r, c, j)
  }

  /** The reference with its `progress` set aside. */
  function With<U>(r: Coop<U>, p: bool): Coop<U> { r.(progress := p) }

  // ── The blocks of a visit ────────────────────────────────────────────

  ghost predicate VisitOk(out: Blocks, base: nat, ms: seq<Machine>, allDone: LocalId, v: Visit, t: nat)
    requires t < |ms|
  {
    && VisitShape(out, ms[t], allDone, v, t == 0)
    && base <= ms[t].state && base <= ms[t].poll && ms[t].state != ms[0].progress && ms[t].state != allDone
    && Scratch(base, ms, allDone)
    && Scratch(base, ms, v.isDone) && v.isDone != allDone
    && Scratch(base, ms, v.isReady) && v.isReady != allDone
  }

  lemma VisitFacts(out: Blocks, base: nat, ms: seq<Machine>, waiting: Term, lay: Shot, t: nat)
    requires VisitsShape(out, base, ms, waiting, lay) && LocalsApart(base, ms) && t < |ms|
    ensures VisitOk(out, base, ms, lay.allDone, lay.visits[t], t)
  {
    hide VisitShape, Is;
    forall l | base <= l && Foreign(ms, l)
      ensures Scratch(base, ms, l)
    {
    }
  }

  lemma VisitCheck<U>(sem: Sem<U>, out: Blocks, ms: seq<Machine>, allDone: LocalId, v: Visit, t: nat, st: Store<U>,
                      p: bool, all: bool)
    requires t < |ms| && VisitOk(out, sem.base, ms, allDone, v, t)
    requires (Get(st.sys, ms[0].progress) == 1) == p && (t > 0 ==> Get(st.sys, allDone) == Bit(all))
    ensures var c := Step(sem, out, Entering(v.check, st));
            && c.Entering? && c.st.w == st.w && SameStates(ms, st.sys, c.st.sys)
            && c.b == (if Get(st.sys, ms[t].state) == DONE_STATE then v.after else ms[t].dispatch)
            && Holds(ms, allDone, c.st.sys, p, t == 0 || all)
  {
    var m := ms[t];
    var d := Bit(Get(st.sys, m.state) == DONE_STATE);
    if t == 0 {
      var s1 := st.sys[allDone := 1];
      ExecFew(sem, AssignBool(allDone, true), EqCheck(v.isDone, m.state, DONE_STATE), Nop, st);
      Scratches(sem.base, ms, st.sys, allDone, 1);
      Scratches(sem.base, ms, s1, v.isDone, d);
      assert Step(sem, out, Entering(v.check, st)).st == Store(st.w, s1[v.isDone := d]);
    } else {
      ExecFew(sem, EqCheck(v.isDone, m.state, DONE_STATE), Nop, Nop, st);
      Scratches(sem.base, ms, st.sys, v.isDone, d);
      assert Step(sem, out, Entering(v.check, st)).st == Store(st.w, st.sys[v.isDone := d]);
    }
  }

  lemma VisitAfter<U>(sem: Sem<U>, out: Blocks, ms: seq<Machine>, allDone: LocalId, v: Visit, t: nat, st: Store<U>,
                      p: bool, all: bool)
    requires t < |ms| && VisitOk(out, sem.base, ms, allDone, v, t) && Holds(ms, allDone, st.sys, p, all)
    ensures var c := Step(sem, out, Entering(v.after, st));
            && c.Entering? && c.st.w == st.w && SameStates(ms, st.sys, c.st.sys)
            && c.b == (if Get(st.sys, ms[t].poll) == POLL_READY then v.markDone else v.markPending)
            && Holds(ms, allDone, c.st.sys, p, all)
  {
    ExecFew(sem, EqCheck(v.isReady, ms[t].poll, POLL_READY), Nop, Nop, st);
    Scratches(sem.base, ms, st.sys, v.isReady, Bit(Get(st.sys, ms[t].poll) == POLL_READY));
  }

  lemma VisitDone<U>(sem: Sem<U>, out: Blocks, ms: seq<Machine>, allDone: LocalId, v: Visit, t: nat, st: Store<U>,
                     p: bool, all: bool)
    requires t < |ms| && VisitOk(out, sem.base, ms, allDone, v, t) && Holds(ms, allDone, st.sys, p, all)
    requires Get(st.sys, ms[t].state) == DONE_STATE
    ensures var c := Step(sem, out, Entering(v.markDone, st));
            && c.Entering? && c.st.w == st.w && SameStates(ms, st.sys, c.st.sys) && c.b == v.next
            && Holds(ms, allDone, c.st.sys, p, all)
  {
    ExecFew(sem, AssignI64(ms[t].state, DONE_STATE), Nop, Nop, st);
    var sys' := st.sys[ms[t].state := DONE_STATE];
    assert forall l :: Get(sys', l) == Get(st.sys, l);
  }

  lemma VisitPending<U>(sem: Sem<U>, out: Blocks, ms: seq<Machine>, allDone: LocalId, v: Visit, t: nat, st: Store<U>,
                        p: bool, all: bool)
    requires t < |ms| && VisitOk(out, sem.base, ms, allDone, v, t) && Holds(ms, allDone, st.sys, p, all)
    ensures var c := Step(sem, out, Entering(v.markPending, st));
            && c.Entering? && c.st.w == st.w && SameStates(ms, st.sys, c.st.sys) && c.b == v.next
            && Holds(ms, allDone, c.st.sys, p, false)
  {
    ExecFew(sem, AssignBool(allDone, false), Nop, Nop, st);
    Scratches(sem.base, ms, st.sys, allDone, 0);
  }

  lemma VisitsSizes(out: Blocks, base: nat, ms: seq<Machine>, waiting: Term, lay: Shot)
    requires VisitsShape(out, base, ms, waiting, lay)
    ensures |lay.visits| == |ms| > 0 && lay.visits[0].check == lay.top
  {
  }

  /** The visit is over: on to the next, or to the end of the pass. */
  lemma VisitOver<U>(sem: Sem<U>, src: Blocks, out: Blocks, region: Region, ms: seq<Machine>, waiting: Term,
                     lifted: BlockId, lay: Shot, r: Coop<U>, t: nat, st: Store<U>) returns (n: nat)
    requires VisitsShape(out, sem.base, ms, waiting, lay) && t < |ms|
    requires r.ctl.Deciding? && r.sched.next == t + 1 && st.w == r.w
    requires AgreeBut(src, region, ms, r.pos, st.sys, |ms|)
             && Holds(ms, lay.allDone, st.sys, r.progress, r.sched.allDone)
    ensures ShotSim(src, region, ms, lifted, lay, r, Run(sem, out, Entering(lay.visits[t].next, st), n))
  {
    if t + 1 < |ms| {
      n := 1;
      EmptyStep(sem, out, lay.visits[t].next, Goto(lay.visits[t + 1].check), st);
      RunStep(sem, out, Entering(lay.visits[t].next, st), 0);
    } else {
      n := 0;
    }
  }

  // ── One step of the reference ────────────────────────────────────────

  /** A coroutine that has ended is passed over. */
  lemma PassBySim<U>(sem: Sem<U>, src: Blocks, out: Blocks, region: Region, ms: seq<Machine>, waiting: Term,
                     lifted: BlockId, lay: Shot, r: Coop<U>, p: bool, c: Conf<U>) returns (n: nat)
    requires ShotShape(src, out, sem.base, region, waiting, ms, lifted, lay)
    requires r.ctl.Deciding? && VisitsAt(src, region, ms, lay, With(r, p), c) && r.sched.next < |ms|
             && r.pos[r.sched.next].Done?
    ensures n >= 1
    ensures ShotSim(src, region, ms, lifted, lay, With(Decide(region, false, r), p), Run(sem, out, c, n))
  {
    hide FleetOk, VisitsShape, VisitOk, AgreeBut, SameStates, EntersAt, ExitsBy, KeepsOutside, Run, Step;
    VisitsSizes(out, sem.base, ms, waiting, lay);
    AgreeSize(src, region, ms, r.pos, c.st.sys);
    var t := r.sched.next;
    var v := lay.visits[t];
    FleetApart(src, out, sem.base, region, ms, lifted);
    VisitFacts(out, sem.base, ms, waiting, lay, t);
    StateDone(src, out, sem.base, region, ms, lifted, r.pos, c.st.sys, t);
    VisitCheck(sem, out, ms, lay.allDone, v, t, c.st, p, r.sched.allDone);
    var c1 := Step(sem, out, c);
    var all := t == 0 || r.sched.allDone;
    AgreeMoves(src, region, ms, r.pos, c.st.sys, c1.st.sys);
    StateDone(src, out, sem.base, region, ms, lifted, r.pos, c1.st.sys, t);
    VisitAfter(sem, out, ms, lay.allDone, v, t, c1.st, p, all);
    var c2 := Step(sem, out, c1);
    AgreeMoves(src, region, ms, r.pos, c1.st.sys, c2.st.sys);
    StateDone(src, out, sem.base, region, ms, lifted, r.pos, c2.st.sys, t);
    VisitDone(sem, out, ms, lay.allDone, v, t, c2.st, p, all);
    var c3 := Step(sem, out, c2);
    AgreeMoves(src, region, ms, r.pos, c2.st.sys, c3.st.sys);
    var n' := VisitOver(sem, src, out, region, ms, waiting, lifted, lay, With(Decide(region, false, r), p), t, c3.st);
    n := 3 + n';
    RunStep(sem, out, c, 2 + n');
    RunStep(sem, out, c1, 1 + n');
    RunStep(sem, out, c2, n');
  }

  /** The next coroutine is polled. */
  lemma StartPollSim<U>(sem: Sem<U>, src: Blocks, out: Blocks, region: Region, ms: seq<Machine>, waiting: Term,
                        lifted: BlockId, lay: Shot, r: Coop<U>, p: bool, c: Conf<U>)
    requires ShotShape(src, out, sem.base, region, waiting, ms, lifted, lay)
    requires r.ctl.Deciding? && VisitsAt(src, region, ms, lay, With(r, p), c) && r.sched.next < |ms|
             && r.pos[r.sched.next].At?
    ensures ShotSim(src, region, ms, lifted, lay, With(Decide(region, false, r), p), Run(sem, out, c, 1))
  {
    hide FleetOk, VisitsShape, VisitOk, AgreeBut, SameStates, EntersAt, ExitsBy, KeepsOutside, Run, Step;
    VisitsSizes(out, sem.base, ms, waiting, lay);
    AgreeSize(src, region, ms, r.pos, c.st.sys);
    var t := r.sched.next;
    FleetApart(src, out, sem.base, region, ms, lifted);
    VisitFacts(out, sem.base, ms, waiting, lay, t);
    StateDone(src, out, sem.base, region, ms, lifted, r.pos, c.st.sys, t);
    VisitCheck(sem, out, ms, lay.allDone, lay.visits[t], t, c.st, p, r.sched.allDone);
    AgreeMoves(src, region, ms, r.pos, c.st.sys, Step(sem, out, c).st.sys);
    SameProgress(sem.base, ms, t);
    RunStep(sem, out, c, 0);
  }

  /** The end of a pass that not every coroutine had ended by. */
  predicate Waits<U>(r: Coop<U>) {
    r.ctl.Deciding? && r.sched.next >= |r.pos| && !r.sched.allDone
  }

  /** The end of a pass is the end of a call: the fork, and what comes after it. */
  lemma ForkSteps<U>(sem: Sem<U>, src: Blocks, out: Blocks, region: Region, ms: seq<Machine>, waiting: Term,
                     lifted: BlockId, lay: Shot, r: Coop<U>, c: Conf<U>)
    requires ShotShape(src, out, sem.base, region, waiting, ms, lifted, lay)
    requires r.ctl.Deciding? && VisitsAt(src, region, ms, lay, r, c) && r.sched.next == |ms|
    ensures Step(sem, out, c) == Entering(if r.sched.allDone then lay.done else lay.pending, c.st)
    ensures !r.sched.allDone ==> Step(sem, out, Step(sem, out, c)) == Leave(sem, waiting, c.st)
  {
    hide FleetOk, VisitShape, AgreeBut, EntersAt, ExitsBy, KeepsOutside, Step;
    EmptyStep(sem, out, c.b, Branch(lay.allDone, lay.done, lay.pending), c.st);
    EmptyStep(sem, out, lay.pending, waiting, c.st);
  }

  lemma PassEndSim<U>(sem: Sem<U>, src: Blocks, out: Blocks, region: Region, ms: seq<Machine>, waiting: Term,
                      lifted: BlockId, lay: Shot, r: Coop<U>, p: bool, c: Conf<U>) returns (n: nat)
    requires ShotShape(src, out, sem.base, region, waiting, ms, lifted, lay)
    requires r.ctl.Deciding? && VisitsAt(src, region, ms, lay, With(r, p), c) && r.sched.next == |ms|
    requires Waits(r) ==> waiting == Goto(lay.top)
    ensures n >= 1
    ensures ShotSim(src, region, ms, lifted, lay, With(Decide(region, false, r), p), Run(sem, out, c, n))
  {
    hide FleetOk, VisitsShape, AgreeBut, EntersAt, ExitsBy, KeepsOutside, Run, Step;
    VisitsSizes(out, sem.base, ms, waiting, lay);
    AgreeSize(src, region, ms, r.pos, c.st.sys);
    ForkSteps(sem, src, out, region, ms, waiting, lifted, lay, With(r, p), c);
    n := if r.sched.allDone then 1 else 2;
    RunStep(sem, out, c, 0);
    RunStep(sem, out, c, 1);
    RunStep(sem, out, Step(sem, out, c), 0);
  }

  /** A poll is over. */
  lemma PollOverSim<U>(sem: Sem<U>, src: Blocks, out: Blocks, region: Region, ms: seq<Machine>, waiting: Term,
                       lifted: BlockId, lay: Shot, r: Coop<U>, p: bool, c: Conf<U>) returns (n: nat)
    requires ShotShape(src, out, sem.base, region, waiting, ms, lifted, lay)
    requires r.ctl.Polled? && ShotSim(src, region, ms, lifted, lay, With(r, p), c)
    ensures n >= 1
    ensures ShotSim(src, region, ms, lifted, lay, With(AfterPoll(r), p), Run(sem, out, c, n))
  {
    hide FleetOk, VisitsShape, VisitOk, AgreeBut, SameStates, EntersAt, ExitsBy, KeepsOutside, Run, Step;
    VisitsSizes(out, sem.base, ms, waiting, lay);
    var t := r.ctl.j;
    var v := lay.visits[t];
    FleetApart(src, out, sem.base, region, ms, lifted);
    VisitFacts(out, sem.base, ms, waiting, lay, t);
    SameProgress(sem.base, ms, t);
    VisitExit(sem, out, ms, lay.allDone, v, t, c);
    var c1 := Step(sem, out, c);
    VisitAfter(sem, out, ms, lay.allDone, v, t, c1.st, p, r.sched.allDone);
    var c2 := Step(sem, out, c1);
    SameAt(ms, c1.st.sys, c2.st.sys, t);
    AgreeMoves(src, region, ms, r.pos, c1.st.sys, c2.st.sys);
    if r.ctl.res.Completed? {
      StateDone(src, out, sem.base, region, ms, lifted, r.pos, c2.st.sys, t);
      VisitDone(sem, out, ms, lay.allDone, v, t, c2.st, p, r.sched.allDone);
    } else {
      VisitPending(sem, out, ms, lay.allDone, v, t, c2.st, p, r.sched.allDone);
    }
    var c3 := Step(sem, out, c2);
    AgreeMoves(src, region, ms, r.pos, c2.st.sys, c3.st.sys);
    var n' := VisitOver(sem, src, out, region, ms, waiting, lifted, lay, With(AfterPoll(r), p), t, c3.st);
    n := 3 + n';
    RunStep(sem, out, c, 2 + n');
    RunStep(sem, out, c1, 1 + n');
    RunStep(sem, out, c2, n');
  }

  lemma VisitExit<U>(sem: Sem<U>, out: Blocks, ms: seq<Machine>, allDone: LocalId, v: Visit, t: nat, c: Conf<U>)
    requires t < |ms| && VisitOk(out, sem.base, ms, allDone, v, t) && c.Entering? && c.b == ms[t].exit
    ensures Step(sem, out, c) == Entering(v.after, c.st)
  {
    EmptyStep(sem, out, ms[t].exit, Goto(v.after), c.st);
  }

  /** Polling does not look at `progress`. */
  lemma PollForgets<U>(sem: Sem<U>, src: Blocks, region: Region, r: Coop<U>, p: bool)
    ensures var r' := PollStep(sem, src, region, With(r, p)); With(PollStep(sem, src, region, r), r'.progress) == r'
  {
    hide DoAll, Do, NextSite;
  }

  lemma OwnLocalsKept(out: Blocks, base: nat, ms: seq<Machine>, waiting: Term, lay: Shot, sys: map<LocalId, int>,
                      sys': map<LocalId, int>)
    requires VisitsShape(out, base, ms, waiting, lay) && SameForeign(ms, sys, sys')
    ensures Get(sys', lay.allDone) == Get(sys, lay.allDone)
  {
  }

  /** One step of round robin is one block of the output or a few. */
  lemma ShotStepSim<U>(sem: Sem<U>, src: Blocks, out: Blocks, region: Region, ms: seq<Machine>, waiting: Term,
                       lifted: BlockId, lay: Shot, r: Coop<U>, p: bool, c: Conf<U>) returns (n: nat, p': bool)
    requires RegionOk(src, sem.base, region) && ShotShape(src, out, sem.base, region, waiting, ms, lifted, lay)
    requires ShotSim(src, region, ms, lifted, lay, With(r, p), c)
    requires Waits(r) ==> waiting == Goto(lay.top)
    ensures n >= 1
    ensures ShotSim(src, region, ms, lifted, lay, With(CoopStep(sem, src, region, false, r), p'), Run(sem, out, c, n))
  {
    hide FleetOk, VisitsShape, BodiesOk, AgreeBut, SameStates, EntersAt, ExitsBy, KeepsOutside, Run, Step, Decide,
         AfterPoll, OutsideStep, PollStep;
    p' := p;
    VisitsSizes(out, sem.base, ms, waiting, lay);
    match r.ctl
    case Outside(b) =>
      OutsideForgets(sem, src, region, r, p, b);
      if b == region.begin.0 {
        n := 1;
        EnterSim(sem, src, out, region, ms, lifted, lay.top, With(r, p), FIRST_TURN, c);
        FleetApart(src, out, sem.base, region, ms, lifted);
        RunStep(sem, out, c, 0);
      } else {
        n := OutsideSim(sem, src, out, region, lay.done, lay.post, With(r, p), FIRST_TURN, c);
      }
    case Deciding =>
      AgreeSize(src, region, ms, r.pos, c.st.sys);
      if r.sched.next == |ms| {
        n := PassEndSim(sem, src, out, region, ms, waiting, lifted, lay, r, p, c);
      } else if r.pos[r.sched.next].Done? {
        n := PassBySim(sem, src, out, region, ms, waiting, lifted, lay, r, p, c);
      } else {
        n := 1;
        StartPollSim(sem, src, out, region, ms, waiting, lifted, lay, r, p, c);
      }
    case Polled(_, _) =>
      n := PollOverSim(sem, src, out, region, ms, waiting, lifted, lay, r, p, c);
    case Halted(_) =>
      n := 1;
      RunStep(sem, out, c, 0);
      StoppedStays(sem, out, c);
    case _ =>
      n := PollSim(sem, src, out, region, ms, lifted, With(r, p), c);
      OwnLocalsKept(out, sem.base, ms, waiting, lay, c.st.sys, Run(sem, out, c, n).st.sys);
      PollKeeps(sem, src, region, With(r, p));
      PollForgets(sem, src, region, r, p);
      p' := PollStep(sem, src, region, With(r, p)).progress;
  }

  lemma OutsideForgets<U>(sem: Sem<U>, src: Blocks, region: Region, r: Coop<U>, p: bool, b: BlockId)
    ensures OutsideStep(sem, src, region, With(r, p), FIRST_TURN, b)
            == With(OutsideStep(sem, src, region, r, FIRST_TURN, b), p)
  {
    hide DoAll;
  }

  // ── Whole runs ───────────────────────────────────────────────────────

  /** The host calls again whenever the structure reports that it is pending, or does not
      get to. */
  ghost predicate CallsAgain<U>(sem: Sem<U>, src: Blocks, region: Region, waiting: Term, lay: Shot, r: Coop<U>,
                                n: nat) {
    waiting == Goto(lay.top) || forall k: nat :: k < n ==> !Waits(CoopRun(sem, src, region, false, r, k))
  }

  lemma CallsOn<U>(sem: Sem<U>, src: Blocks, region: Region, waiting: Term, lay: Shot, r: Coop<U>, n: nat)
    requires CallsAgain(sem, src, region, waiting, lay, r, n) && n > 0
    ensures Waits(r) ==> waiting == Goto(lay.top)
    ensures CallsAgain(sem, src, region, waiting, lay, CoopStep(sem, src, region, false, r), n - 1)
  {
    hide Waits, CoopStep;
    var r' := CoopStep(sem, src, region, false, r);
    if waiting != Goto(lay.top) {
      assert CoopRun(sem, src, region, false, r, 0) == r;
      forall k: nat | k < n - 1
        ensures !Waits(CoopRun(sem, src, region, false, r', k))
      {
        var next := k + 1;
        assert CoopRun(sem, src, region, false, r, next) == CoopRun(sem, src, region, false, r', k);
      }
    }
  }

  lemma {:induction false} ShotRunSim<U>(sem: Sem<U>, src: Blocks, out: Blocks, region: Region, ms: seq<Machine>,
                                         waiting: Term, lifted: BlockId, lay: Shot, r: Coop<U>, p: bool, c: Conf<U>,
                                           n: nat) returns (m: nat, p': bool)
    requires RegionOk(src, sem.base, region) && ShotShape(src, out, sem.base, region, waiting, ms, lifted, lay)
    requires ShotSim(src, region, ms, lifted, lay, With(r, p), c)
    requires CallsAgain(sem, src, region, waiting, lay, r, n)
    ensures m >= n
    ensures ShotSim(src, region, ms, lifted, lay, With(CoopRun(sem, src, region, false, r, n), p'), Run(sem, out, c, m))
    decreases n
  {
    hide RegionOk, ShotSim, CoopStep, Step, Waits, CallsAgain, FleetOk, EntersAt, ExitsBy, KeepsOutside;
    VisitsSizes(out, sem.base, ms, waiting, lay);
    hide VisitsShape;
    if n == 0 {
      m, p' := 0, p;
    } else {
      CallsOn(sem, src, region, waiting, lay, r, n);
      var k, p1 := ShotStepSim(sem, src, out, region, ms, waiting, lifted, lay, r, p, c);
      var rest: nat;
      rest, p' := ShotRunSim(sem, src, out, region, ms, waiting, lifted, lay,
                             CoopStep(sem, src, region, false, r), p1, Run(sem, out, c, k), n - 1);
      RunAdds(sem, out, c, k, rest);
      m := k + rest;
    }
  }

  lemma ShotIsSame<U>(src: Blocks, region: Region, ms: seq<Machine>, lifted: BlockId, lay: Shot, r: Coop<U>, p: bool,
                      c: Conf<U>)
    requires |lay.visits| == |ms| > 0 && ShotSim(src, region, ms, lifted, lay, With(r, p), c)
    ensures SameOutcome(r, c)
  {
    hide AgreeBut;
  }

  /** A host that calls again on every pending report gets the round robin without a deadlock
      report: same user world, same trace, pass by pass, and it is done when round robin is. */
  lemma EveryCallIsAPass<U>(sem: Sem<U>, src: Blocks, out: Blocks, region: Region, ms: seq<Machine>,
                            lifted: BlockId, lay: Shot, b: BlockId, w: World<U>, sys: map<LocalId, int>, n: nat)
    requires RegionOk(src, sem.base, region) && ShotShape(src, out, sem.base, region, Goto(lay.top), ms, lifted, lay)
    requires IsOutside(src, region, b)
    ensures exists m :: m >= n && SameOutcome(CoopRun(sem, src, region, false, SourceStart(b, w), n),
                                              Run(sem, out, Entering(b, Store(w, sys)), m))
  {
    hide RegionOk, FleetOk, Run, CoopRun, EntersAt, ExitsBy, KeepsOutside;
    VisitsSizes(out, sem.base, ms, Goto(lay.top), lay);
    var p := Get(sys, ms[0].progress) == 1;
    var r := SourceStart(b, w);
    assert With(r, p).progress == p;
    var m, p' := ShotRunSim(sem, src, out, region, ms, Goto(lay.top), lifted, lay, r, p, Entering(b, Store(w, sys)), n);
    ShotIsSame(src, region, ms, lifted, lay, CoopRun(sem, src, region, false, r, n), p',
               Run(sem, out, Entering(b, Store(w, sys)), m));
  }

  /** And such a host sees nothing else. */
  lemma NothingElseInCalls<U>(sem: Sem<U>, src: Blocks, out: Blocks, region: Region, ms: seq<Machine>,
                              lifted: BlockId, lay: Shot, b: BlockId, w: World<U>, sys: map<LocalId, int>, m: nat)
    requires RegionOk(src, sem.base, region) && ShotShape(src, out, sem.base, region, Goto(lay.top), ms, lifted, lay)
    requires IsOutside(src, region, b)
    ensures exists n ::
              var r, c := CoopRun(sem, src, region, false, SourceStart(b, w), n),
                Run(sem, out, Entering(b, Store(w, sys)), m);
              c.st.w.trace <= r.w.trace && (c.Stopped? ==> SameOutcome(r, c))
  {
    hide RegionOk, ShotShape, IsOutside, Run, CoopRun;
    var c0 := Entering(b, Store(w, sys));
    EveryCallIsAPass(sem, src, out, region, ms, lifted, lay, b, w, sys, m);
    var m' :| m' >= m && SameOutcome(CoopRun(sem, src, region, false, SourceStart(b, w), m), Run(sem, out, c0, m'));
    RunAdds(sem, out, c0, m, m' - m);
    RunTraceGrows(sem, out, Run(sem, out, c0, m), m' - m);
    if Run(sem, out, c0, m).Stopped? {
      StoppedForGood(sem, out, Run(sem, out, c0, m), m' - m);
    }
  }

  // ── A single call ────────────────────────────────────────────────────

  /** The end of a call: it leaves through `done` exactly on the pass on which the loop leaves
      the region, and otherwise through `pending` with every machine's state saved, in just
      the state from which a call at `top` is the loop's next pass. */
  ghost predicate CallEnds<U>(sem: Sem<U>, src: Blocks, out: Blocks, region: Region, ms: seq<Machine>, lay: Shot,
                              r: Coop<U>, c: Conf<U>) {
    var ended := forall i :: 0 <= i < |r.pos| ==> r.pos[i].Done?;
    && c.Entering? && c.st.w == r.w
    && Step(sem, out, c) == Entering(if ended then lay.done else lay.pending, c.st)
    && (CoopStep(sem, src, region, false, r).ctl == Outside(region.end.0) <==> ended)
    && AgreeBut(src, region, ms, r.pos, c.st.sys, |ms|)
  }

  /** From any call on, with whatever stands in `pending`: the call ends as the pass does. */
  lemma OneCallIsOnePass<U>(sem: Sem<U>, src: Blocks, out: Blocks, region: Region, ms: seq<Machine>, waiting: Term,
                            lifted: BlockId, lay: Shot, r: Coop<U>, p: bool, c: Conf<U>, n: nat)
    requires RegionOk(src, sem.base, region) && ShotShape(src, out, sem.base, region, waiting, ms, lifted, lay)
    requires |lay.visits| == |ms| > 0 && ShotSim(src, region, ms, lifted, lay, With(r, p), c) && PassInv(region, r)
    requires CallsAgain(sem, src, region, waiting, lay, r, n)
    requires var r' := CoopRun(sem, src, region, false, r, n); r'.ctl.Deciding? && r'.sched.next == |r'.pos|
    ensures exists m ::
              && m >= n
              && CallEnds(sem, src, out, region, ms, lay, CoopRun(sem, src, region, false, r, n), Run(sem, out, c, m))
  {
    hide RegionOk, FleetOk, VisitsShape, EntersAt, ExitsBy, KeepsOutside, CoopRun, Run, CallsAgain, PassInv, Step,
         AgreeBut;
    var r' := CoopRun(sem, src, region, false, r, n);
    var m, p' := ShotRunSim(sem, src, out, region, ms, waiting, lifted, lay, r, p, c, n);
    var c' := Run(sem, out, c, m);
    AgreeSize(src, region, ms, r'.pos, c'.st.sys);
    PassInvRun(sem, src, region, false, r, n);
    EndOfPass(region, r');
    ForkSteps(sem, src, out, region, ms, waiting, lifted, lay, With(r', p'), c');
    assert CallEnds(sem, src, out, region, ms, lay, r', c');
  }

  lemma EndOfPass<U>(region: Region, r: Coop<U>)
    requires PassInv(region, r) && r.ctl.Deciding? && r.sched.next == |r.pos| > 0
    ensures r.sched.allDone <==> forall i :: 0 <= i < |r.pos| ==> r.pos[i].Done?
    ensures |r.pos| == |region.coroutines|
  {
  }

  /** Calling again at `top`, with the locals of a call that ended pending, starts the next pass. */
  lemma CallingAgain<U>(sem: Sem<U>, src: Blocks, out: Blocks, region: Region, ms: seq<Machine>, waiting: Term,
                        lifted: BlockId, lay: Shot, r: Coop<U>, p: bool, c: Conf<U>)
    requires ShotShape(src, out, sem.base, region, waiting, ms, lifted, lay)
    requires |lay.visits| == |ms| > 0 && ShotSim(src, region, ms, lifted, lay, With(r, p), c) && Waits(r)
    ensures ShotSim(src, region, ms, lifted, lay, With(CoopStep(sem, src, region, false, r), p),
                    Entering(lay.top, c.st))
  {
    hide FleetOk, VisitShape, AgreeBut, EntersAt, ExitsBy, KeepsOutside;
    AgreeSize(src, region, ms, r.pos, c.st.sys);
  }
}
