/** The state machine that krio-stackless makes of one coroutine, and why polling it is
running the coroutine from where it stood. */
module Machines {
  // `MachineShape` says what every block of the machine holds. The emitters in Lowering
  // establish it; here it is all that is used.

  import opened Options
  import opened Cfg
  import opened Coroutines
  import opened Regions

  /** The blocks a suspension was cut into. `reentry` is where the coroutine resumes. */
  datatype Cut = Cut(
    bb: BlockId, idx: nat,
    pause: BlockId, guard: BlockId, resume: BlockId, blocked: BlockId,
    peek: Option<LocalId>, reentry: BlockId)

  /** A coroutine's machine. */
  datatype Machine = Machine(
    state: LocalId, poll: LocalId, progress: LocalId, check: Option<LocalId>,
    dispatch: BlockId, exit: BlockId, done: BlockId,
    cuts: seq<Cut>)

  ghost predicate Is(out: Blocks, b: BlockId, stmts: seq<Stmt>, term: Term) {
    b < |out| && out[b] == Block(stmts, term)
  }

  /** As `Is`, with markers erased. */
  ghost predicate IsLike(out: Blocks, b: BlockId, stmts: seq<Stmt>, term: Term) {
    b < |out| && Alike(stmts, out[b].stmts) && out[b].term == term
  }

  /** The guarded operation behind its peek, and then the rest of the block. */
  ghost predicate IsGuardedTail(out: Blocks, b: BlockId, progress: LocalId, chan: nat, rest: seq<Stmt>, term: Term) {
    && b < |out| && |out[b].stmts| >= 2
    && out[b].stmts[0] == AssignI64(progress, 1) && out[b].stmts[1] == Recv(chan)
    && Alike(rest, out[b].stmts[2..]) && out[b].term == term
  }

  /** How block `src` of the source, entered at `head` from statement `from` on, is cut at
      the suspension with state number `code`. */
  ghost predicate CutShape(src: Block<Stmt>, from: nat, head: BlockId, out: Blocks, m: Machine, code: int, c: Cut) {
    && from <= c.idx < |src.stmts|
    && match src.stmts[c.idx]
       case GuardedRecv(ch) =>
         && c.reentry == c.guard
         && (if c.idx == from then c.guard == head
             else IsLike(out, head, src.stmts[from..c.idx], Goto(c.guard)))
         && c.peek.Some?
         && Is(out, c.guard, [Peek(c.peek.value, ch)], Branch(c.peek.value, c.resume, c.blocked))
         && IsGuardedTail(out, c.resume, m.progress, ch, src.stmts[c.idx + 1..], src.term)
         && Is(out, c.blocked, [AssignI64(m.state, code), AssignI64(m.poll, POLL_BLOCKED)], Goto(m.exit))
       case _ =>
         && c.reentry == c.resume
         && IsLike(out, head, src.stmts[from..c.idx + 1], Goto(c.pause))
         && !out[head].stmts[c.idx - from].YieldMark?
         && Is(out, c.pause, [AssignI64(m.state, code), AssignI64(m.poll, POLL_PENDING)], Goto(m.exit))
         && IsLike(out, c.resume, src.stmts[c.idx + 1..], src.term)
         && Suspends(src.stmts[c.idx])
  }

  function HeadOf(co: Coroutine, entry: BlockId, b: BlockId): BlockId {
    if b == co.begin.0 then entry else b
  }

  function FromOf(co: Coroutine, start: nat, b: BlockId): nat {
    if b == co.begin.0 then start else 0
  }

  ghost predicate IsCutAt(m: Machine, b: BlockId) {
    exists i :: 0 <= i < |m.cuts| && m.cuts[i].bb == b
  }

  function Targets(entry: BlockId, cuts: seq<Cut>): (r: seq<(int, BlockId)>)
    ensures |r| == |cuts| + 1 && r[0] == (0, entry)
    ensures forall i :: 1 <= i < |r| ==> r[i] == (i, cuts[i - 1].reentry)
  {
    if |cuts| == 0 then [(0, entry)]
    else Targets(entry, cuts[..|cuts| - 1]) + [(|cuts|, cuts[|cuts| - 1].reentry)]
  }

  /** The locals of a machine that only it uses. */
  ghost predicate Temporary(m: Machine, l: LocalId) {
    m.check == Some(l) || exists i :: 0 <= i < |m.cuts| && m.cuts[i].peek == Some(l)
  }

  ghost predicate LocalsOk(base: nat, m: Machine) {
    && base <= m.state && base <= m.poll && base <= m.progress
    && m.state != m.poll && m.state != m.progress && m.poll != m.progress
    && (forall l :: Temporary(m, l) ==> base <= l && l != m.state && l != m.poll && l != m.progress)
  }

  ghost predicate CutsOk(src: Blocks, out: Blocks, co: Coroutine, m: Machine, entry: BlockId, start: nat) {
    && |m.cuts| < DONE_STATE
    && (forall i :: 0 <= i < |m.cuts| ==>
          && m.cuts[i].bb in BodyOf(src, co) && StartOf(co, m.cuts[i].bb) <= m.cuts[i].idx
          && CutShape(src[m.cuts[i].bb], FromOf(co, start, m.cuts[i].bb), HeadOf(co, entry, m.cuts[i].bb), out, m,
                      i + 1, m.cuts[i]))
    && (forall i, j :: 0 <= i < |m.cuts| && 0 <= j < |m.cuts| && i != j ==> m.cuts[i].bb != m.cuts[j].bb)
  }

  /** A block of the body without a suspension is as it was; the end block feeds `done`. */
  ghost predicate PlainShape(src: Blocks, out: Blocks, co: Coroutine, m: Machine, entry: BlockId, start: nat,
                             b: BlockId)
    requires b < |src|
  {
    && FromOf(co, start, b) <= |src[b].stmts|
    && IsLike(out, HeadOf(co, entry, b), src[b].stmts[FromOf(co, start, b)..],
              if b == co.end.0 then Goto(m.done) else src[b].term)
    && (forall i :: StartOf(co, b) <= i < |src[b].stmts| ==> !Suspends(src[b].stmts[i]))
  }

  ghost predicate DispatchShape(out: Blocks, m: Machine, entry: BlockId) {
    if |m.cuts| == 0
    then m.check.Some?
      && Is(out, m.dispatch, [EqCheck(m.check.value, m.state, DONE_STATE)], Branch(m.check.value, m.exit, entry))
    else Is(out, m.dispatch, [], Switch(m.state, Targets(entry, m.cuts), m.exit))
  }

  /** The whole machine. State 0 enters at `entry`, which holds the begin block from
      statement `start` on. */
  ghost predicate MachineShape(src: Blocks, out: Blocks, base: nat, co: Coroutine, m: Machine, entry: BlockId,
                               start: nat) {
    && LocalsOk(base, m)
    && CutsOk(src, out, co, m, entry, start)
    && (forall b :: b in BodyOf(src, co) && !IsCutAt(m, b) ==> PlainShape(src, out, co, m, entry, start, b))
    && Is(out, m.done, [AssignI64(m.poll, POLL_READY), AssignI64(m.state, DONE_STATE)], Goto(m.exit))
    && DispatchShape(out, m, entry)
  }

  // ── Polling ──────────────────────────────────────────────────────────

  /** The statement at which a cut resumes: the guard itself, or what follows. */
  function ReentryIdx(src: Blocks, c: Cut): nat
    requires c.bb < |src| && c.idx < |src[c.bb].stmts|
  {
    if src[c.bb].stmts[c.idx].GuardedRecv? then c.idx else c.idx + 1
  }

  /** The block at which the machine stands when the coroutine stands at `(b, k)`. */
  ghost predicate Stands(src: Blocks, co: Coroutine, m: Machine, entry: BlockId, b: BlockId, k: nat, at: BlockId) {
    || (k == StartOf(co, b) && at == HeadOf(co, entry, b))
    || (exists i :: 0 <= i < |m.cuts| && CutStands(src, m.cuts[i], b, k) && at == m.cuts[i].reentry)
  }

  ghost predicate CutStands(src: Blocks, c: Cut, b: BlockId, k: nat) {
    c.bb == b && b < |src| && c.idx < |src[b].stmts| && k == ReentryIdx(src, c)
  }

  /** `v` is the state number of position `p`. */
  ghost predicate StateIs(src: Blocks, co: Coroutine, m: Machine, p: Pos, v: int) {
    match p
    case Done => v == DONE_STATE
    case At(b, k) =>
      || (v == 0 && b == co.begin.0 && k == co.begin.1)
      || (1 <= v <= |m.cuts| && CutStands(src, m.cuts[v - 1], b, k))
  }

  /** What a poll leaves alone. */
  ghost predicate Framed(m: Machine, sys: map<LocalId, int>, sys': map<LocalId, int>) {
    forall l :: l != m.state && l != m.poll && l != m.progress && !Temporary(m, l) ==> Get(sys', l) == Get(sys, l)
  }

  function ResultCode(res: PollResult): int {
    match res
    case Completed => POLL_READY
    case Yielded => POLL_PENDING
    case Blocked => POLL_BLOCKED
  }

  /** The machine has followed the coroutine to where `r` says it is. */
  ghost predicate Follows<U, S>(src: Blocks, co: Coroutine, m: Machine, entry: BlockId, j: nat, r: Ref<U, S>,
                                c: Conf<U>)
  {
    && j < |r.pos| && c.st.w == r.w
    && (Get(c.st.sys, m.progress) == 1) == r.progress
    && match r.ctl
       case Inside(i, b, k) =>
         && i == j && b in BodyOf(src, co) && k <= |src[b].stmts|
         && c.Entering? && Stands(src, co, m, entry, b, k, c.b)
       case Polled(i, res) =>
         && i == j && c.Entering? && c.b == m.exit
         && Get(c.st.sys, m.poll) == ResultCode(res)
         && StateIs(src, co, m, r.pos[j], Get(c.st.sys, m.state))
         && (res.Completed? <==> r.pos[j].Done?)
       case Halted(t) => c.Stopped? && c.term == t
       case _ => false
  }

  /** As `Follows`, from locals `sys` on. */
  ghost predicate Reached<U, S>(src: Blocks, co: Coroutine, m: Machine, entry: BlockId, j: nat, r: Ref<U, S>,
                                sys: map<LocalId, int>, c: Conf<U>)
  {
    Follows(src, co, m, entry, j, r, c) && Framed(m, sys, c.st.sys)
  }

  lemma UserLeave<U>(sem: Sem<U>, t: Term, st: Store<U>, n: nat)
    requires UserTerm(t, sem.base, n)
    ensures var v := if Scrutinee(t).Some? then sem.read(Scrutinee(t).value, st.w.u) else 0;
            Leave(sem, t, st) == match Follow(t, v) case Some(b) => Entering(b, st) case None => Stopped(t, st)
  {
  }

  lemma {:induction false} ChooseIn(targets: seq<(int, BlockId)>, v: int, otherwise: BlockId)
    ensures var b := Choose(targets, v, otherwise);
            b == otherwise || exists i :: 0 <= i < |targets| && targets[i].1 == b
  {
    if |targets| > 0 && targets[0].0 != v {
      ChooseIn(targets[1..], v, otherwise);
      var b := Choose(targets[1..], v, otherwise);
      if i :| 0 <= i < |targets[1..]| && targets[1..][i].1 == b {
        assert targets[i + 1].1 == b;
      }
    }
  }

  lemma FollowsToSuccessor(t: Term, v: int)
    ensures Follow(t, v).Some? ==> Follow(t, v).value in Successors(t)
  {
    if t.Switch? {
      ChooseIn(t.targets, v, t.otherwise);
      var b := Choose(t.targets, v, t.otherwise);
      var s := Successors(t);
      assert s[|s| - 1] == t.otherwise;
      if i :| 0 <= i < |t.targets| && t.targets[i].1 == b {
        assert s[i] == b;
      }
    }
  }

  // ── Polling a machine is running its coroutine ───────────────────────

  /** `m` is the finished machine of `co`. */
  ghost predicate Lowered(src: Blocks, out: Blocks, base: nat, region: Region, co: Coroutine, m: Machine,
                          entry: BlockId) {
    && SourceOk(src, base)
    && CoroutineOk(src, region, co)
    && MachineShape(src, out, base, co, m, entry, co.begin.1)
    && (co.begin.0 != region.begin.0 ==> entry == co.begin.0)
  }

  /** Running a block that is a stretch of the source. */
  lemma LikeStep<U>(sem: Sem<U>, out: Blocks, at: BlockId, a: seq<Stmt>, t: Term, st: Store<U>)
    requires IsLike(out, at, a, t)
    requires forall i :: 0 <= i < |a| ==> UserStmt(a[i], sem.base)
    ensures Step(sem, out, Entering(at, st)) == Leave(sem, t, Store(DoAll(sem, a, st.w), st.sys))
  {
    ExecIsDo(sem, a, out[at].stmts, st);
  }

  lemma TwoAssigns<U>(sem: Sem<U>, out: Blocks, at: BlockId, l0: LocalId, v0: int, l1: LocalId, v1: int, next: BlockId,
                      st: Store<U>)
    requires Is(out, at, [AssignI64(l0, v0), AssignI64(l1, v1)], Goto(next))
    requires sem.base <= l0 && sem.base <= l1
    ensures Step(sem, out, Entering(at, st)) == Entering(next, Store(st.w, st.sys[l0 := v0][l1 := v1]))
  {
    var a := [AssignI64(l0, v0), AssignI64(l1, v1)];
    assert a[1..] == [AssignI64(l1, v1)];
    assert a[1..][1..] == [];
    var st1 := Exec(sem, a[0], st);
    var st2 := Exec(sem, a[1..][0], st1);
    assert ExecAll(sem, a, st) == ExecAll(sem, a[1..], st1) == ExecAll(sem, [], st2) == st2;
  }

  /** The end of a block: on to the next block of the body, or into `done`. */
  lemma FinishSim<U, S>(sem: Sem<U>, src: Blocks, out: Blocks, region: Region, co: Coroutine, m: Machine,
                        entry: BlockId, j: nat, r: Ref<U, S>, b: BlockId, k: nat, st: Store<U>) returns (n: nat)
    requires Lowered(src, out, sem.base, region, co, m, entry)
    requires b in BodyOf(src, co) && k <= |src[b].stmts| && j < |r.pos|
    requires st.w == DoAll(sem, src[b].stmts[k..], r.w) && (Get(st.sys, m.progress) == 1) == r.progress
    ensures Reached(src, co, m, entry, j, Finish(sem, src, co, r, j, b, k), st.sys,
                    Run(sem, out, Leave(sem, if b == co.end.0 then Goto(m.done) else src[b].term, st), n))
  {
    var r' := Finish(sem, src, co, r, j, b, k);
    if b == co.end.0 {
      n := 1;
      var c := Run(sem, out, Entering(m.done, st), 1);
      TwoAssigns(sem, out, m.done, m.poll, POLL_READY, m.state, DONE_STATE, m.exit, st);
      assert c == Run(sem, out, Step(sem, out, Entering(m.done, st)), 0);
      assert c == Entering(m.exit, Store(st.w, st.sys[m.poll := POLL_READY][m.state := DONE_STATE]));
    } else {
      n := 0;
      var t := src[b].term;
      UserLeave(sem, t, st, |src|);
      var v := if Scrutinee(t).Some? then sem.read(Scrutinee(t).value, st.w.u) else 0;
      FollowsToSuccessor(t, v);
      if Follow(t, v).Some? {
        var next := Follow(t, v).value;
        BodyIsClosed(src, co, b, next);
        assert next != region.begin.0;
        assert Stands(src, co, m, entry, next, 0, next);
      }
    }
  }

  /** At the guard: through it if the channel is ready, out through `blocked` if not. */
  lemma GuardSim<U, S>(sem: Sem<U>, src: Blocks, out: Blocks, region: Region, co: Coroutine, m: Machine, entry: BlockId,
                       j: nat, r: Ref<U, S>, i: nat, st: Store<U>) returns (n: nat)
    requires Lowered(src, out, sem.base, region, co, m, entry)
    requires i < |m.cuts| && m.cuts[i].bb < |src| && m.cuts[i].idx < |src[m.cuts[i].bb].stmts|
    requires src[m.cuts[i].bb].stmts[m.cuts[i].idx].GuardedRecv? && j < |r.pos|
    requires st.w == r.w && (Get(st.sys, m.progress) == 1) == r.progress
    ensures n >= 1
    ensures Reached(src, co, m, entry, j, RunFrom(sem, src, co, r, j, m.cuts[i].bb, m.cuts[i].idx), st.sys,
                    Run(sem, out, Entering(m.cuts[i].guard, st), n))
  {
    hide Lowered, Reached, RunFrom, Run;
    if sem.ready(src[m.cuts[i].bb].stmts[m.cuts[i].idx].chan, st.w.u) {
      n := ReadySim(sem, src, out, region, co, m, entry, j, r, i, st);
    } else {
      n := BlockedSim(sem, src, out, region, co, m, entry, j, r, i, st);
    }
  }

  /** The three blocks of a guarded recv. */
  lemma GuardShape(src: Blocks, out: Blocks, base: nat, region: Region, co: Coroutine, m: Machine, entry: BlockId,
                   i: nat)
    requires Lowered(src, out, base, region, co, m, entry) && i < |m.cuts|
    requires m.cuts[i].bb < |src| && m.cuts[i].idx < |src[m.cuts[i].bb].stmts|
    requires src[m.cuts[i].bb].stmts[m.cuts[i].idx].GuardedRecv?
    ensures var c := m.cuts[i]; var s := src[c.bb];
            && c.peek.Some? && base <= c.peek.value && LocalsOk(base, m) && Temporary(m, c.peek.value)
            && Is(out, c.guard, [Peek(c.peek.value, s.stmts[c.idx].chan)], Branch(c.peek.value, c.resume, c.blocked))
            && IsGuardedTail(out, c.resume, m.progress, s.stmts[c.idx].chan, s.stmts[c.idx + 1..], s.term)
            && Is(out, c.blocked, [AssignI64(m.state, i + 1), AssignI64(m.poll, POLL_BLOCKED)], Goto(m.exit))
  {
    hide Lowered, CutShape, Is, IsGuardedTail, IsLike, LocalsOk, UserStmt, Suspends, BodyOf, StartOf, HeadOf;
    CutFacts(src, out, base, region, co, m, entry, i);
    GuardCut(src[m.cuts[i].bb], StartOf(co, m.cuts[i].bb), HeadOf(co, entry, m.cuts[i].bb), out, m, i + 1, m.cuts[i]);
    PeekInRange(base, m, m.cuts[i].peek);
  }

  lemma GuardCut(src: Block<Stmt>, from: nat, head: BlockId, out: Blocks, m: Machine, code: int, c: Cut)
    requires CutShape(src, from, head, out, m, code, c) && c.idx < |src.stmts| && src.stmts[c.idx].GuardedRecv?
    ensures c.peek.Some?
    ensures Is(out, c.guard, [Peek(c.peek.value, src.stmts[c.idx].chan)], Branch(c.peek.value, c.resume, c.blocked))
    ensures IsGuardedTail(out, c.resume, m.progress, src.stmts[c.idx].chan, src.stmts[c.idx + 1..], src.term)
    ensures Is(out, c.blocked, [AssignI64(m.state, code), AssignI64(m.poll, POLL_BLOCKED)], Goto(m.exit))
  {
    hide Is, IsGuardedTail, IsLike;
  }

  lemma PeekInRange(base: nat, m: Machine, peek: Option<LocalId>)
    requires LocalsOk(base, m)
    ensures peek.Some? && Temporary(m, peek.value) ==> base <= peek.value
  {
  }

  lemma CutSuspends(src: Block<Stmt>, from: nat, head: BlockId, out: Blocks, m: Machine, code: int, c: Cut)
    requires CutShape(src, from, head, out, m, code, c)
    ensures from <= c.idx < |src.stmts| && Suspends(src.stmts[c.idx])
  {
  }

  /** All that polling needs to know of a cut. */
  lemma CutFacts(src: Blocks, out: Blocks, base: nat, region: Region, co: Coroutine, m: Machine, entry: BlockId, i: nat)
    requires Lowered(src, out, base, region, co, m, entry) && i < |m.cuts|
    ensures var c := m.cuts[i];
            && c.bb in BodyOf(src, co) && c.bb < |src| && c.bb != co.end.0
            && StartOf(co, c.bb) <= c.idx < |src[c.bb].stmts| && Suspends(src[c.bb].stmts[c.idx])
            && NextSite(src[c.bb].stmts, StartOf(co, c.bb)) == c.idx
            && NextSite(src[c.bb].stmts, c.idx + 1) == |src[c.bb].stmts|
            && (forall k :: 0 <= k < |src[c.bb].stmts| ==> UserStmt(src[c.bb].stmts[k], base))
            && CutShape(src[c.bb], StartOf(co, c.bb), HeadOf(co, entry, c.bb), out, m, i + 1, c)
            && LocalsOk(base, m) && |m.cuts| < DONE_STATE
            && (c.peek.Some? ==> Temporary(m, c.peek.value))
  {
    hide CutShape, PlainShape, DispatchShape, Is, LocalsOk, BodyOf, UserStmt, Suspends;
    var c := m.cuts[i];
    CutSuspends(src[c.bb], StartOf(co, c.bb), HeadOf(co, entry, c.bb), out, m, i + 1, c);
    NotTheEnd(src, region, co, c.bb, c.idx);
    TheSiteIs(src[c.bb].stmts, StartOf(co, c.bb), c.idx);
  }

  lemma PeekStep<U>(sem: Sem<U>, out: Blocks, at: BlockId, peek: LocalId, ch: nat, resume: BlockId, blocked: BlockId,
                    st: Store<U>)
    requires Is(out, at, [Peek(peek, ch)], Branch(peek, resume, blocked)) && sem.base <= peek
    ensures var ready := sem.ready(ch, st.w.u);
            Step(sem, out, Entering(at, st))
              == Entering(if ready then resume else blocked, Store(st.w, st.sys[peek := Bit(ready)]))
  {
    assert [Peek(peek, ch)][1..] == [];
    assert ExecAll(sem, [Peek(peek, ch)], st) == ExecAll(sem, [], Exec(sem, Peek(peek, ch), st));
  }

  lemma ReadySim<U, S>(sem: Sem<U>, src: Blocks, out: Blocks, region: Region, co: Coroutine, m: Machine, entry: BlockId,
                       j: nat, r: Ref<U, S>, i: nat, st: Store<U>) returns (n: nat)
    requires Lowered(src, out, sem.base, region, co, m, entry)
    requires i < |m.cuts| && m.cuts[i].bb < |src| && m.cuts[i].idx < |src[m.cuts[i].bb].stmts|
    requires src[m.cuts[i].bb].stmts[m.cuts[i].idx].GuardedRecv? && j < |r.pos|
    requires st.w == r.w && sem.ready(src[m.cuts[i].bb].stmts[m.cuts[i].idx].chan, st.w.u)
    ensures n >= 1
    ensures Reached(src, co, m, entry, j, RunFrom(sem, src, co, r, j, m.cuts[i].bb, m.cuts[i].idx), st.sys,
                    Run(sem, out, Entering(m.cuts[i].guard, st), n))
  {
    hide Lowered, Reached, Finish, RunFrom, Leave, Step, Run, BodyOf, DoAll, Temporary, LocalsOk, Do, SourceOk,
         CoroutineOk;
    var cut := m.cuts[i];
    var b, k, stmts := cut.bb, cut.idx, src[cut.bb].stmts;
    var rest := stmts[k + 1..];
    ReadySteps(sem, src, out, region, co, m, entry, i, cut, stmts, st);
    var st1 := Store(st.w, st.sys[cut.peek.value := 1]);
    var w2 := Do(sem, stmts[k], st.w);
    var st3 := Store(DoAll(sem, rest, w2), st1.sys[m.progress := 1]);
    var r1 := r.(progress := true, w := w2);
    var n' := FinishSim(sem, src, out, region, co, m, entry, j, r1, b, k + 1, st3);
    n := 2 + n';
    RunAdds(sem, out, Entering(cut.guard, st), 2, n');
    PassedIsFinish(sem, src, co, r, j, b, k);
    ReachedAcross(src, co, m, entry, j, RunFrom(sem, src, co, r, j, b, k), cut.peek.value, st.sys, 1, 1,
                  Run(sem, out, Leave(sem, src[b].term, st3), n'));
  }

  lemma ReachedAcross<U, S>(src: Blocks, co: Coroutine, m: Machine, entry: BlockId, j: nat, r: Ref<U, S>,
                            peek: LocalId, sys: map<LocalId, int>, v: int, p: int, c: Conf<U>)
    requires Temporary(m, peek) && Reached(src, co, m, entry, j, r, sys[peek := v][m.progress := p], c)
    ensures Reached(src, co, m, entry, j, r, sys, c)
  {
    FramedAcross(m, peek, sys, v, p, c.st.sys);
  }

  lemma FramedAcross(m: Machine, peek: LocalId, sys: map<LocalId, int>, v: int, p: int, sys': map<LocalId, int>)
    requires Temporary(m, peek) && Framed(m, sys[peek := v][m.progress := p], sys')
    ensures Framed(m, sys, sys')
  {
  }

  lemma PassedIsFinish<U, S>(sem: Sem<U>, src: Blocks, co: Coroutine, r: Ref<U, S>, j: nat, b: BlockId, k: nat)
    requires b < |src| && k < |src[b].stmts| && j < |r.pos|
    requires src[b].stmts[k].GuardedRecv? && sem.ready(src[b].stmts[k].chan, r.w.u)
    ensures RunFrom(sem, src, co, r, j, b, k)
         == Finish(sem, src, co, r.(progress := true, w := Do(sem, src[b].stmts[k], r.w)), j, b, k + 1)
  {
    assert src[b].stmts[k..k] == [];
    assert NextSite(src[b].stmts, k) == k;
    hide Finish;
  }

  /** What a store is once a ready recv at `k` and the rest of its block have run. */
  function AfterRecv<U>(sem: Sem<U>, stmts: seq<Stmt>, k: nat, peek: LocalId, progress: LocalId, st: Store<U>): Store<U>
    requires k < |stmts|
  {
    Store(DoAll(sem, stmts[k + 1..], Do(sem, stmts[k], st.w)), st.sys[peek := 1][progress := 1])
  }

  lemma ReadySteps<U>(sem: Sem<U>, src: Blocks, out: Blocks, region: Region, co: Coroutine, m: Machine, entry: BlockId,
                      i: nat, cut: Cut, stmts: seq<Stmt>, st: Store<U>)
    requires i < |m.cuts| && cut == m.cuts[i] && cut.bb < |src| && stmts == src[cut.bb].stmts && cut.idx < |stmts|
    requires stmts[cut.idx].GuardedRecv? && sem.ready(stmts[cut.idx].chan, st.w.u)
    requires Lowered(src, out, sem.base, region, co, m, entry)
    ensures cut.bb in BodyOf(src, co) && cut.bb != co.end.0
    ensures LocalsOk(sem.base, m) && cut.peek.Some? && Temporary(m, cut.peek.value)
    ensures Run(sem, out, Entering(cut.guard, st), 2)
         == Leave(sem, src[cut.bb].term, AfterRecv(sem, stmts, cut.idx, cut.peek.value, m.progress, st))
  {
    hide Lowered, BodyOf, CutShape, DoAll, Leave, Step, Run, Temporary, IsLike;
    GuardShape(src, out, sem.base, region, co, m, entry, i);
    CutFacts(src, out, sem.base, region, co, m, entry, i);
    var st1 := Store(st.w, st.sys[cut.peek.value := 1]);
    PeekStep(sem, out, cut.guard, cut.peek.value, stmts[cut.idx].chan, cut.resume, cut.blocked, st);
    ResumeStep(sem, out, cut.resume, m.progress, stmts[cut.idx].chan, stmts[cut.idx + 1..], src[cut.bb].term, st1);
    RunStep(sem, out, Entering(cut.guard, st), 1);
    RunStep(sem, out, Entering(cut.resume, st1), 0);
  }

  lemma BlockedSim<U, S>(sem: Sem<U>, src: Blocks, out: Blocks, region: Region, co: Coroutine, m: Machine,
                         entry: BlockId, j: nat, r: Ref<U, S>, i: nat, st: Store<U>) returns (n: nat)
    requires Lowered(src, out, sem.base, region, co, m, entry)
    requires i < |m.cuts| && m.cuts[i].bb < |src| && m.cuts[i].idx < |src[m.cuts[i].bb].stmts|
    requires src[m.cuts[i].bb].stmts[m.cuts[i].idx].GuardedRecv? && j < |r.pos|
    requires st.w == r.w && (Get(st.sys, m.progress) == 1) == r.progress
    requires !sem.ready(src[m.cuts[i].bb].stmts[m.cuts[i].idx].chan, st.w.u)
    ensures n >= 1
    ensures Reached(src, co, m, entry, j, RunFrom(sem, src, co, r, j, m.cuts[i].bb, m.cuts[i].idx), st.sys,
                    Run(sem, out, Entering(m.cuts[i].guard, st), n))
  {
    n := 2;
    var cut := m.cuts[i];
    GuardShape(src, out, sem.base, region, co, m, entry, i);
    var st1 := Store(st.w, st.sys[cut.peek.value := 0]);
    BlockedFollows(sem, src, co, m, entry, j, r, i, st, st1);
    hide Lowered, Reached, RunFrom, Step, Run;
    PeekStep(sem, out, cut.guard, cut.peek.value, src[cut.bb].stmts[cut.idx].chan, cut.resume, cut.blocked, st);
    TwoAssigns(sem, out, cut.blocked, m.state, i + 1, m.poll, POLL_BLOCKED, m.exit, st1);
    RunStep(sem, out, Entering(cut.guard, st), 1);
    RunStep(sem, out, Entering(cut.blocked, st1), 0);
  }

  lemma BlockedFollows<U, S>(sem: Sem<U>, src: Blocks, co: Coroutine, m: Machine, entry: BlockId,
                             j: nat, r: Ref<U, S>, i: nat, st: Store<U>, st1: Store<U>)
    requires i < |m.cuts| && m.cuts[i].bb < |src| && m.cuts[i].idx < |src[m.cuts[i].bb].stmts|
    requires src[m.cuts[i].bb].stmts[m.cuts[i].idx].GuardedRecv? && j < |r.pos| && LocalsOk(sem.base, m)
    requires st.w == r.w && (Get(st.sys, m.progress) == 1) == r.progress
    requires !sem.ready(src[m.cuts[i].bb].stmts[m.cuts[i].idx].chan, st.w.u)
    requires m.cuts[i].peek.Some? && st1 == Store(st.w, st.sys[m.cuts[i].peek.value := 0])
    ensures Reached(src, co, m, entry, j, RunFrom(sem, src, co, r, j, m.cuts[i].bb, m.cuts[i].idx), st.sys,
                    Entering(m.exit, Store(st1.w, st1.sys[m.state := i + 1][m.poll := POLL_BLOCKED])))
  {
    var cut := m.cuts[i];
    var stmts := src[cut.bb].stmts;
    assert NextSite(stmts, cut.idx) == cut.idx;
    assert stmts[cut.idx..cut.idx] == [];
    assert RunFrom(sem, src, co, r, j, cut.bb, cut.idx)
        == r.(ctl := Polled(j, Blocked), pos := r.pos[j := At(cut.bb, cut.idx)], w := r.w);
    assert CutStands(src, cut, cut.bb, cut.idx);
    assert Temporary(m, cut.peek.value);
  }

  lemma NotTheEnd(src: Blocks, region: Region, co: Coroutine, b: BlockId, i: nat)
    requires CoroutineOk(src, region, co) && b < |src| && StartOf(co, b) <= i < |src[b].stmts|
             && Suspends(src[b].stmts[i])
    ensures b != co.end.0
  {
  }

  lemma ResumeStep<U>(sem: Sem<U>, out: Blocks, at: BlockId, progress: LocalId, ch: nat, rest: seq<Stmt>, t: Term,
                      st: Store<U>)
    requires IsGuardedTail(out, at, progress, ch, rest, t) && sem.base <= progress
    requires forall i :: 0 <= i < |rest| ==> UserStmt(rest[i], sem.base)
    ensures Step(sem, out, Entering(at, st))
         == Leave(sem, t, Store(DoAll(sem, rest, Do(sem, GuardedRecv(ch), st.w)), st.sys[progress := 1]))
  {
    var a := out[at].stmts;
    var st1 := Exec(sem, a[0], st);
    var st2 := Exec(sem, a[1], st1);
    assert a[1..][1..] == a[2..];
    assert ExecAll(sem, a, st) == ExecAll(sem, a[1..], st1) == ExecAll(sem, a[2..], st2);
    ExecIsDo(sem, rest, a[2..], st2);
  }

  /** A block with a suspension, entered at its head. */
  lemma HeadSim<U, S>(sem: Sem<U>, src: Blocks, out: Blocks, region: Region, co: Coroutine, m: Machine, entry: BlockId,
                      j: nat, r: Ref<U, S>, i: nat, st: Store<U>) returns (n: nat)
    requires Lowered(src, out, sem.base, region, co, m, entry)
    requires i < |m.cuts| && j < |r.pos|
    requires st.w == r.w && (Get(st.sys, m.progress) == 1) == r.progress
    ensures m.cuts[i].bb < |src| && StartOf(co, m.cuts[i].bb) <= |src[m.cuts[i].bb].stmts|
    ensures n >= 1
    ensures Reached(src, co, m, entry, j, RunFrom(sem, src, co, r, j, m.cuts[i].bb, StartOf(co, m.cuts[i].bb)), st.sys,
                    Run(sem, out, Entering(HeadOf(co, entry, m.cuts[i].bb), st), n))
  {
    CutFacts(src, out, sem.base, region, co, m, entry, i);
    hide Lowered, Reached, RunFrom, CutShape, Run;
    if src[m.cuts[i].bb].stmts[m.cuts[i].idx].GuardedRecv? {
      n := HeadGuardSim(sem, src, out, region, co, m, entry, j, r, i, st);
    } else {
      n := PauseSim(sem, src, out, region, co, m, entry, j, r, i, st);
    }
  }

  /** Up to a guard, and through the guard. */
  lemma HeadGuardSim<U, S>(sem: Sem<U>, src: Blocks, out: Blocks, region: Region, co: Coroutine, m: Machine,
                           entry: BlockId, j: nat, r: Ref<U, S>, i: nat, st: Store<U>) returns (n: nat)
    requires Lowered(src, out, sem.base, region, co, m, entry)
    requires i < |m.cuts| && j < |r.pos|
    requires m.cuts[i].bb < |src| && StartOf(co, m.cuts[i].bb) <= m.cuts[i].idx < |src[m.cuts[i].bb].stmts|
    requires src[m.cuts[i].bb].stmts[m.cuts[i].idx].GuardedRecv?
    requires NextSite(src[m.cuts[i].bb].stmts, StartOf(co, m.cuts[i].bb)) == m.cuts[i].idx
    requires st.w == r.w && (Get(st.sys, m.progress) == 1) == r.progress
    ensures n >= 1
    ensures Reached(src, co, m, entry, j, RunFrom(sem, src, co, r, j, m.cuts[i].bb, StartOf(co, m.cuts[i].bb)), st.sys,
                    Run(sem, out, Entering(HeadOf(co, entry, m.cuts[i].bb), st), n))
  {
    var cut := m.cuts[i];
    var b, stmts := cut.bb, src[cut.bb].stmts;
    var from := StartOf(co, b);
    var st1 := Store(DoAll(sem, stmts[from..cut.idx], st.w), st.sys);
    HeadToGuard(sem, src, out, region, co, m, entry, i, st);
    hide Lowered, Reached, RunFrom, Run, Step, DoAll;
    var r1 := r.(w := st1.w);
    var n' := GuardSim(sem, src, out, region, co, m, entry, j, r1, i, st1);
    RunFromGuard(sem, src, co, r, j, b, from, cut.idx);
    RunStep(sem, out, Entering(HeadOf(co, entry, b), st), n');
    n := if cut.idx == from then n' else 1 + n';
  }

  lemma HeadToGuard<U>(sem: Sem<U>, src: Blocks, out: Blocks, region: Region, co: Coroutine, m: Machine, entry: BlockId,
                       i: nat, st: Store<U>)
    requires Lowered(src, out, sem.base, region, co, m, entry) && i < |m.cuts|
    requires m.cuts[i].bb < |src| && StartOf(co, m.cuts[i].bb) <= m.cuts[i].idx < |src[m.cuts[i].bb].stmts|
    requires src[m.cuts[i].bb].stmts[m.cuts[i].idx].GuardedRecv?
    ensures var cut := m.cuts[i];
            var from := StartOf(co, cut.bb);
            var st1 := Store(DoAll(sem, src[cut.bb].stmts[from..cut.idx], st.w), st.sys);
            if cut.idx == from then HeadOf(co, entry, cut.bb) == cut.guard && st1 == st
            else Step(sem, out, Entering(HeadOf(co, entry, cut.bb), st)) == Entering(cut.guard, st1)
  {
    var cut := m.cuts[i];
    var stmts, from, head := src[cut.bb].stmts, StartOf(co, cut.bb), HeadOf(co, entry, cut.bb);
    CutFacts(src, out, sem.base, region, co, m, entry, i);
    hide Lowered, Is, IsGuardedTail, BodyOf, Step;
    if cut.idx == from {
      assert stmts[from..cut.idx] == [];
    } else {
      LikeStep(sem, out, head, stmts[from..cut.idx], Goto(cut.guard), st);
    }
  }

  lemma RunFromGuard<U, S>(sem: Sem<U>, src: Blocks, co: Coroutine, r: Ref<U, S>, j: nat, b: BlockId, from: nat, k: nat)
    requires b < |src| && from <= k < |src[b].stmts| && j < |r.pos|
    requires src[b].stmts[k].GuardedRecv? && NextSite(src[b].stmts, from) == k
    ensures RunFrom(sem, src, co, r.(w := DoAll(sem, src[b].stmts[from..k], r.w)), j, b, k)
         == RunFrom(sem, src, co, r, j, b, from)
  {
    assert src[b].stmts[k..k] == [];
    assert NextSite(src[b].stmts, k) == k;
    hide Finish;
  }

  /** Up to a yield or a send, and out through `pause`. */
  lemma PauseSim<U, S>(sem: Sem<U>, src: Blocks, out: Blocks, region: Region, co: Coroutine, m: Machine, entry: BlockId,
                       j: nat, r: Ref<U, S>, i: nat, st: Store<U>) returns (n: nat)
    requires Lowered(src, out, sem.base, region, co, m, entry)
    requires i < |m.cuts| && j < |r.pos|
    requires m.cuts[i].bb < |src| && m.cuts[i].idx < |src[m.cuts[i].bb].stmts|
    requires !src[m.cuts[i].bb].stmts[m.cuts[i].idx].GuardedRecv?
    requires st.w == r.w && (Get(st.sys, m.progress) == 1) == r.progress
    ensures StartOf(co, m.cuts[i].bb) <= |src[m.cuts[i].bb].stmts|
    ensures n >= 1
    ensures Reached(src, co, m, entry, j, RunFrom(sem, src, co, r, j, m.cuts[i].bb, StartOf(co, m.cuts[i].bb)), st.sys,
                    Run(sem, out, Entering(HeadOf(co, entry, m.cuts[i].bb), st), n))
  {
    hide Lowered, Reached, RunFrom, Step, Run, BodyOf, DoAll, CutShape, LocalsOk, SourceOk, CoroutineOk;
    n := 2;
    CutFacts(src, out, sem.base, region, co, m, entry, i);
    PauseSteps(sem, src, out, region, co, m, entry, i, m.cuts[i], src[m.cuts[i].bb].stmts, StartOf(co, m.cuts[i].bb),
               st);
    PauseFollows(sem, src, co, m, entry, j, r, i, st);
  }

  lemma PauseFollows<U, S>(sem: Sem<U>, src: Blocks, co: Coroutine, m: Machine, entry: BlockId,
                           j: nat, r: Ref<U, S>, i: nat, st: Store<U>)
    requires i < |m.cuts| && m.cuts[i].bb < |src| && j < |r.pos| && LocalsOk(sem.base, m)
    requires st.w == r.w && (Get(st.sys, m.progress) == 1) == r.progress
    requires StartOf(co, m.cuts[i].bb) <= m.cuts[i].idx < |src[m.cuts[i].bb].stmts|
    requires Suspends(src[m.cuts[i].bb].stmts[m.cuts[i].idx]) && !src[m.cuts[i].bb].stmts[m.cuts[i].idx].GuardedRecv?
    requires NextSite(src[m.cuts[i].bb].stmts, StartOf(co, m.cuts[i].bb)) == m.cuts[i].idx
    ensures Reached(src, co, m, entry, j, RunFrom(sem, src, co, r, j, m.cuts[i].bb, StartOf(co, m.cuts[i].bb)), st.sys,
                    Entering(m.exit,
                             Store(DoAll(sem, src[m.cuts[i].bb].stmts[StartOf(co, m.cuts[i].bb)..m.cuts[i].idx + 1],
                                         st.w),
                                           st.sys[m.state := i + 1][m.poll := POLL_PENDING])))
  {
    var cut := m.cuts[i];
    RunFromPause(sem, src, co, r, j, cut.bb, StartOf(co, cut.bb), cut.idx);
    hide DoAll, RunFrom;
    assert CutStands(src, m.cuts[i], cut.bb, cut.idx + 1);
  }

  lemma PauseSteps<U>(sem: Sem<U>, src: Blocks, out: Blocks, region: Region, co: Coroutine, m: Machine, entry: BlockId,
                      i: nat, cut: Cut, stmts: seq<Stmt>, from: nat, st: Store<U>)
    requires i < |m.cuts| && cut == m.cuts[i] && cut.bb < |src| && stmts == src[cut.bb].stmts && cut.idx < |stmts|
    requires !stmts[cut.idx].GuardedRecv? && from == StartOf(co, cut.bb) <= cut.idx
    requires Lowered(src, out, sem.base, region, co, m, entry)
    ensures LocalsOk(sem.base, m) && i + 1 < DONE_STATE && cut.reentry == cut.resume
    ensures Suspends(stmts[cut.idx]) && NextSite(stmts, from) == cut.idx
    ensures Run(sem, out, Entering(HeadOf(co, entry, cut.bb), st), 2)
         == Entering(m.exit,
                     Store(DoAll(sem, stmts[from..cut.idx + 1], st.w),
                           st.sys[m.state := i + 1][m.poll := POLL_PENDING]))
  {
    hide Lowered, IsGuardedTail, IsLike, Is, BodyOf, Step, Run, DoAll;
    CutFacts(src, out, sem.base, region, co, m, entry, i);
    LikeThenAssigns(sem, out, HeadOf(co, entry, cut.bb), stmts[from..cut.idx + 1], cut.pause,
                    m.state, i + 1, m.poll, POLL_PENDING, m.exit, st);
  }

  lemma LikeThenAssigns<U>(sem: Sem<U>, out: Blocks, at: BlockId, a: seq<Stmt>, mid: BlockId,
                           l0: LocalId, v0: int, l1: LocalId, v1: int, next: BlockId, st: Store<U>)
    requires IsLike(out, at, a, Goto(mid)) && Is(out, mid, [AssignI64(l0, v0), AssignI64(l1, v1)], Goto(next))
    requires forall i :: 0 <= i < |a| ==> UserStmt(a[i], sem.base)
    requires sem.base <= l0 && sem.base <= l1
    ensures Run(sem, out, Entering(at, st), 2) == Entering(next, Store(DoAll(sem, a, st.w), st.sys[l0 := v0][l1 := v1]))
  {
    hide Step, Run, DoAll;
    LikeStep(sem, out, at, a, Goto(mid), st);
    var st1 := Store(DoAll(sem, a, st.w), st.sys);
    TwoAssigns(sem, out, mid, l0, v0, l1, v1, next, st1);
    RunStep(sem, out, Entering(at, st), 1);
    RunStep(sem, out, Entering(mid, st1), 0);
  }

  lemma RunFromPause<U, S>(sem: Sem<U>, src: Blocks, co: Coroutine, r: Ref<U, S>, j: nat, b: BlockId, from: nat, k: nat)
    requires b < |src| && from <= k < |src[b].stmts| && j < |r.pos|
    requires Suspends(src[b].stmts[k]) && !src[b].stmts[k].GuardedRecv? && NextSite(src[b].stmts, from) == k
    ensures RunFrom(sem, src, co, r, j, b, from)
         == r.(ctl := Polled(j, Yielded), pos := r.pos[j := At(b, k + 1)],
               w := DoAll(sem, src[b].stmts[from..k + 1], r.w))
  {
    var stmts := src[b].stmts;
    assert stmts[from..k + 1] == stmts[from..k] + [stmts[k]];
    DoConcat(sem, stmts[from..k], [stmts[k]], r.w);
    OneDo(sem, stmts[k], DoAll(sem, stmts[from..k], r.w));
  }

  lemma OneDo<U>(sem: Sem<U>, s: Stmt, w: World<U>)
    ensures DoAll(sem, [s], w) == Do(sem, s, w)
  {
    assert DoAll(sem, [s], w) == DoAll(sem, [s][1..], Do(sem, s, w));
  }

  lemma TheSiteIs(stmts: seq<Stmt>, from: nat, idx: nat)
    requires from <= idx < |stmts| && Suspends(stmts[idx]) && AtMostOneSite(stmts, from)
    ensures NextSite(stmts, from) == idx
    ensures NextSite(stmts, idx + 1) == |stmts|
  {
  }

  /** Running a coroutine through one block is running a few blocks of its machine. */
  lemma InsideSim<U, S>(sem: Sem<U>, src: Blocks, out: Blocks, region: Region, co: Coroutine, m: Machine,
                        entry: BlockId, j: nat, r: Ref<U, S>, c: Conf<U>) returns (n: nat)
    requires Lowered(src, out, sem.base, region, co, m, entry)
    requires r.ctl.Inside? && Follows(src, co, m, entry, j, r, c)
    ensures n >= 1
    ensures Reached(src, co, m, entry, j, RunFrom(sem, src, co, r, j, r.ctl.b, r.ctl.k), c.st.sys,
                    Run(sem, out, c, n))
  {
    var b, k := r.ctl.b, r.ctl.k;
    var stmts := src[b].stmts;
    if !IsCutAt(m, b) {
      PlainFacts(src, out, sem.base, region, co, m, entry, b, k, c.b);
      n := TailSim(sem, src, out, region, co, m, entry, j, r, b, k, c);
    } else {
      var i :| 0 <= i < |m.cuts| && m.cuts[i].bb == b;
      CutFacts(src, out, sem.base, region, co, m, entry, i);
      var cut := m.cuts[i];
      CutIsUnique(src, out, sem.base, region, co, m, entry, i, k, c.b);
      hide Lowered, RunFrom, Framed, BodyOf;
      if k == StartOf(co, b) && c.b == HeadOf(co, entry, b) {
        n := HeadSim(sem, src, out, region, co, m, entry, j, r, i, c.st);
      } else if stmts[cut.idx].GuardedRecv? {
        n := GuardSim(sem, src, out, region, co, m, entry, j, r, i, c.st);
      } else {
        n := TailSim(sem, src, out, region, co, m, entry, j, r, b, k, c);
      }
    }
  }

  lemma PlainFacts(src: Blocks, out: Blocks, base: nat, region: Region, co: Coroutine, m: Machine, entry: BlockId,
                   b: BlockId, k: nat, at: BlockId)
    requires Lowered(src, out, base, region, co, m, entry)
    requires b in BodyOf(src, co) && !IsCutAt(m, b) && Stands(src, co, m, entry, b, k, at) && k <= |src[b].stmts|
    ensures NextSite(src[b].stmts, k) == |src[b].stmts|
    ensures IsLike(out, at, src[b].stmts[k..], if b == co.end.0 then Goto(m.done) else src[b].term)
  {
    hide BodyOf, CutShape, DispatchShape, LocalsOk, IsLike, Suspends;
    assert PlainShape(src, out, co, m, entry, co.begin.1, b);
    assert k == StartOf(co, b) == FromOf(co, co.begin.1, b);
  }

  lemma CutIsUnique(src: Blocks, out: Blocks, base: nat, region: Region, co: Coroutine, m: Machine, entry: BlockId,
                    i: nat, k: nat, at: BlockId)
    requires Lowered(src, out, base, region, co, m, entry)
    requires i < |m.cuts| && Stands(src, co, m, entry, m.cuts[i].bb, k, at)
    ensures || (k == StartOf(co, m.cuts[i].bb) && at == HeadOf(co, entry, m.cuts[i].bb))
            || (CutStands(src, m.cuts[i], m.cuts[i].bb, k) && at == m.cuts[i].reentry)
  {
    hide BodyOf, CutShape, DispatchShape, LocalsOk, CoroutineOk, SourceOk, PlainShape;
  }

  /** The rest of a block that holds no suspension. */
  lemma TailSim<U, S>(sem: Sem<U>, src: Blocks, out: Blocks, region: Region, co: Coroutine, m: Machine, entry: BlockId,
                      j: nat, r: Ref<U, S>, b: BlockId, k: nat, c: Conf<U>) returns (n: nat)
    requires Lowered(src, out, sem.base, region, co, m, entry)
    requires b in BodyOf(src, co) && k <= |src[b].stmts| && j < |r.pos|
    requires NextSite(src[b].stmts, k) == |src[b].stmts|
    requires c.Entering? && c.st.w == r.w && (Get(c.st.sys, m.progress) == 1) == r.progress
    requires IsLike(out, c.b, src[b].stmts[k..], if b == co.end.0 then Goto(m.done) else src[b].term)
    ensures n >= 1
    ensures Reached(src, co, m, entry, j, RunFrom(sem, src, co, r, j, b, k), c.st.sys,
                    Run(sem, out, c, n))
  {
    hide Reached, MachineShape, CoroutineOk, BodyOf, IsLike, DoAll, ExecAll, Finish, Leave;
    var a := src[b].stmts[k..];
    LikeStep(sem, out, c.b, a, if b == co.end.0 then Goto(m.done) else src[b].term, c.st);
    var st := Store(DoAll(sem, a, c.st.w), c.st.sys);
    var n' := FinishSim(sem, src, out, region, co, m, entry, j, r, b, k, st);
    n := 1 + n';
    assert RunFrom(sem, src, co, r, j, b, k) == Finish(sem, src, co, r, j, b, k);
  }

  /** The dispatch block takes a coroutine to where it stands. */
  lemma DispatchSim<U, S>(sem: Sem<U>, src: Blocks, out: Blocks, region: Region, co: Coroutine, m: Machine,
                          entry: BlockId, j: nat, r: Ref<U, S>, st: Store<U>)
    requires Lowered(src, out, sem.base, region, co, m, entry)
    requires j < |r.pos| && r.pos[j].At? && st.w == r.w && (Get(st.sys, m.progress) == 1) == r.progress
    requires StateIs(src, co, m, r.pos[j], Get(st.sys, m.state))
    ensures Reached(src, co, m, entry, j, r.(ctl := Inside(j, r.pos[j].b, r.pos[j].k)), st.sys,
                    Step(sem, out, Entering(m.dispatch, st)))
  {
    hide CutShape, PlainShape, BodyOf, UserTerm, UserStmt, Step;
    DispatchBlock(sem, out, sem.base, m, entry, st);
    var v := Get(st.sys, m.state);
    var b, k := r.pos[j].b, r.pos[j].k;
    BeginInBody(src, co);
    if v != 0 {
      assert CutStands(src, m.cuts[v - 1], b, k);
    } else {
      assert b == co.begin.0 && k == co.begin.1;
    }
  }

  lemma DispatchBlock<U>(sem: Sem<U>, out: Blocks, base: nat, m: Machine, entry: BlockId, st: Store<U>)
    requires DispatchShape(out, m, entry) && LocalsOk(sem.base, m) && 0 <= Get(st.sys, m.state) <= |m.cuts| < DONE_STATE
    ensures var c := Step(sem, out, Entering(m.dispatch, st));
            var v := Get(st.sys, m.state);
            && c.Entering? && c.b == (if v == 0 then entry else m.cuts[v - 1].reentry) && c.st.w == st.w
            && Get(c.st.sys, m.state) == v && Get(c.st.sys, m.progress) == Get(st.sys, m.progress)
            && Framed(m, st.sys, c.st.sys)
  {
    var v := Get(st.sys, m.state);
    if |m.cuts| == 0 {
      var stmts := [EqCheck(m.check.value, m.state, DONE_STATE)];
      assert stmts[1..] == [];
      assert Temporary(m, m.check.value);
      assert ExecAll(sem, stmts, st) == ExecAll(sem, [], Exec(sem, stmts[0], st)) == Exec(sem, stmts[0], st);
    } else {
      var ts := Targets(entry, m.cuts);
      assert forall i :: 0 <= i < |ts| ==> ts[i].0 == i;
      ChooseNth(ts, 0, v, m.exit);
    }
  }

  /** A switch on 0, 1, 2, … picks by index. */
  lemma {:induction false} ChooseNth(targets: seq<(int, BlockId)>, first: int, v: int, otherwise: BlockId)
    requires forall i :: 0 <= i < |targets| ==> targets[i].0 == first + i
    ensures Choose(targets, v, otherwise)
         == if first <= v < first + |targets| then targets[v - first].1 else otherwise
  {
    if |targets| > 0 && targets[0].0 != v {
      ChooseNth(targets[1..], first + 1, v, otherwise);
    }
  }
}
