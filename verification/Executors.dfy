/** What every executor shares. */
module Executors {
  // The code around a region runs as it did, and entering the region sets every machine to its
  // start.

  import opened Cfg
  import opened Coroutines
  import opened Regions
  import opened Machines
  import opened Fleets

  // ── Outside a region, on the source ──────────────────────────────────

  function Starts(region: Region): (pos: seq<Pos>)
    ensures |pos| == |region.coroutines|
    ensures forall i :: 0 <= i < |pos| ==> pos[i] == At(region.coroutines[i].begin.0, region.coroutines[i].begin.1)
  {
    seq(|region.coroutines|, i requires 0 <= i < |region.coroutines| =>
      At(region.coroutines[i].begin.0, region.coroutines[i].begin.1))
  }

  /** A block outside the region, or the region's first block up to its marker. */
  function OutsideStep<U, S>(sem: Sem<U>, src: Blocks, region: Region, r: Ref<U, S>, sched: S, b: BlockId): Ref<U, S> {
    if b >= |src| || region.begin.0 >= |src| || region.begin.1 >= |src[region.begin.0].stmts| then r
    else if b == region.begin.0 then
      r.(ctl := Deciding, pos := Starts(region), sched := sched,
         w := DoAll(sem, src[b].stmts[..region.begin.1 + 1], r.w))
    else
      var w := DoAll(sem, src[b].stmts, r.w);
      var t := src[b].term;
      var v := if Scrutinee(t).Some? then sem.read(Scrutinee(t).value, w.u) else 0;
      match Follow(t, v)
      case Some(next) => r.(ctl := Outside(next), w := w)
      case None => r.(ctl := Halted(t), w := w)
  }

  // ── Outside a region, in the output ──────────────────────────────────

  function Inits(ms: seq<Machine>): (r: seq<Stmt>)
    ensures |r| == |ms|
    ensures forall i :: 0 <= i < |ms| ==> r[i] == AssignI64(ms[i].state, 0)
  {
    seq(|ms|, i requires 0 <= i < |ms| => AssignI64(ms[i].state, 0))
  }

  ghost predicate KeepsOutside(src: Blocks, out: Blocks, region: Region) {
    forall b: nat :: NotInside(src, region, b) && b != region.begin.0 ==> b < |out| && out[b] == src[b]
  }

  /** The region's first block starts the machines and goes to `entry`. */
  ghost predicate EntersAt(src: Blocks, out: Blocks, region: Region, ms: seq<Machine>, entry: BlockId) {
    && region.begin.0 < |src| && region.begin.1 < |src[region.begin.0].stmts|
    && region.begin.0 < |out| && region.begin.1 + 1 + |ms| == |out[region.begin.0].stmts|
    && Alike(src[region.begin.0].stmts[..region.begin.1 + 1], out[region.begin.0].stmts[..region.begin.1 + 1])
    && out[region.begin.0].stmts[region.begin.1 + 1..] == Inits(ms)
    && out[region.begin.0].term == Goto(entry)
  }

  /** `exit` goes on with what followed the region. */
  ghost predicate ExitsBy(src: Blocks, out: Blocks, region: Region, exit: BlockId, post: BlockId) {
    && region.end.0 < |src| <= post
    && Is(out, exit, [], Goto(post)) && Is(out, post, [], src[region.end.0].term)
  }

  ghost predicate IsOut<U, S>(src: Blocks, region: Region, exit: BlockId, r: Ref<U, S>, c: Conf<U>)
    requires r.ctl.Outside?
  {
    && c.Entering? && c.st.w == r.w
    && if r.ctl.b == region.end.0 then c.b == exit else c.b == r.ctl.b && IsOutside(src, region, r.ctl.b)
  }

  lemma {:induction false} ExecInits<U>(sem: Sem<U>, ms: seq<Machine>, st: Store<U>)
    requires forall i :: 0 <= i < |ms| ==> sem.base <= ms[i].state
    ensures var st' := ExecAll(sem, Inits(ms), st);
            && st'.w == st.w
            && forall l :: Get(st'.sys, l) == if (exists i :: 0 <= i < |ms| && ms[i].state == l) then 0
              else Get(st.sys, l)
  {
    if |ms| > 0 {
      assert Inits(ms)[1..] == Inits(ms[1..]);
      var st1 := Exec(sem, Inits(ms)[0], st);
      ExecInits(sem, ms[1..], st1);
      forall l
        ensures Get(ExecAll(sem, Inits(ms), st).sys, l)
             == if (exists i :: 0 <= i < |ms| && ms[i].state == l) then 0 else Get(st.sys, l)
      {
        if i :| 0 <= i < |ms| && ms[i].state == l {
          if i > 0 { assert ms[1..][i - 1].state == l; }
        }
      }
    }
  }

  lemma StartsAgree(src: Blocks, region: Region, ms: seq<Machine>, sys: map<LocalId, int>)
    requires |ms| == |region.coroutines|
    requires forall i :: 0 <= i < |ms| ==> Get(sys, ms[i].state) == 0
    ensures AgreeBut(src, region, ms, Starts(region), sys, |ms|)
  {
  }

  /** Entering the region sets every machine to its start. */
  lemma EnterSim<U, S>(sem: Sem<U>, src: Blocks, out: Blocks, region: Region, ms: seq<Machine>, lifted: BlockId,
                       entry: BlockId, r: Ref<U, S>, sched: S, c: Conf<U>)
    requires SourceOk(src, sem.base) && FleetOk(src, out, sem.base, region, ms, lifted)
    requires EntersAt(src, out, region, ms, entry)
    requires r.ctl == Outside(region.begin.0) && c.Entering? && c.b == region.begin.0 && c.st.w == r.w
    ensures var r' := OutsideStep(sem, src, region, r, sched, region.begin.0);
            var c' := Step(sem, out, c);
            && r'.ctl.Deciding? && r'.sched == sched && c'.Entering? && c'.b == entry && c'.st.w == r'.w
            && AgreeBut(src, region, ms, r'.pos, c'.st.sys, |ms|)
            && (forall l: nat :: (forall i :: 0 <= i < |ms| ==> ms[i].state != l) ==>
                  Get(c'.st.sys, l) == Get(c.st.sys, l))
  {
    hide FleetOk, Lowered, BodyOf, AgreeBut;
    var b := region.begin.0;
    var head, inits := src[b].stmts[..region.begin.1 + 1], Inits(ms);
    var stmts := out[b].stmts;
    assert stmts == stmts[..region.begin.1 + 1] + inits;
    ExecConcat(sem, stmts[..region.begin.1 + 1], inits, c.st);
    assert forall i :: 0 <= i < |head| ==> UserStmt(head[i], sem.base) by {
      assert forall i :: 0 <= i < |head| ==> head[i] == src[b].stmts[i];
    }
    ExecIsDo(sem, head, stmts[..region.begin.1 + 1], c.st);
    var st1 := ExecAll(sem, stmts[..region.begin.1 + 1], c.st);
    forall i | 0 <= i < |ms|
      ensures sem.base <= ms[i].state
    {
      FleetLocals(src, out, sem.base, region, ms, lifted, i);
    }
    ExecInits(sem, ms, st1);
    FleetSize(src, out, sem.base, region, ms, lifted);
    StartsAgree(src, region, ms, ExecAll(sem, inits, st1).sys);
  }

  lemma FleetSize(src: Blocks, out: Blocks, base: nat, region: Region, ms: seq<Machine>, lifted: BlockId)
    requires FleetOk(src, out, base, region, ms, lifted)
    ensures |ms| == |region.coroutines|
  {
  }

  /** Code outside the region runs as it did. */
  lemma OutsideSim<U, S>(sem: Sem<U>, src: Blocks, out: Blocks, region: Region, exit: BlockId, post: BlockId,
                         r: Ref<U, S>, sched: S, c: Conf<U>) returns (n: nat)
    requires RegionOk(src, sem.base, region) && KeepsOutside(src, out, region) && ExitsBy(src, out, region, exit, post)
    requires r.ctl.Outside? && IsOut(src, region, exit, r, c) && r.ctl.b != region.begin.0
    ensures n >= 1
    ensures var r' := OutsideStep(sem, src, region, r, sched, r.ctl.b);
            var c' := Run(sem, out, c, n);
            && (r'.ctl.Outside? || r'.ctl.Halted?) && c'.st.sys == c.st.sys
            && (r'.ctl.Outside? ==> IsOut(src, region, exit, r', c'))
            && (r'.ctl.Halted? ==> c'.Stopped? && c'.term == r'.ctl.term && c'.st.w == r'.w)
  {
    hide BodiesOk, InSomeBody, Step, Run, IsOutside;
    var b := r.ctl.b;
    if b != region.end.0 {
      OutsideGoesOn(src, region, b);
    }
    var t := src[b].term;
    var w := DoAll(sem, src[b].stmts, r.w);
    var st := Store(w, c.st.sys);
    assert SourceOk(src, sem.base);
    if b == region.end.0 {
      n := 2;
      assert src[b].stmts[1..] == [];
      assert DoAll(sem, src[b].stmts, r.w) == DoAll(sem, [], Do(sem, RegionEnd, r.w)) == r.w;
      EmptyStep(sem, out, exit, Goto(post), c.st);
      EmptyStep(sem, out, post, t, c.st);
      RunStep(sem, out, c, 1);
      RunStep(sem, out, Entering(post, c.st), 0);
    } else {
      n := 1;
      LikeStep(sem, out, b, src[b].stmts, t, c.st);
      RunStep(sem, out, c, 0);
    }
    UserLeave(sem, t, st, |src|);
    var v := if Scrutinee(t).Some? then sem.read(Scrutinee(t).value, w.u) else 0;
    FollowsToSuccessor(t, v);
    assert StaysOutside(src, region, b);
    if Follow(t, v).Some? {
      OutsideGoesOn(src, region, Follow(t, v).value);
    }
  }

  lemma EmptyStep<U>(sem: Sem<U>, out: Blocks, at: BlockId, t: Term, st: Store<U>)
    requires Is(out, at, [], t)
    ensures Step(sem, out, Entering(at, st)) == Leave(sem, t, st)
  {
  }

  // ── What an executor may do between polls ────────────────────────────

  ghost predicate SameStates(ms: seq<Machine>, sys: map<LocalId, int>, sys': map<LocalId, int>) {
    forall i :: 0 <= i < |ms| ==>
      Get(sys', ms[i].state) == Get(sys, ms[i].state) && Get(sys', ms[i].poll) == Get(sys, ms[i].poll)
  }

  ghost predicate LocalsApart(base: nat, ms: seq<Machine>) {
    && (forall i :: 0 <= i < |ms| ==> LocalsOk(base, ms[i]))
    && (forall i, j :: 0 <= i < |ms| && 0 <= j < |ms| ==>
          && ms[i].progress == ms[j].progress
          && ms[i].state != ms[j].progress && ms[i].poll != ms[j].progress)
  }

  lemma FleetApart(src: Blocks, out: Blocks, base: nat, region: Region, ms: seq<Machine>, lifted: BlockId)
    requires FleetOk(src, out, base, region, ms, lifted)
    ensures LocalsApart(base, ms)
  {
    forall i | 0 <= i < |ms|
      ensures LocalsOk(base, ms[i])
    {
      FleetLocals(src, out, base, region, ms, lifted, i);
    }
  }

  lemma AgreeMoves(src: Blocks, region: Region, ms: seq<Machine>, pos: seq<Pos>, sys: map<LocalId, int>,
                   sys': map<LocalId, int>)
    requires AgreeBut(src, region, ms, pos, sys, |ms|) && SameStates(ms, sys, sys')
    ensures AgreeBut(src, region, ms, pos, sys', |ms|)
  {
    forall i | 0 <= i < |ms|
      ensures Agrees(src, region.coroutines[i], ms[i], pos[i], sys')
    {
      assert Agrees(src, region.coroutines[i], ms[i], pos[i], sys);
    }
  }

  /** A local that no machine keeps anything in. */
  ghost predicate Scratch(base: nat, ms: seq<Machine>, l: LocalId)
    requires |ms| > 0
  {
    base <= l && l != ms[0].progress && forall i :: 0 <= i < |ms| ==> l != ms[i].state && l != ms[i].poll
  }

  lemma Scratches(base: nat, ms: seq<Machine>, sys: map<LocalId, int>, l: LocalId, v: int)
    requires |ms| > 0
    requires Scratch(base, ms, l)
          || (forall i :: 0 <= i < |ms| ==> ms[i].state != l && ms[i].poll != l)
    ensures SameStates(ms, sys, sys[l := v])
  {
  }

  lemma StateDone(src: Blocks, out: Blocks, base: nat, region: Region, ms: seq<Machine>, lifted: BlockId,
                  pos: seq<Pos>, sys: map<LocalId, int>, t: nat)
    requires FleetOk(src, out, base, region, ms, lifted) && t < |ms|
    requires AgreeBut(src, region, ms, pos, sys, |ms|)
    ensures Get(sys, ms[t].state) == DONE_STATE <==> pos[t].Done?
    ensures pos[t].Done? ==> Get(sys, ms[t].poll) == POLL_READY
  {
    LoweredOne(src, out, base, region, ms, lifted, t);
    AgreesOne(src, region, ms, pos, sys, t);
    hide FleetOk, BodyOf, CutShape, PlainShape;
    var co, m := region.coroutines[t], ms[t];
    assert MachineShape(src, out, base, co, m, EntryOf(region, co, lifted), co.begin.1);
  }

  lemma AgreeSize(src: Blocks, region: Region, ms: seq<Machine>, pos: seq<Pos>, sys: map<LocalId, int>)
    requires AgreeBut(src, region, ms, pos, sys, |ms|)
    ensures |ms| == |region.coroutines| == |pos|
  {
  }

  lemma StoppedStays<U>(sem: Sem<U>, out: Blocks, c: Conf<U>)
    requires c.Stopped?
    ensures Step(sem, out, c) == c
  {
  }

  lemma SameAt(ms: seq<Machine>, sys: map<LocalId, int>, sys': map<LocalId, int>, t: nat)
    requires SameStates(ms, sys, sys') && t < |ms|
    ensures Get(sys', ms[t].poll) == Get(sys, ms[t].poll)
  {
  }

  lemma SameProgress(base: nat, ms: seq<Machine>, t: nat)
    requires LocalsApart(base, ms) && t < |ms|
    ensures ms[t].progress == ms[0].progress
  {
  }

  /** The output has got as far as the reference, and has stopped if the reference has. */
  ghost predicate SameOutcome<U, S>(r: Ref<U, S>, c: Conf<U>) {
    && c.st.w == r.w
    && (r.ctl.Halted? <==> c.Stopped?)
    && (r.ctl.Halted? ==> c.term == r.ctl.term)
  }

  lemma {:induction false} StoppedForGood<U>(sem: Sem<U>, out: Blocks, c: Conf<U>, n: nat)
    requires c.Stopped?
    ensures Run(sem, out, c, n) == c
    decreases n
  {
    if n > 0 {
      StoppedForGood(sem, out, c, n - 1);
    }
  }
}
