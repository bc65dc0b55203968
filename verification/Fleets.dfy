/** The machines of one region together: polling one of them leaves the others where they
stand. What an executor adds is in Cooperative and Priority.
*/
module Fleets {
  import opened Cfg
  import opened Coroutines
  import opened Regions
  import opened Machines

  /** State 0 of a coroutine that opens the region's first block enters at `lifted`, the
      block cut off behind the region's marker. */
  function EntryOf(region: Region, co: Coroutine, lifted: BlockId): BlockId {
    if co.begin.0 == region.begin.0 then lifted else co.begin.0
  }

  /** A local that no machine uses. */
  ghost predicate Foreign(ms: seq<Machine>, l: LocalId) {
    forall i :: 0 <= i < |ms| ==>
      l != ms[i].state && l != ms[i].poll && l != ms[i].progress && !Temporary(ms[i], l)
  }

  ghost predicate Apart(m: Machine, other: Machine) {
    && m.state != other.state && m.state != other.poll && !Temporary(other, m.state)
    && m.poll != other.state && m.poll != other.poll && !Temporary(other, m.poll)
  }

  ghost predicate FleetOk(src: Blocks, out: Blocks, base: nat, region: Region, ms: seq<Machine>, lifted: BlockId) {
    && |ms| == |region.coroutines|
    && (forall i :: 0 <= i < |ms| ==>
          Lowered(src, out, base, region, region.coroutines[i], ms[i], EntryOf(region, region.coroutines[i], lifted)))
    && (forall i, j :: 0 <= i < |ms| && 0 <= j < |ms| ==> ms[i].progress == ms[j].progress)
    && (forall i, j :: 0 <= i < |ms| && 0 <= j < |ms| && i != j ==> Apart(ms[i], ms[j]))
  }

  /** A machine's saved state is its coroutine's position, and a finished machine's last
      poll said so. */
  ghost predicate Agrees(src: Blocks, co: Coroutine, m: Machine, p: Pos, sys: map<LocalId, int>) {
    && StateIs(src, co, m, p, Get(sys, m.state))
    && (p.Done? ==> Get(sys, m.poll) == POLL_READY)
  }

  /** All machines but number `but` agree with the positions. */
  ghost predicate AgreeBut(src: Blocks, region: Region, ms: seq<Machine>, pos: seq<Pos>, sys: map<LocalId, int>,
                           but: int) {
    && |ms| == |region.coroutines| == |pos|
    && forall i :: 0 <= i < |ms| && i != but ==> Agrees(src, region.coroutines[i], ms[i], pos[i], sys)
  }

  /** The output stands where the reference stands within a poll. */
  ghost predicate InPoll<U, S>(src: Blocks, region: Region, ms: seq<Machine>, lifted: BlockId, r: Ref<U, S>,
                               c: Conf<U>) {
    && |ms| == |region.coroutines| == |r.pos|
    && c.st.w == r.w
    && match r.ctl
       case Polling(j) =>
         && j < |ms| && r.pos[j].At? && c.Entering? && c.b == ms[j].dispatch
         && (Get(c.st.sys, ms[j].progress) == 1) == r.progress
         && AgreeBut(src, region, ms, r.pos, c.st.sys, |ms|)
       case Inside(j, _, _) =>
         && j < |ms| && AgreeBut(src, region, ms, r.pos, c.st.sys, j)
         && Follows(src, region.coroutines[j], ms[j], EntryOf(region, region.coroutines[j], lifted), j, r, c)
       case Polled(j, res) =>
         && j < |ms| && AgreeBut(src, region, ms, r.pos, c.st.sys, |ms|)
         && c.Entering? && c.b == ms[j].exit
         && Get(c.st.sys, ms[j].poll) == ResultCode(res) && (res.Completed? <==> r.pos[j].Done?)
         && (Get(c.st.sys, ms[j].progress) == 1) == r.progress
       case Halted(t) => c.Stopped? && c.term == t
       case _ => false
  }

  ghost predicate SameForeign(ms: seq<Machine>, sys: map<LocalId, int>, sys': map<LocalId, int>) {
    forall l :: Foreign(ms, l) ==> Get(sys', l) == Get(sys, l)
  }

  // ── One machine's poll, seen by the others ───────────────────────────

  lemma FramedKeepsOthers(src: Blocks, region: Region, ms: seq<Machine>, pos: seq<Pos>, pos': seq<Pos>,
                          sys: map<LocalId, int>, sys': map<LocalId, int>, j: nat)
    requires j < |ms| && AgreeBut(src, region, ms, pos, sys, j)
    requires Framed(ms[j], sys, sys')
    requires forall i :: 0 <= i < |ms| && i != j ==>
               Apart(ms[i], ms[j]) && ms[i].state != ms[j].progress && ms[i].poll != ms[j].progress
    requires |pos'| == |pos| && forall i :: 0 <= i < |pos| && i != j ==> pos'[i] == pos[i]
    ensures AgreeBut(src, region, ms, pos', sys', j)
  {
    forall i | 0 <= i < |ms| && i != j
      ensures Agrees(src, region.coroutines[i], ms[i], pos'[i], sys')
    {
      assert Agrees(src, region.coroutines[i], ms[i], pos[i], sys);
      assert Apart(ms[i], ms[j]);
    }
  }

  lemma FramedKeepsForeign(ms: seq<Machine>, sys: map<LocalId, int>, sys': map<LocalId, int>, j: nat)
    requires j < |ms| && Framed(ms[j], sys, sys')
    ensures SameForeign(ms, sys, sys')
  {
  }

  lemma FleetLocals(src: Blocks, out: Blocks, base: nat, region: Region, ms: seq<Machine>, lifted: BlockId, j: nat)
    requires FleetOk(src, out, base, region, ms, lifted) && j < |ms|
    ensures LocalsOk(base, ms[j])
    ensures forall i :: 0 <= i < |ms| && i != j ==>
              Apart(ms[i], ms[j]) && ms[i].state != ms[j].progress && ms[i].poll != ms[j].progress
  {
    forall i | 0 <= i < |ms|
      ensures LocalsOk(base, ms[i])
    {
      assert Lowered(src, out, base, region, region.coroutines[i], ms[i],
                     EntryOf(region, region.coroutines[i], lifted));
      assert MachineShape(src, out, base, region.coroutines[i], ms[i], EntryOf(region, region.coroutines[i], lifted),
                          region.coroutines[i].begin.1);
    }
    assert forall i :: 0 <= i < |ms| && i != j ==> LocalsOk(base, ms[i]);
  }

  lemma ReachedIsInPoll<U, S>(src: Blocks, region: Region, ms: seq<Machine>, lifted: BlockId, j: nat,
                              r: Ref<U, S>, sys: map<LocalId, int>, c: Conf<U>)
    requires j < |ms| == |region.coroutines| == |r.pos|
    requires Reached(src, region.coroutines[j], ms[j], EntryOf(region, region.coroutines[j], lifted), j, r, sys, c)
    requires AgreeBut(src, region, ms, r.pos, c.st.sys, j)
    ensures InPoll(src, region, ms, lifted, r, c)
  {
  }

  /** A step of a poll is a few blocks of the output, and touches no foreign local. */
  lemma PollSim<U, S>(sem: Sem<U>, src: Blocks, out: Blocks, region: Region, ms: seq<Machine>, lifted: BlockId,
                      r: Ref<U, S>, c: Conf<U>) returns (n: nat)
    requires FleetOk(src, out, sem.base, region, ms, lifted)
    requires InPoll(src, region, ms, lifted, r, c) && (r.ctl.Polling? || r.ctl.Inside?)
    ensures n >= 1
    ensures InPoll(src, region, ms, lifted, PollStep(sem, src, region, r), Run(sem, out, c, n))
    ensures SameForeign(ms, c.st.sys, Run(sem, out, c, n).st.sys)
  {
    hide FleetOk, Lowered, AgreeBut, Agrees, Follows, Framed, RunFrom, Apart, LocalsOk, SameForeign, Run, Step,
         Temporary, StateIs;
    var j := if r.ctl.Polling? then r.ctl.j else r.ctl.j;
    var co, m, entry := region.coroutines[j], ms[j], EntryOf(region, region.coroutines[j], lifted);
    LoweredOne(src, out, sem.base, region, ms, lifted, j);
    FleetLocals(src, out, sem.base, region, ms, lifted, j);
    if r.ctl.Polling? {
      n := 1;
      AgreesOne(src, region, ms, r.pos, c.st.sys, j);
      DispatchSim(sem, src, out, region, co, m, entry, j, r, c.st);
      RunStep(sem, out, c, 0);
    } else {
      FollowsInside(src, co, m, entry, j, r, c);
      n := InsideSim(sem, src, out, region, co, m, entry, j, r, c);
      RunFromResult(sem, src, co, r, j, r.ctl.b, r.ctl.k);
    }
    var r', c' := PollStep(sem, src, region, r), Run(sem, out, c, n);
    assert Reached(src, co, m, entry, j, r', c.st.sys, c');
    ReachedFramed(src, co, m, entry, j, r', c.st.sys, c');
    FramedKeepsOthers(src, region, ms, r.pos, r'.pos, c.st.sys, c'.st.sys, j);
    FramedKeepsForeign(ms, c.st.sys, c'.st.sys, j);
    ReachedIsInPoll(src, region, ms, lifted, j, r', c.st.sys, c');
  }

  lemma LoweredOne(src: Blocks, out: Blocks, base: nat, region: Region, ms: seq<Machine>, lifted: BlockId, j: nat)
    requires FleetOk(src, out, base, region, ms, lifted) && j < |ms|
    ensures j < |region.coroutines|
    ensures Lowered(src, out, base, region, region.coroutines[j], ms[j], EntryOf(region, region.coroutines[j], lifted))
  {
  }

  lemma AgreesOne(src: Blocks, region: Region, ms: seq<Machine>, pos: seq<Pos>, sys: map<LocalId, int>, j: nat)
    requires AgreeBut(src, region, ms, pos, sys, |ms|) && j < |ms|
    ensures j < |region.coroutines| && StateIs(src, region.coroutines[j], ms[j], pos[j], Get(sys, ms[j].state))
    ensures pos[j].Done? ==> Get(sys, ms[j].poll) == POLL_READY
    ensures AgreeBut(src, region, ms, pos, sys, j)
  {
    assert Agrees(src, region.coroutines[j], ms[j], pos[j], sys);
  }

  lemma FollowsInside<U, S>(src: Blocks, co: Coroutine, m: Machine, entry: BlockId, j: nat, r: Ref<U, S>, c: Conf<U>)
    requires Follows(src, co, m, entry, j, r, c) && r.ctl.Inside?
    ensures r.ctl.b < |src| && r.ctl.k <= |src[r.ctl.b].stmts| && r.ctl.j == j
  {
  }

  lemma ReachedFramed<U, S>(src: Blocks, co: Coroutine, m: Machine, entry: BlockId, j: nat, r: Ref<U, S>,
                            sys: map<LocalId, int>, c: Conf<U>)
    requires Reached(src, co, m, entry, j, r, sys, c)
    ensures Framed(m, sys, c.st.sys)
  {
  }
}
