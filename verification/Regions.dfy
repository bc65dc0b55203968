/** Concurrency regions and their meaning. */
module Regions {
  // Which regions of a krio-stackless body are well formed, and what they do.

  // A region's meaning is given directly on the source: each coroutine has a position, and a
  // scheduler decides who is polled. A poll runs from the position to the next suspension that
  // holds. The scheduler is a parameter; Cooperative and Priority supply two.

  import opened Options
  import opened Cfg
  import opened Coroutines

  datatype Coroutine = Coroutine(begin: (BlockId, nat), end: (BlockId, nat), priority: Option<nat>)

  datatype Region = Region(begin: (BlockId, nat), end: (BlockId, nat), coroutines: seq<Coroutine>)

  /** The first coroutine starts in the region's first block. */
  predicate SharesFirst(region: Region) {
    |region.coroutines| > 0 && region.coroutines[0].begin.0 == region.begin.0
  }

  // ── The body of a coroutine ──────────────────────────────────────────

  /** A path of terminators that does not go on from the end block. */
  ghost predicate IsPath(blocks: Blocks, end: BlockId, path: seq<BlockId>) {
    && |path| > 0
    && (forall i :: 0 <= i < |path| ==> path[i] < |blocks|)
    && (forall i :: 0 <= i < |path| - 1 ==>
          path[i] != end && path[i + 1] in Successors(blocks[path[i]].term))
  }

  ghost predicate Reachable(blocks: Blocks, co: Coroutine, b: BlockId) {
    exists path :: IsPath(blocks, co.end.0, path) && path[0] == co.begin.0 && path[|path| - 1] == b
  }

  /** The blocks of a coroutine: those reachable from its begin marker without passing its
      end block, and its end block. */
  ghost function BodyOf(blocks: Blocks, co: Coroutine): (body: set<BlockId>)
    ensures forall b :: b in body ==> b < |blocks|
  {
    set b | 0 <= b < |blocks| && (b == co.end.0 || Reachable(blocks, co, b))
  }

  lemma BeginInBody(blocks: Blocks, co: Coroutine)
    requires co.begin.0 < |blocks|
    ensures co.begin.0 in BodyOf(blocks, co)
  {
    assert IsPath(blocks, co.end.0, [co.begin.0]);
  }

  lemma BodyIsClosed(blocks: Blocks, co: Coroutine, b: BlockId, next: BlockId)
    requires b in BodyOf(blocks, co) && b != co.end.0
    requires next in Successors(blocks[b].term) && next < |blocks|
    ensures next in BodyOf(blocks, co)
  {
    var path :| IsPath(blocks, co.end.0, path) && path[0] == co.begin.0 && path[|path| - 1] == b;
    assert IsPath(blocks, co.end.0, path + [next]);
    assert (path + [next])[0] == co.begin.0;
  }

  /** The index of the first suspension at or after `k`, or the length. */
  function NextSite(stmts: seq<Stmt>, k: nat): (s: nat)
    requires k <= |stmts|
    ensures k <= s <= |stmts|
    ensures s < |stmts| ==> Suspends(stmts[s])
    ensures forall i :: k <= i < s ==> !Suspends(stmts[i])
    decreases |stmts| - k
  {
    if k == |stmts| || Suspends(stmts[k]) then k else NextSite(stmts, k + 1)
  }

  // ── What a region means ──────────────────────────────────────────────

  datatype PollResult = Completed | Yielded | Blocked

  /** Where a coroutine will resume. */
  datatype Pos = At(b: BlockId, k: nat) | Done

  datatype Ctl =
    | Outside(b: BlockId)                  // about to run a block outside the region
    | Deciding                             // the scheduler's turn
    | Polling(j: nat)                      // coroutine j is about to be resumed
    | Inside(j: nat, b: BlockId, k: nat)   // coroutine j runs, from statement k of block b
    | Polled(j: nat, res: PollResult)      // its turn is over
    | Halted(term: Term)

  /** Control is with the region's scheduler or one of its coroutines. */
  predicate IsActive(ctl: Ctl) {
    !ctl.Outside? && !ctl.Halted?
  }

  /** `progress` records whether a guard has passed, or more, as the scheduler sees fit. */
  datatype Ref<U, S> = Ref(ctl: Ctl, pos: seq<Pos>, progress: bool, sched: S, w: World<U>)

  /** The rest of a block that holds no further suspension, and its terminator. */
  function Finish<U, S>(sem: Sem<U>, src: Blocks, co: Coroutine, r: Ref<U, S>, j: nat, b: BlockId, k: nat): Ref<U, S>
    requires b < |src| && k <= |src[b].stmts| && j < |r.pos|
  {
    var w := DoAll(sem, src[b].stmts[k..], r.w);
    if b == co.end.0 then r.(ctl := Polled(j, Completed), pos := r.pos[j := Done], w := w)
    else
      var t := src[b].term;
      var v := if Scrutinee(t).Some? then sem.read(Scrutinee(t).value, w.u) else 0;
      match Follow(t, v)
      case Some(next) => r.(ctl := Inside(j, next, 0), w := w)
      case None => r.(ctl := Halted(t), w := w)
  }

  /** Coroutine `j` runs from statement `k` of block `b` to its next suspension or to the
      end of the block. A recv whose channel is ready goes on. */
  function RunFrom<U, S>(sem: Sem<U>, src: Blocks, co: Coroutine, r: Ref<U, S>, j: nat, b: BlockId, k: nat): Ref<U, S>
    requires b < |src| && k <= |src[b].stmts| && j < |r.pos|
  {
    var stmts := src[b].stmts;
    var s := NextSite(stmts, k);
    if s == |stmts| then Finish(sem, src, co, r, j, b, k)
    else
      var r' := r.(w := DoAll(sem, stmts[k..s], r.w));
      match stmts[s]
      case GuardedRecv(ch) =>
        if sem.ready(ch, r'.w.u)
        then Finish(sem, src, co, r'.(progress := true, w := Do(sem, stmts[s], r'.w)), j, b, s + 1)
        else r'.(ctl := Polled(j, Blocked), pos := r.pos[j := At(b, s)])
      case _ =>
        r'.(ctl := Polled(j, Yielded), pos := r.pos[j := At(b, s + 1)], w := Do(sem, stmts[s], r'.w))
  }

  /** One step of a poll. */
  function PollStep<U, S>(sem: Sem<U>, src: Blocks, region: Region, r: Ref<U, S>): Ref<U, S> {
    match r.ctl
    case Polling(j) => if j < |r.pos| && r.pos[j].At? then r.(ctl := Inside(j, r.pos[j].b, r.pos[j].k)) else r
    case Inside(j, b, k) =>
      if j < |r.pos| && j < |region.coroutines| && b < |src| && k <= |src[b].stmts|
      then RunFrom(sem, src, region.coroutines[j], r, j, b, k) else r
    case _ => r
  }

  lemma RunFromResult<U, S>(sem: Sem<U>, src: Blocks, co: Coroutine, r: Ref<U, S>, j: nat, b: BlockId, k: nat)
    requires b < |src| && k <= |src[b].stmts| && j < |r.pos|
    ensures var r' := RunFrom(sem, src, co, r, j, b, k);
            && |r'.pos| == |r.pos| && (forall i :: 0 <= i < |r.pos| && i != j ==> r'.pos[i] == r.pos[i])
            && r'.sched == r.sched && (r'.ctl.Inside? ==> r'.pos == r.pos)
            && (r'.ctl.Halted? || (r'.ctl.Inside? && r'.ctl.j == j)
                || (r'.ctl.Polled? && r'.ctl.j == j && (r'.ctl.res.Completed? <==> r'.pos[j].Done?)))
  {
    hide DoAll, Do;
  }

  lemma {:induction false} NextSiteIs(stmts: seq<Stmt>, k: nat, s: nat)
    requires k <= s <= |stmts| && (forall i :: k <= i < s ==> !Suspends(stmts[i]))
             && (s < |stmts| ==> Suspends(stmts[s]))
    ensures NextSite(stmts, k) == s
    decreases s - k
  {
    if k < s {
      NextSiteIs(stmts, k + 1, s);
    }
  }

  /** What the first suspension of a stretch does, at statement `s`. A yield ends the poll behind
      it. A send is made, and ends the poll behind it. A recv whose channel is not ready ends the
      poll blocked, in front of it, and one whose channel is ready is made, counts as progress, and
      lets the coroutine go on through the rest of the block. */
  lemma StretchEnds<U, S>(sem: Sem<U>, src: Blocks, co: Coroutine, r: Ref<U, S>, j: nat, b: BlockId, k: nat, s: nat)
    requires b < |src| && k <= s < |src[b].stmts| && j < |r.pos| && Suspends(src[b].stmts[s])
    requires forall i :: k <= i < s ==> !Suspends(src[b].stmts[i])
    ensures var r' := RunFrom(sem, src, co, r, j, b, k); var w := DoAll(sem, src[b].stmts[k..s], r.w);
            match src[b].stmts[s]
            case YieldMark =>
              r'.ctl == Polled(j, Yielded) && r'.pos == r.pos[j := At(b, s + 1)] && r'.w == w
            case ProducingSend(ch) =>
              && r'.ctl == Polled(j, Yielded) && r'.pos == r.pos[j := At(b, s + 1)]
              && r'.w == World(sem.send(ch, w.u), w.trace + [Sent(ch)])
            case GuardedRecv(ch) =>
              if sem.ready(ch, w.u)
              then !(r'.ctl.Polled? && r'.ctl.res.Blocked?) && r'.progress
                && r'.w == DoAll(sem, src[b].stmts[s + 1..], World(sem.recv(ch, w.u), w.trace + [Received(ch)]))
              else r'.ctl == Polled(j, Blocked) && r'.pos == r.pos[j := At(b, s)] && r'.w == w
            case _ => true
  {
    NextSiteIs(src[b].stmts, k, s);
    hide DoAll, NextSite;
  }

  lemma PollKeeps<U, S>(sem: Sem<U>, src: Blocks, region: Region, r: Ref<U, S>)
    ensures var r' := PollStep(sem, src, region, r); r'.sched == r.sched
    ensures var r' := PollStep(sem, src, region, r);
            (r.ctl.Polling? ==> r' == r || (r'.ctl.Inside? && r'.ctl.j == r.ctl.j))
    ensures var r' := PollStep(sem, src, region, r);
            (r.ctl.Inside? ==> r' == r || r'.ctl.Halted? || (r'.ctl.Inside? && r'.ctl.j == r.ctl.j)
                                 || (r'.ctl.Polled? && r'.ctl.j == r.ctl.j))
  {
  }

  // ── The builder's contract ───────────────────────────────────────────

  ghost predicate UserTerm(t: Term, base: nat, n: nat) {
    && (Scrutinee(t).Some? ==> Scrutinee(t).value < base)
    && (forall b :: b in Successors(t) ==> b < n)
  }

  /** The source uses its own locals and its own blocks. */
  ghost predicate SourceOk(src: Blocks, base: nat) {
    forall b :: 0 <= b < |src| ==>
      && (forall i :: 0 <= i < |src[b].stmts| ==> UserStmt(src[b].stmts[i], base))
      && UserTerm(src[b].term, base, |src|)
  }

  /** At most one suspension, at or after `from`. */
  ghost predicate AtMostOneSite(stmts: seq<Stmt>, from: nat) {
    forall i, j :: from <= i < |stmts| && from <= j < |stmts| && Suspends(stmts[i]) && Suspends(stmts[j]) ==> i == j
  }

  /** Where a coroutine's code starts in a block of its body. */
  function StartOf(co: Coroutine, b: BlockId): nat {
    if b == co.begin.0 then co.begin.1 else 0
  }

  ghost predicate CoroutineOk(src: Blocks, region: Region, co: Coroutine) {
    && co.begin.0 < |src| && co.begin.1 < |src[co.begin.0].stmts|
    && src[co.begin.0].stmts[co.begin.1].CoroutineBegin?
    // the begin marker opens its block, or follows the region's own marker
    && (if co.begin.0 == region.begin.0 then co.begin.1 == region.begin.1 + 1 else co.begin.1 == 0)
    // the end marker closes a block that has no suspension
    && co.end.0 < |src| && co.end.1 + 1 == |src[co.end.0].stmts|
    && src[co.end.0].stmts[co.end.1].CoroutineEnd?
    && co.end.1 >= StartOf(co, co.end.0)
    && (forall i :: StartOf(co, co.end.0) <= i < |src[co.end.0].stmts| ==> !Suspends(src[co.end.0].stmts[i]))
    // at most one suspension per block, and nothing jumps back onto the region's begin marker
    && (forall b :: b in BodyOf(src, co) ==> AtMostOneSite(src[b].stmts, StartOf(co, b)))
    && (forall b :: b in BodyOf(src, co) && b != co.end.0 ==> region.begin.0 !in Successors(src[b].term))
    // the region's markers are outside
    && region.end.0 !in BodyOf(src, co)
    && (region.begin.0 in BodyOf(src, co) ==> region.begin.0 == co.begin.0)
  }

  ghost predicate InSomeBody(src: Blocks, region: Region, b: BlockId) {
    exists j :: 0 <= j < |region.coroutines| && b in BodyOf(src, region.coroutines[j])
  }

  /** A block of code before or after the region, or in no way related to it. */
  ghost predicate NotInside(src: Blocks, region: Region, b: BlockId) {
    b < |src| && b != region.end.0 && (b == region.begin.0 || !InSomeBody(src, region, b))
  }

  /** Code that enters the region through its first block only. */
  ghost predicate OutsideSet(src: Blocks, region: Region, code: set<BlockId>) {
    forall b :: b in code ==>
      NotInside(src, region, b)
        && (b != region.begin.0 ==> forall next :: next in Successors(src[b].term) ==> next in code)
  }

  /** Wherever control goes from `b`, it enters the region through its first block only. */
  ghost predicate IsOutside(src: Blocks, region: Region, b: BlockId) {
    exists code :: b in code && OutsideSet(src, region, code)
  }

  /** Everything `b` leads to is outside the region, or its first block. */
  ghost predicate StaysOutside(src: Blocks, region: Region, b: BlockId)
    requires b < |src|
  {
    forall next :: next in Successors(src[b].term) ==> IsOutside(src, region, next)
  }

  lemma OutsideGoesOn(src: Blocks, region: Region, b: BlockId)
    requires IsOutside(src, region, b)
    ensures NotInside(src, region, b)
    ensures b != region.begin.0 ==> StaysOutside(src, region, b)
  {
    var code :| b in code && OutsideSet(src, region, code);
    hide NotInside;
    forall next | b != region.begin.0 && next in Successors(src[b].term)
      ensures IsOutside(src, region, next)
    {
      assert next in code;
    }
  }

  ghost predicate MarkersOk(src: Blocks, region: Region) {
    && |region.coroutines| > 0
    && region.begin.0 < |src| && region.begin.1 < |src[region.begin.0].stmts|
    && src[region.begin.0].stmts[region.begin.1] == RegionBegin
    // the region's end is alone in its block
    && region.end.0 < |src| && region.end.1 == 0 && src[region.end.0].stmts == [RegionEnd]
    && region.end.0 != region.begin.0
  }

  ghost predicate BodiesOk(src: Blocks, region: Region) {
    && (forall j :: 0 <= j < |region.coroutines| ==> CoroutineOk(src, region, region.coroutines[j]))
    // bodies are disjoint; only the first coroutine may share the region's first block
    && (forall i, j :: 0 <= i < |region.coroutines| && 0 <= j < |region.coroutines| && i != j ==>
          BodyOf(src, region.coroutines[i]) !! BodyOf(src, region.coroutines[j]))
    && (forall j :: 0 < j < |region.coroutines| ==> region.coroutines[j].begin.0 != region.begin.0)
  }

  ghost predicate RegionOk(src: Blocks, base: nat, region: Region) {
    && SourceOk(src, base)
    && MarkersOk(src, region)
    && BodiesOk(src, region)
    // what follows the region enters it, if at all, through its first block
    && StaysOutside(src, region, region.end.0)
  }
}
