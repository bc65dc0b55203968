/** Lowered functions run like the functions they came from.

A lowered function runs one poll at a time: the dispatcher goes to the entry of the saved
state, a resume block reloads its slots, and a yielding block saves its slots, advances the
state and returns. Between polls nothing but the frame survives: a poll starts with
whatever locals it finds.
*/
module AsyncRuns {
  import opened Options
  import opened Cfg
  import opened AsyncIr
  import opened AsyncSplit
  import opened AsyncLayout

  // ── What the host emits from a layout ────────────────────────────────

  datatype Frame<C> = Frame(state: nat, slots: map<nat, int>, child: Option<C>)

  datatype Conf<U, C> =
    | Running(b: BlockId, i: nat, env: Env, frame: Frame<C>, polls: nat, w: World<U>)
    | Suspended(frame: Frame<C>, polls: nat, w: World<U>)
    | Over(value: int, w: World<U>)
    | Stuck(term: Term, w: World<U>)

  function RowOf(rows: Rows, b: BlockId): seq<Entry> {
    if |rows| == 0 then [] else if rows[0].0 == b then rows[0].1 else RowOf(rows[1..], b)
  }

  function KindOf(kinds: seq<(BlockId, Kind)>, b: BlockId): Option<Kind> {
    if |kinds| == 0 then None else if kinds[0].0 == b then Some(kinds[0].1) else KindOf(kinds[1..], b)
  }

  function StateAfter(ends: seq<(BlockId, nat)>, b: BlockId): nat {
    if |ends| == 0 then 0 else if ends[0].0 == b then ends[0].1 else StateAfter(ends[1..], b)
  }

  function Save(entries: seq<Entry>, env: Env, slots: map<nat, int>): map<nat, int> {
    if |entries| == 0 then slots else Save(entries[1..], env, slots[entries[0].0 := Get(env, entries[0].1)])
  }

  function Load(entries: seq<Entry>, env: Env, slots: map<nat, int>): Env {
    if |entries| == 0 then env else Load(entries[1..], env[entries[0].1 := Get(slots, entries[0].0)], slots)
  }

  function Enter<U, C>(layout: Layout, b: BlockId, env: Env, frame: Frame<C>, polls: nat, w: World<U>): Conf<U, C> {
    Running(b, 0, Load(RowOf(layout.resumeLoads, b), env, frame.slots), frame, polls, w)
  }

  /** The frame of a function that gives up control in block `b`. */
  function Saved<C>(layout: Layout, b: BlockId, env: Env, frame: Frame<C>): Frame<C> {
    Frame(StateAfter(layout.yieldBlocks, b), Save(RowOf(layout.yieldSaves, b), env, frame.slots), frame.child)
  }

  /** The last statement of a yielding block. */
  function SuspendStep<U, C>(sem: Sem<U, C>, layout: Layout, kind: Kind, s: Stmt, c: Conf<U, C>): Conf<U, C>
    requires c.Running?
  {
    var frame := Saved(layout, c.b, c.env, c.frame);
    match kind
    case DirectYield => if s.Yield? then Suspended(frame, c.polls, Suspend(sem, c.w, GetOpt(c.env, s.value))) else c
    case CallInit(check, receiver, args, _, callee) =>
      var child := sem.start(callee, GetOpt(c.env, receiver), GetAll(c.env, args));
      Enter(layout, check, c.env, frame.(child := Some(child)), c.polls, c.w)
    case CallResume(_, _, _, _, _) => c
  }

  /** A resume block polls the callee: a yield goes on up, a result goes on down. */
  function PollStep<U, C>(sem: Sem<U, C>, layout: Layout, done: BlockId, result: LocalId, c: Conf<U, C>): Conf<U, C>
    requires c.Running?
  {
    if c.frame.child.None? then c
    else
      match sem.poll(c.frame.child.value, c.w.u)
      case Pending(child, v, u) =>
        Suspended(c.frame.(child := Some(child)), c.polls, Suspend(sem, World(u, c.w.trace), Some(v)))
      case Done(v, u) => Enter(layout, done, c.env[result := v], c.frame.(child := None), c.polls, World(u, c.w.trace))
  }

  /** One statement, one suspension, one poll of a callee, one terminator, or one dispatch.
      `junk` is what a poll finds in its locals. */
  function LowStep<U, C>(sem: Sem<U, C>, out: Blocks, layout: Layout, ret: LocalId, junk: nat -> Env, c: Conf<U,
                         C>): Conf<U, C> {
    match c
    case Suspended(frame, polls, w) =>
      if frame.state < |layout.resumeEntries|
      then Enter(layout, layout.resumeEntries[frame.state], junk(polls), frame, polls + 1, w)
      else c
    case Running(b, i, env, frame, polls, w) =>
      if b >= |out| then c
      else
        var stmts, kind := out[b].stmts, KindOf(layout.blockKinds, b);
        if kind.Some? && kind.value.CallResume? then
          if i == |stmts| then PollStep(sem, layout, kind.value.doneBlock, kind.value.result, c) else c
        else if kind.Some? && i + 1 == |stmts| then SuspendStep(sem, layout, kind.value, stmts[i], c)
        else if i < |stmts| then
          if stmts[i].Plain? then
            var (env', w') := RunPlain(sem, stmts[i], env, w);
            Running(b, i + 1, env', frame, polls, w')
          else c
        else
          (match Coroutines.Follow(out[b].term, Look(out[b].term, env))
           case Some(next) => Enter(layout, next, env, frame, polls, w)
           case None => if out[b].term.Return? then Over(Get(env, ret), w) else Stuck(out[b].term, w))
    case _ => c
  }

  function LowSteps<U, C>(sem: Sem<U, C>, out: Blocks, layout: Layout, ret: LocalId, junk: nat -> Env, c: Conf<U, C>,
                          n: nat): Conf<U, C>
    decreases n
  {
    if n == 0 then c else LowSteps(sem, out, layout, ret, junk, LowStep(sem, out, layout, ret, junk, c), n - 1)
  }

  // ── The setting ──────────────────────────────────────────────────────

  /** A function and what the transform made of it. */
  datatype Lowering = Lowering(
    src: Blocks, out: Blocks, ret: LocalId, live: Liveness, reserved: nat, layout: Layout,
    sites: seq<Site>, cuts: seq<Cut>, slots: Slots, order: seq<LocalId>)

  ghost predicate IsLowered(x: Lowering) {
    Lowered(x.src, x.out, x.live, x.reserved, x.layout, x.sites, x.cuts, x.slots, x.order)
  }

  ghost predicate SuccessorsInRange(src: Blocks) {
    |src| > 0 && forall b, next :: 0 <= b < |src| && next in Successors(src[b].term) ==> next < |src|
  }

  /** Each site's list holds every local read later before it is written again. */
  ghost predicate CoversLive(x: Lowering) {
    forall k, v: LocalId ::
        0 <= k < |x.sites| && InRange(x.src, x.sites[k]) && Survives(x.src, x.ret, x.sites[k].0, x.sites[k].1, v) ==>
      v in Lookup(x.live, x.sites[k])
  }

  /** States and slots fit their words. */
  predicate Fits(x: Lowering) {
    |x.sites| < U32 && |x.order| <= U32
  }

  ghost predicate Ready(x: Lowering) {
    IsLowered(x) && SuccessorsInRange(x.src) && CoversLive(x) && Fits(x)
  }

  // ── Blocks and what the layout says of them ──────────────────────────

  predicate IsYield(src: Blocks, c: Cut)
    requires c.bb < |src| && c.idx < |src[c.bb].stmts|
  {
    src[c.bb].stmts[c.idx].Yield?
  }

  /** Yielding blocks and call-resume blocks are all different. */
  ghost predicate KeysApart(src: Blocks, cuts: seq<Cut>) {
    && CutsInRange(src, cuts)
    && (forall j, k :: 0 <= j < |cuts| && 0 <= k < |cuts| && j != k ==>
          cuts[j].home != cuts[k].home && cuts[j].resume != cuts[k].resume)
    && (forall j, k :: 0 <= j < |cuts| && 0 <= k < |cuts| && !IsYield(src, cuts[k]) ==> cuts[j].home != cuts[k].resume)
  }

  lemma HomeIs(src: Blocks, out: Blocks, cuts: seq<Cut>, k: nat)
    requires Split(src, out, cuts) && k < |cuts|
    ensures cuts[k].bb < |src| && cuts[k].idx < |src[cuts[k].bb].stmts|
    ensures if FirstInBlock(cuts, k) then cuts[k].home == cuts[k].bb else cuts[k].home == cuts[k - 1].tail
    ensures cuts[k].tail >= |src| && cuts[k].resume >= |src| && cuts[k].home < |out|
    ensures IsYield(src, cuts[k]) <==> cuts[k].resume == cuts[k].tail
  {
    assert CutOk(src, out, cuts, k);
  }

  lemma FirstOnlyOnce(cuts: seq<Cut>, j: nat, k: nat)
    requires CutsAscend(cuts) && j < k < |cuts| && FirstInBlock(cuts, k)
    ensures cuts[j].bb != cuts[k].bb
  {
    assert j < k - 1 ==> Before((cuts[j].bb, cuts[j].idx), (cuts[k - 1].bb, cuts[k - 1].idx));
    assert Before((cuts[k - 1].bb, cuts[k - 1].idx), (cuts[k].bb, cuts[k].idx));
  }

  lemma KeysAreApart(src: Blocks, out: Blocks, cuts: seq<Cut>)
    requires Split(src, out, cuts)
    ensures KeysApart(src, cuts)
  {
    forall k | 0 <= k < |cuts|
      ensures cuts[k].bb < |src| && cuts[k].idx < |src[cuts[k].bb].stmts|
    {
      HomeIs(src, out, cuts, k);
    }
    forall j, k | 0 <= j < k < |cuts|
      ensures cuts[j].home != cuts[k].home && cuts[j].resume != cuts[k].resume
    {
      TwoHomes(src, out, cuts, j, k);
    }
    forall j, k | 0 <= j < |cuts| && 0 <= k < |cuts| && !IsYield(src, cuts[k])
      ensures cuts[j].home != cuts[k].resume
    {
      HomeIsNoCheck(src, out, cuts, j, k);
    }
    hide Split;
  }

  lemma TwoHomes(src: Blocks, out: Blocks, cuts: seq<Cut>, j: nat, k: nat)
    requires Split(src, out, cuts) && j < k < |cuts|
    ensures cuts[j].home != cuts[k].home && cuts[j].resume != cuts[k].resume
  {
    HomeIs(src, out, cuts, j);
    HomeIs(src, out, cuts, k);
    HomeIs(src, out, cuts, k - 1);
    if j > 0 {
      HomeIs(src, out, cuts, j - 1);
    }
    if FirstInBlock(cuts, k) {
      FirstOnlyOnce(cuts, j, k);
    }
    hide CutOk;
  }

  lemma HomeIsNoCheck(src: Blocks, out: Blocks, cuts: seq<Cut>, j: nat, k: nat)
    requires Split(src, out, cuts) && j < |cuts| && k < |cuts|
    requires cuts[k].bb < |src| && cuts[k].idx < |src[cuts[k].bb].stmts| && !IsYield(src, cuts[k])
    ensures cuts[j].home != cuts[k].resume
  {
    HomeIs(src, out, cuts, j);
    HomeIs(src, out, cuts, k);
    if j > 0 {
      HomeIs(src, out, cuts, j - 1);
    }
    hide CutOk;
  }

  lemma {:induction false} KindInBoth(a: seq<(BlockId, Kind)>, b: seq<(BlockId, Kind)>, x: BlockId)
    ensures KindOf(a + b, x) == if KindOf(a, x).Some? then KindOf(a, x) else KindOf(b, x)
  {
    if |a| == 0 {
      assert a + b == b;
    } else {
      assert (a + b)[1..] == a[1..] + b;
      KindInBoth(a[1..], b, x);
    }
  }

  ghost predicate NoKey(src: Blocks, cuts: seq<Cut>, x: BlockId)
    requires CutsInRange(src, cuts)
  {
    forall k :: 0 <= k < |cuts| ==> cuts[k].home != x && (cuts[k].resume != x || IsYield(src, cuts[k]))
  }

  lemma {:induction false} NoKind(src: Blocks, cuts: seq<Cut>, x: BlockId)
    requires CutsInRange(src, cuts) && NoKey(src, cuts, x)
    ensures KindOf(Kinds(src, cuts), x) == None
  {
    if |cuts| > 0 {
      var n := |cuts| - 1;
      NoKind(src, cuts[..n], x);
      KindInBoth(Kinds(src, cuts[..n]), RowsOf(src, cuts[n]), x);
      KindOfRows(src[cuts[n].bb].stmts[cuts[n].idx], cuts[n].home, cuts[n].tail, cuts[n].resume, x);
    }
  }

  function HomeKind(s: Stmt, resume: BlockId): Kind {
    match s
    case Call(callee, receiver, args, result) => CallInit(resume, receiver, args, result, callee)
    case _ => DirectYield
  }

  lemma KindOfRows(s: Stmt, home: BlockId, tail: BlockId, resume: BlockId, x: BlockId)
    ensures var kind := KindOf(KindRows(s, home, tail, resume), x);
            && (x == home ==> kind == Some(HomeKind(s, resume)))
            && (x != home && s.Call? && x == resume ==>
                  kind == Some(CallResume(tail, s.receiver, s.args, s.result, s.callee)))
            && (x != home && (x != resume || !s.Call?) ==> kind == None)
  {
    var rows := KindRows(s, home, tail, resume);
    if |rows| > 1 {
      var more: seq<(BlockId, Kind)> := rows[1..];
      assert |more| == 1 && more[0] == rows[1] && |more[1..]| == 0;
      assert KindOf(more, x) == if more[0].0 == x then Some(more[0].1) else KindOf(more[1..], x);
    } else {
      assert |rows[1..]| == 0;
    }
  }

  lemma {:induction false} KindOfCut(src: Blocks, cuts: seq<Cut>, k: nat)
    requires KeysApart(src, cuts) && k < |cuts| && IsSite(src[cuts[k].bb].stmts[cuts[k].idx])
    ensures var c := cuts[k]; var s := src[c.bb].stmts[c.idx];
            && KindOf(Kinds(src, cuts), c.home) == Some(HomeKind(s, c.resume))
            && (s.Call? ==>
                  KindOf(Kinds(src, cuts), c.resume)
                    == Some(CallResume(c.tail, s.receiver, s.args, s.result, s.callee)))
  {
    var n := |cuts| - 1;
    var c := cuts[k];
    var s := src[c.bb].stmts[c.idx];
    KindInBoth(Kinds(src, cuts[..n]), RowsOf(src, cuts[n]), c.home);
    KindInBoth(Kinds(src, cuts[..n]), RowsOf(src, cuts[n]), c.resume);
    if k == n {
      NoKind(src, cuts[..n], c.home);
      KindOfRows(s, c.home, c.tail, c.resume, c.home);
      if s.Call? {
        NoKind(src, cuts[..n], c.resume);
        KindOfRows(s, c.home, c.tail, c.resume, c.resume);
      }
    } else {
      assert cuts[..n][k] == c;
      KindOfCut(src, cuts[..n], k);
    }
  }

  lemma {:induction false} StateAfterHome(ends: seq<(BlockId, nat)>, k: nat)
    requires k < |ends| && forall j :: 0 <= j < k ==> ends[j].0 != ends[k].0
    ensures StateAfter(ends, ends[k].0) == ends[k].1
  {
    if k > 0 {
      assert ends[0].0 != ends[k].0;
      StateAfterHome(ends[1..], k - 1);
    }
  }

  lemma {:induction false} RowInBoth(a: Rows, b: Rows, x: BlockId)
    requires forall i :: 0 <= i < |a| ==> |a[i].1| > 0
    ensures RowOf(a + b, x) == if RowOf(a, x) != [] then RowOf(a, x) else RowOf(b, x)
  {
    if |a| == 0 {
      assert a + b == b;
    } else {
      assert (a + b)[1..] == a[1..] + b;
      RowInBoth(a[1..], b, x);
    }
  }

  /** What the rows say of a block. */
  lemma {:induction false} RowsSay(sites: seq<Site>, live: Liveness, slots: Slots, at: seq<BlockId>, n: nat, x: BlockId)
    requires n <= |sites| == |at| && forall k :: 0 <= k < n ==> HaveSlots(slots, Lookup(live, sites[k]))
    requires forall j, k :: 0 <= j < k < |at| ==> at[j] != at[k]
    ensures forall i :: 0 <= i < |RowsFor(sites, live, slots, at, n)| ==> |RowsFor(sites, live, slots, at, n)[i].1| > 0
    ensures forall k :: 0 <= k < n && at[k] == x ==>
              RowOf(RowsFor(sites, live, slots, at, n), x) == Entries(slots, Lookup(live, sites[k]))
    ensures (forall k :: 0 <= k < n ==> at[k] != x) ==> RowOf(RowsFor(sites, live, slots, at, n), x) == []
    decreases n
  {
    if n > 0 {
      RowsSay(sites, live, slots, at, n - 1, x);
      var vs := Lookup(live, sites[n - 1]);
      var row: Rows := if vs == [] then [] else [(at[n - 1], Entries(slots, vs))];
      RowInBoth(RowsFor(sites, live, slots, at, n - 1), row, x);
      assert vs != [] ==> row[1..] == [];
    }
  }

  // ── Saving and loading ───────────────────────────────────────────────

  predicate OneToOne(slots: Slots) {
    forall u, v :: u in slots && v in slots && slots[u] == slots[v] ==> u == v
  }

  lemma SlotsAreApart(slots: Slots, order: seq<LocalId>, reserved: nat)
    requires SlotsFrom(slots, order, reserved) && |order| <= U32
    ensures OneToOne(slots)
  {
    forall u, v | u in slots && v in slots && slots[u] == slots[v]
      ensures u == v
    {
      var i :| 0 <= i < |order| && order[i] == u;
      var j :| 0 <= j < |order| && order[j] == v;
      ModApart(reserved, i, j);
    }
  }

  lemma ModApart(reserved: nat, i: nat, j: nat)
    requires i < U32 && j < U32 && (reserved + i) % U32 == (reserved + j) % U32
    ensures i == j
  {
  }

  lemma {:induction false} SaveKeeps(slots: Slots, vs: seq<LocalId>, env: Env, frame: map<nat, int>, v: LocalId)
    requires HaveSlots(slots, vs) && OneToOne(slots) && v in slots
    ensures Get(Save(Entries(slots, vs), env, frame), slots[v]) == if v in vs then Get(env, v) else Get(frame, slots[v])
  {
    if |vs| > 0 {
      var es := Entries(slots, vs);
      assert es[1..] == Entries(slots, vs[1..]);
      assert vs == [vs[0]] + vs[1..];
      SaveKeeps(slots, vs[1..], env, frame[slots[vs[0]] := Get(env, vs[0])], v);
    }
  }

  lemma {:induction false} LoadKeeps(slots: Slots, vs: seq<LocalId>, env: Env, frame: map<nat, int>, v: LocalId)
    requires HaveSlots(slots, vs)
    ensures Get(Load(Entries(slots, vs), env, frame), v) == if v in vs then Get(frame, slots[v]) else Get(env, v)
  {
    if |vs| > 0 {
      var es := Entries(slots, vs);
      assert es[1..] == Entries(slots, vs[1..]);
      assert vs == [vs[0]] + vs[1..];
      LoadKeeps(slots, vs[1..], env[vs[0] := Get(frame, slots[vs[0]])], frame, v);
    }
  }
}
