/** The simulation: a lowered function keeps step with the function it came from. */
module AsyncSim {
  import opened Options
  import opened Cfg
  import opened AsyncIr
  import opened AsyncSplit
  import opened AsyncLayout
  import opened AsyncRuns

  // ── Where a source position is in the output ─────────────────────────

  /** In the piece that ends at cut `k`. */
  ghost predicate AtCut(x: Lowering, k: nat, b: BlockId, i: nat, ob: BlockId, oi: nat) {
    && k < |x.cuts| && x.cuts[k].bb == b && x.cuts[k].start <= i <= x.cuts[k].idx
    && ob == x.cuts[k].home && oi == i - x.cuts[k].start
  }

  /** In a piece that runs to the end of its block. */
  ghost predicate AtRest(x: Lowering, from: nat, b: BlockId, i: nat, ob: BlockId, oi: nat) {
    && b < |x.src| && from <= i <= |x.src[b].stmts| && oi == i - from
    && ob < |x.out| && x.out[ob] == Block(x.src[b].stmts[from..], x.src[b].term)
    && (forall j :: from <= j < |x.src[b].stmts| ==> !IsSite(x.src[b].stmts[j]))
    && KindOf(x.layout.blockKinds, ob) == None
  }

  ghost predicate Here(x: Lowering, b: BlockId, i: nat, ob: BlockId, oi: nat) {
    (exists k: nat :: AtCut(x, k, b, i, ob, oi)) || (exists from: nat :: AtRest(x, from, b, i, ob, oi))
  }

  function SiteOf(c: Cut): Site {
    (c.bb, c.idx)
  }

  function LiveAt(x: Lowering, k: nat): seq<LocalId>
    requires k < |x.cuts|
  {
    Lookup(x.live, SiteOf(x.cuts[k]))
  }

  /** What the layout says of one cut. */
  ghost predicate CutSays(x: Lowering, k: nat)
    requires k < |x.cuts|
  {
    var c, vs := x.cuts[k], LiveAt(x, k);
    && c.bb < |x.src| && c.start <= c.idx < |x.src[c.bb].stmts| && IsSite(x.src[c.bb].stmts[c.idx])
    && c.home < |x.out| && x.out[c.home].stmts == x.src[c.bb].stmts[c.start..c.idx + 1]
    && c.resume < |x.out| && HaveSlots(x.slots, vs)
    && var s := x.src[c.bb].stmts[c.idx];
       && KindOf(x.layout.blockKinds, c.home) == Some(HomeKind(s, c.resume))
       && StateAfter(x.layout.yieldBlocks, c.home) == k + 1
       && k + 1 < |x.layout.resumeEntries| && x.layout.resumeEntries[k + 1] == c.resume
       && RowOf(x.layout.yieldSaves, c.home) == Entries(x.slots, vs)
       && RowOf(x.layout.resumeLoads, c.resume) == Entries(x.slots, vs)
       && (s.Yield? ==> c.resume == c.tail)
       && (s.Call? ==>
             && KindOf(x.layout.blockKinds, c.resume)
               == Some(CallResume(c.tail, s.receiver, s.args, s.result, s.callee))
             && x.out[c.resume].stmts == [] && RowOf(x.layout.resumeLoads, c.tail) == [])
  }

  lemma CutsSay(x: Lowering, k: nat)
    requires Ready(x) && k < |x.cuts|
    ensures CutSays(x, k)
  {
    hide Ready, KindOf, RowOf, StateAfter, HomeKind, Entries;
    CutStands(x, k);
    StatesSay(x, k);
    RowsAt(x, k);
  }

  lemma CutStands(x: Lowering, k: nat)
    requires Ready(x) && k < |x.cuts|
    ensures var c := x.cuts[k];
            && c.bb < |x.src| && c.start <= c.idx < |x.src[c.bb].stmts| && IsSite(x.src[c.bb].stmts[c.idx])
            && c.home < |x.out| && x.out[c.home].stmts == x.src[c.bb].stmts[c.start..c.idx + 1]
            && c.resume < |x.out|
            && (if x.src[c.bb].stmts[c.idx].Yield? then c.resume == c.tail
                else x.out[c.resume].stmts == [] && forall j :: 0 <= j < |x.cuts| ==> x.cuts[j].resume != c.tail)
  {
    hide CoversLive, SuccessorsInRange, SlotsFrom, Kinds, StatesOf, Lifted, AllSites;
    assert CutOk(x.src, x.out, x.cuts, k);
  }

  lemma StatesSay(x: Lowering, k: nat)
    requires Ready(x) && k < |x.cuts|
    ensures var c := x.cuts[k];
            && c.bb < |x.src| && c.idx < |x.src[c.bb].stmts|
            && var s := x.src[c.bb].stmts[c.idx];
               && KindOf(x.layout.blockKinds, c.home) == Some(HomeKind(s, c.resume))
               && StateAfter(x.layout.yieldBlocks, c.home) == k + 1
               && k + 1 < |x.layout.resumeEntries| && x.layout.resumeEntries[k + 1] == c.resume
               && (s.Call? ==>
                     var kind := Some(CallResume(c.tail, s.receiver, s.args, s.result, s.callee));
                     KindOf(x.layout.blockKinds, c.resume) == kind)
  {
    hide Ready, KindOf, StateAfter, KindRows, Kinds, KeysApart;
    CutStands(x, k);
    SplitOf(x);
    KeysAreApart(x.src, x.out, x.cuts);
    StateFacts(x, k);
    KindOfCut(x.src, x.cuts, k);
  }

  lemma SplitOf(x: Lowering)
    requires Ready(x)
    ensures Split(x.src, x.out, x.cuts)
  {
    hide CoversLive, SuccessorsInRange, SlotsFrom, Lifted, AllSites, Split, StatesOf;
  }

  lemma StateFacts(x: Lowering, k: nat)
    requires Ready(x) && k < |x.cuts|
    ensures StateAfter(x.layout.yieldBlocks, x.cuts[k].home) == k + 1
    ensures k + 1 < |x.layout.resumeEntries| && x.layout.resumeEntries[k + 1] == x.cuts[k].resume
            && x.layout.resumeEntries[0] == 0
    ensures CutsInRange(x.src, x.cuts) && x.layout.blockKinds == Kinds(x.src, x.cuts)
  {
    hide Ready, StatesOf, Kinds, KeysApart, StateAfter;
    SplitOf(x);
    KeysAreApart(x.src, x.out, x.cuts);
    StatesAre(x);
    StateNumber(x.src, x.cuts, States(x.layout.resumeEntries, x.layout.yieldBlocks, x.layout.blockKinds), k);
  }

  lemma StatesAre(x: Lowering)
    requires Ready(x)
    ensures StatesOf(x.src, x.cuts, States(x.layout.resumeEntries, x.layout.yieldBlocks, x.layout.blockKinds))
            && |x.cuts| < U32
  {
    hide CoversLive, SuccessorsInRange, SlotsFrom, Lifted, AllSites, Split, StatesOf;
  }

  lemma StateNumber(src: Blocks, cuts: seq<Cut>, st: States, k: nat)
    requires StatesOf(src, cuts, st) && KeysApart(src, cuts) && k < |cuts| < U32
    ensures CutsInRange(src, cuts)
    ensures StateAfter(st.yieldBlocks, cuts[k].home) == k + 1
    ensures k + 1 < |st.resumeEntries| && st.resumeEntries[k + 1] == cuts[k].resume && st.resumeEntries[0] == 0
    ensures st.blockKinds == Kinds(src, cuts)
  {
    hide Kinds, StateAfter;
    forall j | 0 <= j < k
      ensures st.yieldBlocks[j].0 != st.yieldBlocks[k].0
    {
      assert st.yieldBlocks[j].0 == cuts[j].home;
    }
    StateAfterHome(st.yieldBlocks, k);
  }

  lemma RowsAt(x: Lowering, k: nat)
    requires Ready(x) && k < |x.cuts|
    ensures HaveSlots(x.slots, LiveAt(x, k))
    ensures RowOf(x.layout.yieldSaves, x.cuts[k].home) == Entries(x.slots, LiveAt(x, k))
    ensures RowOf(x.layout.resumeLoads, x.cuts[k].resume) == Entries(x.slots, LiveAt(x, k))
    ensures (forall j :: 0 <= j < |x.cuts| ==> x.cuts[j].resume != x.cuts[k].tail) ==>
              RowOf(x.layout.resumeLoads, x.cuts[k].tail) == []
  {
    hide CoversLive, SuccessorsInRange, AllSites, SlotsFrom, Kinds, OrderIs;
    KeysAreApart(x.src, x.out, x.cuts);
    assert SiteOf(x.cuts[k]) == x.sites[k];
    hide Split;
    var n := |x.sites|;
    RowsSay(x.sites, x.live, x.slots, Homes(x.cuts), n, x.cuts[k].home);
    RowsSay(x.sites, x.live, x.slots, Resumes(x.cuts), n, x.cuts[k].resume);
    RowsSay(x.sites, x.live, x.slots, Resumes(x.cuts), n, x.cuts[k].tail);
  }

  /** Entering a block of the source loads nothing. */
  lemma NoLoads(x: Lowering, b: BlockId)
    requires Ready(x) && b < |x.src|
    ensures RowOf(x.layout.resumeLoads, b) == []
  {
    hide CoversLive, SuccessorsInRange, AllSites, SlotsFrom, Kinds, OrderIs;
    KeysAreApart(x.src, x.out, x.cuts);
    forall k | 0 <= k < |x.cuts|
      ensures x.cuts[k].resume != b
    {
      HomeIs(x.src, x.out, x.cuts, k);
    }
    hide Split;
    RowsSay(x.sites, x.live, x.slots, Resumes(x.cuts), |x.sites|, b);
  }

  /** Between the start of a piece and its site nothing suspends. */
  lemma PlainBefore(x: Lowering, k: nat, i: nat)
    requires Ready(x) && k < |x.cuts| && x.cuts[k].start <= i < x.cuts[k].idx
    ensures x.cuts[k].bb < |x.src| && i < |x.src[x.cuts[k].bb].stmts| && !IsSite(x.src[x.cuts[k].bb].stmts[i])
  {
    hide CoversLive, SuccessorsInRange, SlotsFrom, Kinds, StatesOf, Lifted;
    assert CutOk(x.src, x.out, x.cuts, k);
    var s: Site := (x.cuts[k].bb, i);
    if IsSite(x.src[s.0].stmts[s.1]) {
      assert s in x.sites;
      var j :| 0 <= j < |x.sites| && x.sites[j] == s;
      NotBetween(x, j, k);
    }
  }

  lemma NotBetween(x: Lowering, j: nat, k: nat)
    requires Ready(x) && j < |x.cuts| && k < |x.cuts| && x.cuts[j].bb == x.cuts[k].bb
    ensures !(x.cuts[k].start <= x.cuts[j].idx < x.cuts[k].idx)
  {
    hide CoversLive, SuccessorsInRange, SlotsFrom, Kinds, StatesOf, Lifted, AllSites;
    assert CutOk(x.src, x.out, x.cuts, k);
    if k < j {
      assert Before(SiteOf(x.cuts[k]), SiteOf(x.cuts[j]));
    } else if j < k {
      if FirstInBlock(x.cuts, k) {
        FirstOnlyOnce(x.cuts, j, k);
      } else {
        assert j < k - 1 ==> Before(SiteOf(x.cuts[j]), SiteOf(x.cuts[k - 1]));
      }
    }
  }

  /** Control that reaches a block of the source is at the start of its first piece. */
  lemma Arrive(x: Lowering, b: BlockId)
    requires Ready(x) && b < |x.src|
    ensures Here(x, b, 0, b, 0)
  {
    hide CoversLive, SuccessorsInRange, SlotsFrom, Kinds, StatesOf, Lifted;
    if IsCut(x.cuts, b) {
      var k := FirstCut(x.cuts, b);
      assert CutOk(x.src, x.out, x.cuts, k);
      assert AtCut(x, k, b, 0, b, 0);
    } else {
      forall j | 0 <= j < |x.src[b].stmts|
        ensures !IsSite(x.src[b].stmts[j])
      {
        CutForSite(x, b, j);
      }
      RestHasNoKind(x, b);
      assert x.src[b].stmts[0..] == x.src[b].stmts;
      assert AtRest(x, 0, b, 0, b, 0);
    }
  }

  lemma CutForSite(x: Lowering, b: BlockId, i: nat)
    requires Ready(x) && b < |x.src| && i < |x.src[b].stmts|
    ensures IsSite(x.src[b].stmts[i]) ==> exists k :: 0 <= k < |x.cuts| && SiteOf(x.cuts[k]) == (b, i)
  {
    hide CoversLive, SuccessorsInRange, SlotsFrom, Kinds, StatesOf, Lifted, Split;
    var s: Site := (b, i);
    if IsSite(x.src[b].stmts[i]) {
      assert s in x.sites;
      var k :| 0 <= k < |x.sites| && x.sites[k] == s;
      assert SiteOf(x.cuts[k]) == s;
    }
  }

  lemma FirstCut(cuts: seq<Cut>, b: BlockId) returns (k: nat)
    requires IsCut(cuts, b)
    ensures k < |cuts| && cuts[k].bb == b && FirstInBlock(cuts, k)
  {
    k :| 0 <= k < |cuts| && cuts[k].bb == b;
    while !FirstInBlock(cuts, k)
      invariant k < |cuts| && cuts[k].bb == b
      decreases k
    {
      k := k - 1;
    }
  }

  /** A block that no cut ends in has no kind. */
  lemma RestHasNoKind(x: Lowering, b: BlockId)
    requires Ready(x) && b < |x.src| && !IsCut(x.cuts, b)
    ensures KindOf(x.layout.blockKinds, b) == None
  {
    hide CoversLive, SuccessorsInRange, SlotsFrom, Kinds, Lifted, AllSites;
    forall k | 0 <= k < |x.cuts|
      ensures x.cuts[k].home != b && x.cuts[k].resume != b
    {
      HomeIs(x.src, x.out, x.cuts, k);
      if !FirstInBlock(x.cuts, k) {
        HomeIs(x.src, x.out, x.cuts, k - 1);
      }
    }
    KeysAreApart(x.src, x.out, x.cuts);
    NoKind(x.src, x.cuts, b);
  }

  lemma TailHasNoKind(x: Lowering, k: nat)
    requires Ready(x) && k < |x.cuts| && LastInBlock(x.cuts, k)
    ensures KindOf(x.layout.blockKinds, x.cuts[k].tail) == None
  {
    hide CoversLive, SuccessorsInRange, SlotsFrom, Kinds, Lifted, AllSites;
    KeysAreApart(x.src, x.out, x.cuts);
    var t := x.cuts[k].tail;
    forall j | 0 <= j < |x.cuts|
      ensures x.cuts[j].home != t && (x.cuts[j].resume != t || IsYield(x.src, x.cuts[j]))
    {
      HomeIs(x.src, x.out, x.cuts, k);
      HomeIs(x.src, x.out, x.cuts, j);
      if !FirstInBlock(x.cuts, j) {
        HomeIs(x.src, x.out, x.cuts, j - 1);
      }
    }
    NoKind(x.src, x.cuts, t);
  }

  /** What follows a site starts its tail. */
  lemma AfterCut(x: Lowering, k: nat)
    requires Ready(x) && k < |x.cuts|
    ensures Here(x, x.cuts[k].bb, x.cuts[k].idx + 1, x.cuts[k].tail, 0)
  {
    hide Ready, AtCut, AtRest;
    var c := x.cuts[k];
    if LastInBlock(x.cuts, k) {
      AfterLastCut(x, k);
    } else {
      NextCut(x, k);
    }
  }

  lemma AfterLastCut(x: Lowering, k: nat)
    requires Ready(x) && k < |x.cuts| && LastInBlock(x.cuts, k)
    ensures AtRest(x, x.cuts[k].idx + 1, x.cuts[k].bb, x.cuts[k].idx + 1, x.cuts[k].tail, 0)
  {
    hide CoversLive, SuccessorsInRange, SlotsFrom, Kinds, StatesOf, Lifted;
    var c := x.cuts[k];
    assert CutOk(x.src, x.out, x.cuts, k);
    forall j | c.idx + 1 <= j < |x.src[c.bb].stmts|
      ensures !IsSite(x.src[c.bb].stmts[j])
    {
      CutForSite(x, c.bb, j);
      forall l | 0 <= l < |x.cuts|
        ensures SiteOf(x.cuts[l]) != (c.bb, j)
      {
        NotAfterLast(x.cuts, k, l);
      }
    }
    TailHasNoKind(x, k);
  }

  lemma NextCut(x: Lowering, k: nat)
    requires Ready(x) && k < |x.cuts| && !LastInBlock(x.cuts, k)
    ensures AtCut(x, k + 1, x.cuts[k].bb, x.cuts[k].idx + 1, x.cuts[k].tail, 0)
  {
    hide CoversLive, SuccessorsInRange, SlotsFrom, Kinds, StatesOf, Lifted, AllSites;
    assert CutOk(x.src, x.out, x.cuts, k + 1);
    assert !FirstInBlock(x.cuts, k + 1);
    assert Before(SiteOf(x.cuts[k]), SiteOf(x.cuts[k + 1]));
  }

  lemma LaterIsElsewhere(cuts: seq<Cut>, k: nat, l: nat)
    requires CutsAscend(cuts) && k < l < |cuts| && LastInBlock(cuts, k)
    ensures cuts[l].bb != cuts[k].bb
  {
    assert Before((cuts[k].bb, cuts[k].idx), (cuts[k + 1].bb, cuts[k + 1].idx));
    assert l > k + 1 ==> Before((cuts[k + 1].bb, cuts[k + 1].idx), (cuts[l].bb, cuts[l].idx));
  }

  lemma NotAfterLast(cuts: seq<Cut>, k: nat, l: nat)
    requires CutsAscend(cuts) && k < |cuts| && l < |cuts| && LastInBlock(cuts, k)
    ensures cuts[l].bb == cuts[k].bb ==> cuts[l].idx <= cuts[k].idx
  {
    if l < k {
      assert Before((cuts[l].bb, cuts[l].idx), (cuts[k].bb, cuts[k].idx));
    } else if l > k {
      LaterIsElsewhere(cuts, k, l);
    }
  }

  // ── The simulation relation ──────────────────────────────────────────

  /** Equal on everything a site's continuation reads. */
  ghost predicate SurvivorsAgree(x: Lowering, b: BlockId, i: nat, env: Env, env': Env) {
    InRange(x.src, (b, i)) && forall v: LocalId :: Survives(x.src, x.ret, b, i, v) ==> Get(env, v) == Get(env', v)
  }

  /** The frame holds everything a site's continuation reads. */
  ghost predicate Holds(x: Lowering, b: BlockId, i: nat, env: Env, frame: map<nat, int>) {
    && InRange(x.src, (b, i))
    && forall v: LocalId :: Survives(x.src, x.ret, b, i, v) ==> v in x.slots && Get(frame, x.slots[v]) == Get(env, v)
  }

  ghost predicate InCall<U, C>(x: Lowering, k: nat, b: BlockId, i: nat, env: Env, child: C, c: Conf<U, C>) {
    && k < |x.cuts| && SiteOf(x.cuts[k]) == (b, i) && InRange(x.src, (b, i)) && x.src[b].stmts[i].Call?
    && c.Running? && c.b == x.cuts[k].resume && c.i == 0 && c.frame.state == k + 1 && c.frame.child == Some(child)
    && Holds(x, b, i, env, c.frame.slots) && SurvivorsAgree(x, b, i, env, c.env)
  }

  /** The lowered function stands where the original stands. */
  ghost predicate Sim<U, C>(x: Lowering, r: Run<U, C>, c: Conf<U, C>) {
    match r
    case At(b, i, env, w) => c.Running? && c.w == w && Here(x, b, i, c.b, c.i) && Agree(x.src, x.ret, b, i, env, c.env)
    case Waiting(b, i, env, child, w) => c.w == w && exists k: nat :: InCall(x, k, b, i, env, child, c)
    case Returned(v, w) => c == Over(v, w)
    case Halted(t, w) => c == Stuck(t, w)
  }

  // ── Statements ───────────────────────────────────────────────────────

  /** The output has the source's statement, and a plain one is not the end of a yielding block. */
  lemma StmtHere(x: Lowering, b: BlockId, i: nat, ob: BlockId, oi: nat)
    requires Ready(x) && Here(x, b, i, ob, oi) && b < |x.src| && i < |x.src[b].stmts|
    ensures ob < |x.out| && oi < |x.out[ob].stmts| && x.out[ob].stmts[oi] == x.src[b].stmts[i]
    ensures !IsSite(x.src[b].stmts[i]) ==>
              && Here(x, b, i + 1, ob, oi + 1)
              && var kind := KindOf(x.layout.blockKinds, ob); kind.Some? ==>
                  !kind.value.CallResume? && oi + 1 < |x.out[ob].stmts|
    ensures IsSite(x.src[b].stmts[i]) ==>
              exists k: nat :: AtCut(x, k, b, i, ob, oi) && x.cuts[k].idx == i && oi + 1 == |x.out[ob].stmts|
  {
    hide Ready, AtCut, AtRest;
    if k: nat :| AtCut(x, k, b, i, ob, oi) {
      StmtAtCut(x, k, b, i, ob, oi);
    } else {
      var from: nat :| AtRest(x, from, b, i, ob, oi);
      StmtAtRest(x, from, b, i, ob, oi);
    }
  }

  lemma StmtAtCut(x: Lowering, k: nat, b: BlockId, i: nat, ob: BlockId, oi: nat)
    requires Ready(x) && AtCut(x, k, b, i, ob, oi) && b < |x.src| && i < |x.src[b].stmts|
    ensures ob < |x.out| && oi < |x.out[ob].stmts| && x.out[ob].stmts[oi] == x.src[b].stmts[i]
    ensures if i < x.cuts[k].idx then !IsSite(x.src[b].stmts[i]) && AtCut(x, k, b, i + 1, ob, oi + 1)
            && oi + 1 < |x.out[ob].stmts|
            else IsSite(x.src[b].stmts[i]) && x.cuts[k].idx == i && oi + 1 == |x.out[ob].stmts|
    ensures var kind := KindOf(x.layout.blockKinds, ob); kind.Some? && !kind.value.CallResume?
  {
    hide Ready;
    CutsSay(x, k);
    if i < x.cuts[k].idx {
      PlainBefore(x, k, i);
    }
    hide KindOf, RowOf, StateAfter;
  }

  lemma StmtAtRest(x: Lowering, from: nat, b: BlockId, i: nat, ob: BlockId, oi: nat)
    requires AtRest(x, from, b, i, ob, oi) && i < |x.src[b].stmts|
    ensures ob < |x.out| && oi < |x.out[ob].stmts| && x.out[ob].stmts[oi] == x.src[b].stmts[i]
    ensures !IsSite(x.src[b].stmts[i]) && AtRest(x, from, b, i + 1, ob, oi + 1)
            && KindOf(x.layout.blockKinds, ob) == None
  {
  }

  /** At the end of a block the output has the source's terminator. */
  lemma EndHere(x: Lowering, b: BlockId, ob: BlockId, oi: nat)
    requires Ready(x) && b < |x.src| && Here(x, b, |x.src[b].stmts|, ob, oi)
    ensures ob < |x.out| && oi == |x.out[ob].stmts| && x.out[ob].term == x.src[b].term
            && KindOf(x.layout.blockKinds, ob) == None
  {
    hide Ready;
    if k: nat :| AtCut(x, k, b, |x.src[b].stmts|, ob, oi) {
      CutsSay(x, k);
    }
  }

  lemma InSource(x: Lowering, b: BlockId, i: nat, ob: BlockId, oi: nat)
    requires Ready(x) && Here(x, b, i, ob, oi)
    ensures b < |x.src| && i <= |x.src[b].stmts|
  {
    hide Ready;
    if k: nat :| AtCut(x, k, b, i, ob, oi) {
      CutsSay(x, k);
    }
  }

  lemma SameArgs(env: Env, env': Env, ls: seq<LocalId>)
    requires forall l :: l in ls ==> Get(env, l) == Get(env', l)
    ensures GetAll(env, ls) == GetAll(env', ls)
  {
  }

  /** Reading later from a statement is reading in it, or after it. */
  lemma ReadsHere(blocks: Blocks, ret: LocalId, b: BlockId, i: nat, v: LocalId)
    requires InRange(blocks, (b, i))
    ensures Uses(blocks[b].stmts[i], v) ==> ReadLater(blocks, ret, b, i, v)
    ensures Survives(blocks, ret, b, i, v) ==> ReadLater(blocks, ret, b, i, v)
  {
  }

  lemma UsesAgree(blocks: Blocks, ret: LocalId, b: BlockId, i: nat, env: Env, env': Env)
    requires InRange(blocks, (b, i)) && Agree(blocks, ret, b, i, env, env')
    ensures forall v: LocalId :: Uses(blocks[b].stmts[i], v) ==> Get(env, v) == Get(env', v)
    ensures forall v: LocalId :: Survives(blocks, ret, b, i, v) ==> Get(env, v) == Get(env', v)
  {
    forall v: LocalId
      ensures Uses(blocks[b].stmts[i], v) ==> Get(env, v) == Get(env', v)
      ensures Survives(blocks, ret, b, i, v) ==> Get(env, v) == Get(env', v)
    {
      ReadsHere(blocks, ret, b, i, v);
    }
    hide Survives, Uses, ReadLater;
  }

  lemma PlainAgree<U, C>(sem: Sem<U, C>, blocks: Blocks, ret: LocalId, b: BlockId, i: nat, env: Env, env': Env,
                         w: World<U>)
    requires InRange(blocks, (b, i)) && blocks[b].stmts[i].Plain? && Agree(blocks, ret, b, i, env, env')
    ensures var (e, w1) := RunPlain(sem, blocks[b].stmts[i], env, w);
            var (e', w2) := RunPlain(sem, blocks[b].stmts[i], env', w);
            w1 == w2 && Agree(blocks, ret, b, i + 1, e, e')
  {
    var s := blocks[b].stmts[i];
    UsesAgree(blocks, ret, b, i, env, env');
    SameArgs(env, env', s.uses);
    hide ReadLater;
    var v := sem.exec(s.id, GetAll(env, s.uses), w.u).0;
    forall l: LocalId | ReadLater(blocks, ret, b, i + 1, l)
      ensures Get(Assign(env, s.def, v), l) == Get(Assign(env', s.def, v), l)
    {
      assert !Defines(s, l) ==> Survives(blocks, ret, b, i, l);
    }
  }

  lemma PlainSim<U, C>(sem: Sem<U, C>, x: Lowering, junk: nat -> Env, r: Run<U, C>, c: Conf<U, C>)
    requires Ready(x) && Sim(x, r, c) && r.At? && InRange(x.src, (r.b, r.i)) && x.src[r.b].stmts[r.i].Plain?
    ensures Sim(x, Step(sem, x.src, x.ret, r), LowStep(sem, x.out, x.layout, x.ret, junk, c))
  {
    hide Ready, Here, Agree, RunPlain;
    StmtHere(x, r.b, r.i, c.b, c.i);
    PlainAgree(sem, x.src, x.ret, r.b, r.i, r.env, c.env, r.w);
  }

  // ── Suspensions ──────────────────────────────────────────────────────

  lemma SurvivorIsLive(x: Lowering, k: nat, v: LocalId)
    requires Ready(x) && k < |x.cuts| && InRange(x.src, SiteOf(x.cuts[k]))
             && Survives(x.src, x.ret, x.cuts[k].bb, x.cuts[k].idx, v)
    ensures v in LiveAt(x, k) && v in x.slots && OneToOne(x.slots)
  {
    CutsSay(x, k);
    hide SuccessorsInRange, Kinds, Split, StatesOf, AllSites, ReadLater, Survives;
    SlotsAreApart(x.slots, x.order, x.reserved);
    hide SlotsFrom, Lifted;
    assert SiteOf(x.cuts[k]) == x.sites[k];
  }

  /** What a yielding block saves holds the survivors. */
  lemma SaveHolds(x: Lowering, k: nat, env: Env, env': Env, frame: map<nat, int>)
    requires Ready(x) && k < |x.cuts| && SurvivorsAgree(x, x.cuts[k].bb, x.cuts[k].idx, env, env')
    ensures HaveSlots(x.slots, LiveAt(x, k))
    ensures Holds(x, x.cuts[k].bb, x.cuts[k].idx, env, Save(Entries(x.slots, LiveAt(x, k)), env', frame))
  {
    hide Ready, Survives;
    CutsSay(x, k);
    var b, i := x.cuts[k].bb, x.cuts[k].idx;
    forall v: LocalId | Survives(x.src, x.ret, b, i, v)
      ensures v in x.slots && Get(Save(Entries(x.slots, LiveAt(x, k)), env', frame), x.slots[v]) == Get(env, v)
    {
      SurvivorIsLive(x, k, v);
      SaveKeeps(x.slots, LiveAt(x, k), env', frame, v);
    }
  }

  /** What a resume block loads is what the survivors were, whatever the poll found in its locals. */
  lemma LoadAgrees(x: Lowering, k: nat, env: Env, any: Env, frame: map<nat, int>)
    requires Ready(x) && k < |x.cuts| && Holds(x, x.cuts[k].bb, x.cuts[k].idx, env, frame)
    ensures HaveSlots(x.slots, LiveAt(x, k))
    ensures SurvivorsAgree(x, x.cuts[k].bb, x.cuts[k].idx, env, Load(Entries(x.slots, LiveAt(x, k)), any, frame))
  {
    hide Ready, Survives;
    CutsSay(x, k);
    var b, i := x.cuts[k].bb, x.cuts[k].idx;
    forall v: LocalId | Survives(x.src, x.ret, b, i, v)
      ensures Get(env, v) == Get(Load(Entries(x.slots, LiveAt(x, k)), any, frame), v)
    {
      SurvivorIsLive(x, k, v);
      LoadKeeps(x.slots, LiveAt(x, k), any, frame, v);
    }
  }

  lemma DispatchStep<U, C>(sem: Sem<U, C>, x: Lowering, junk: nat -> Env, k: nat, frame: Frame<C>, polls: nat,
                           w: World<U>)
    requires k < |x.cuts| && CutSays(x, k) && frame.state == k + 1
    ensures LowStep(sem, x.out, x.layout, x.ret, junk, Suspended(frame, polls, w))
         == Running(x.cuts[k].resume, 0, Load(Entries(x.slots, LiveAt(x, k)), junk(polls), frame.slots), frame,
                    polls + 1, w)
  {
    hide KindOf, StateAfter, HomeKind, Save, Load;
  }

  lemma YieldStep<U, C>(sem: Sem<U, C>, x: Lowering, junk: nat -> Env, k: nat, c: Conf<U, C>)
    requires k < |x.cuts| && CutSays(x, k) && c.Running? && c.b == x.cuts[k].home
             && c.i == x.cuts[k].idx - x.cuts[k].start
    requires x.src[x.cuts[k].bb].stmts[x.cuts[k].idx].Yield?
    ensures LowStep(sem, x.out, x.layout, x.ret, junk, c)
         == Suspended(Frame(k + 1, Save(Entries(x.slots, LiveAt(x, k)), c.env, c.frame.slots), c.frame.child), c.polls,
                      Suspend(sem, c.w, GetOpt(c.env, x.src[x.cuts[k].bb].stmts[x.cuts[k].idx].value)))
  {
    hide KindOf, StateAfter, RowOf, Save, Load, Suspend;
    assert x.out[c.b].stmts[c.i] == x.src[x.cuts[k].bb].stmts[x.cuts[k].idx];
  }

  lemma YieldSim<U, C>(sem: Sem<U, C>, x: Lowering, junk: nat -> Env, r: Run<U, C>, c: Conf<U, C>)
    requires Ready(x) && Sim(x, r, c) && r.At? && InRange(x.src, (r.b, r.i)) && x.src[r.b].stmts[r.i].Yield?
    ensures Sim(x, Step(sem, x.src, x.ret, r), LowSteps(sem, x.out, x.layout, x.ret, junk, c, 2))
  {
    hide Ready, Here, LowStep, Suspend, Save, Load, SurvivorsAgree, Holds, Agree, CutSays;
    StmtHere(x, r.b, r.i, c.b, c.i);
    var k: nat :| AtCut(x, k, r.b, r.i, c.b, c.i) && x.cuts[k].idx == r.i;
    CutsSay(x, k);
    YieldAgrees(x, k, r.env, c.env, junk(c.polls), c.frame.slots);
    YieldStep(sem, x, junk, k, c);
    var c1 := LowStep(sem, x.out, x.layout, x.ret, junk, c);
    DispatchStep(sem, x, junk, k, c1.frame, c1.polls, c1.w);
    TwoSteps(sem, x.out, x.layout, x.ret, junk, c);
    AfterCut(x, k);
    TailIsResume(x, k);
    YieldedSame(x, r.b, r.i, r.env, c.env);
  }

  lemma TwoSteps<U, C>(sem: Sem<U, C>, out: Blocks, layout: Layout, ret: LocalId, junk: nat -> Env, c: Conf<U, C>)
    ensures LowSteps(sem, out, layout, ret, junk, c, 1) == LowStep(sem, out, layout, ret, junk, c)
    ensures LowSteps(sem, out, layout, ret, junk, c, 2)
            == LowStep(sem, out, layout, ret, junk, LowStep(sem, out, layout, ret, junk, c))
  {
    hide LowStep;
    var c1 := LowStep(sem, out, layout, ret, junk, c);
    assert LowSteps(sem, out, layout, ret, junk, c, 2) == LowSteps(sem, out, layout, ret, junk, c1, 1);
    assert LowSteps(sem, out, layout, ret, junk, c1, 1)
           == LowSteps(sem, out, layout, ret, junk, LowStep(sem, out, layout, ret, junk, c1), 0);
    assert LowSteps(sem, out, layout, ret, junk, c, 1) == LowSteps(sem, out, layout, ret, junk, c1, 0);
  }

  lemma TailIsResume(x: Lowering, k: nat)
    requires k < |x.cuts| && CutSays(x, k)
    ensures x.src[x.cuts[k].bb].stmts[x.cuts[k].idx].Yield? ==> x.cuts[k].resume == x.cuts[k].tail
  {
    hide KindOf, StateAfter, RowOf;
  }

  lemma YieldedSame(x: Lowering, b: BlockId, i: nat, env: Env, env': Env)
    requires InRange(x.src, (b, i)) && x.src[b].stmts[i].Yield? && Agree(x.src, x.ret, b, i, env, env')
    ensures GetOpt(env, x.src[b].stmts[i].value) == GetOpt(env', x.src[b].stmts[i].value)
  {
    UsesAgree(x.src, x.ret, b, i, env, env');
    hide ReadLater, Survives;
    var value := x.src[b].stmts[i].value;
    if value.Some? {
      assert Uses(x.src[b].stmts[i], value.value);
    }
  }

  /** A yield's save and reload keep what is read later. */
  lemma YieldAgrees(x: Lowering, k: nat, env: Env, env': Env, any: Env, frame: map<nat, int>)
    requires Ready(x) && k < |x.cuts| && CutSays(x, k) && x.src[x.cuts[k].bb].stmts[x.cuts[k].idx].Yield?
    requires Agree(x.src, x.ret, x.cuts[k].bb, x.cuts[k].idx, env, env')
    ensures HaveSlots(x.slots, LiveAt(x, k))
    ensures var es := Entries(x.slots, LiveAt(x, k));
            Agree(x.src, x.ret, x.cuts[k].bb, x.cuts[k].idx + 1, env, Load(es, any, Save(es, env', frame)))
  {
    hide Ready, CutSays, Save, Load;
    var b, i := x.cuts[k].bb, x.cuts[k].idx;
    SiteInRange(x, k);
    UsesAgree(x.src, x.ret, b, i, env, env');
    SaveHolds(x, k, env, env', frame);
    var es := Entries(x.slots, LiveAt(x, k));
    LoadAgrees(x, k, env, any, Save(es, env', frame));
    hide ReadLater, Agree;
    NothingDefined(x, b, i, env, Load(es, any, Save(es, env', frame)));
  }

  lemma SiteInRange(x: Lowering, k: nat)
    requires k < |x.cuts| && CutSays(x, k)
    ensures InRange(x.src, SiteOf(x.cuts[k])) && IsSite(x.src[x.cuts[k].bb].stmts[x.cuts[k].idx])
  {
    hide KindOf, StateAfter, RowOf;
  }

  lemma NothingDefined(x: Lowering, b: BlockId, i: nat, env: Env, env': Env)
    requires SurvivorsAgree(x, b, i, env, env') && x.src[b].stmts[i].Yield?
    ensures Agree(x.src, x.ret, b, i + 1, env, env')
  {
    hide ReadLater;
    forall v: LocalId | ReadLater(x.src, x.ret, b, i + 1, v)
      ensures Get(env, v) == Get(env', v)
    {
      assert Survives(x.src, x.ret, b, i, v);
    }
  }

  // ── Calls ────────────────────────────────────────────────────────────

  lemma CallStep<U, C>(sem: Sem<U, C>, x: Lowering, junk: nat -> Env, k: nat, c: Conf<U, C>)
    requires k < |x.cuts| && CutSays(x, k) && c.Running? && c.b == x.cuts[k].home
             && c.i == x.cuts[k].idx - x.cuts[k].start
    requires x.src[x.cuts[k].bb].stmts[x.cuts[k].idx].Call?
    ensures LowStep(sem, x.out, x.layout, x.ret, junk, c)
         == (var es := Entries(x.slots, LiveAt(x, k));
             var slots := Save(es, c.env, c.frame.slots);
             Running(x.cuts[k].resume, 0, Load(es, c.env, slots),
                     Frame(k + 1, slots, Some(Start(sem, x.src[x.cuts[k].bb].stmts[x.cuts[k].idx], c.env))), c.polls,
                       c.w))
  {
    hide KindOf, StateAfter, RowOf, Save, Load, GetAll, GetOpt;
    assert x.out[c.b].stmts[c.i] == x.src[x.cuts[k].bb].stmts[x.cuts[k].idx];
  }

  lemma CalledSame<U, C>(sem: Sem<U, C>, x: Lowering, b: BlockId, i: nat, env: Env, env': Env)
    requires InRange(x.src, (b, i)) && x.src[b].stmts[i].Call? && Agree(x.src, x.ret, b, i, env, env')
    ensures Start(sem, x.src[b].stmts[i], env) == Start(sem, x.src[b].stmts[i], env')
  {
    UsesAgree(x.src, x.ret, b, i, env, env');
    hide ReadLater, Survives, GetAll;
    var s := x.src[b].stmts[i];
    assert forall l :: l in s.args ==> Uses(s, l);
    SameArgs(env, env', s.args);
    if s.receiver.Some? {
      assert Uses(s, s.receiver.value);
    }
  }

  /** A call's save and reload keep what its continuation reads. */
  lemma CallAgrees(x: Lowering, k: nat, env: Env, env': Env, frame: map<nat, int>)
    requires Ready(x) && k < |x.cuts| && CutSays(x, k) && Agree(x.src, x.ret, x.cuts[k].bb, x.cuts[k].idx, env, env')
    ensures HaveSlots(x.slots, LiveAt(x, k))
    ensures var es := Entries(x.slots, LiveAt(x, k));
            && Holds(x, x.cuts[k].bb, x.cuts[k].idx, env, Save(es, env', frame))
            && SurvivorsAgree(x, x.cuts[k].bb, x.cuts[k].idx, env, Load(es, env', Save(es, env', frame)))
  {
    hide Ready, CutSays, Save, Load;
    var b, i := x.cuts[k].bb, x.cuts[k].idx;
    SiteInRange(x, k);
    UsesAgree(x.src, x.ret, b, i, env, env');
    SaveHolds(x, k, env, env', frame);
    LoadAgrees(x, k, env, env', Save(Entries(x.slots, LiveAt(x, k)), env', frame));
  }

  lemma CallSim<U, C>(sem: Sem<U, C>, x: Lowering, junk: nat -> Env, r: Run<U, C>, c: Conf<U, C>)
    requires Ready(x) && Sim(x, r, c) && r.At? && InRange(x.src, (r.b, r.i)) && x.src[r.b].stmts[r.i].Call?
    ensures Sim(x, Step(sem, x.src, x.ret, r), LowStep(sem, x.out, x.layout, x.ret, junk, c))
  {
    hide Ready, Here, LowStep, Save, Load, SurvivorsAgree, Holds, Agree, CutSays, Start;
    StmtHere(x, r.b, r.i, c.b, c.i);
    var k: nat :| AtCut(x, k, r.b, r.i, c.b, c.i) && x.cuts[k].idx == r.i;
    CutsSay(x, k);
    CallAgrees(x, k, r.env, c.env, c.frame.slots);
    CallStep(sem, x, junk, k, c);
    CalledSame(sem, x, r.b, r.i, r.env, c.env);
    assert InCall(x, k, r.b, r.i, r.env, Start(sem, x.src[r.b].stmts[r.i], r.env),
                  LowStep(sem, x.out, x.layout, x.ret, junk, c));
  }

  lemma PollNow<U, C>(sem: Sem<U, C>, x: Lowering, junk: nat -> Env, k: nat, c: Conf<U, C>)
    requires k < |x.cuts| && CutSays(x, k) && c.Running? && c.b == x.cuts[k].resume && c.i == 0
    requires x.src[x.cuts[k].bb].stmts[x.cuts[k].idx].Call?
    ensures LowStep(sem, x.out, x.layout, x.ret, junk, c)
         == PollStep(sem, x.layout, x.cuts[k].tail, x.src[x.cuts[k].bb].stmts[x.cuts[k].idx].result, c)
    ensures RowOf(x.layout.resumeLoads, x.cuts[k].tail) == []
  {
    hide KindOf, StateAfter, PollStep;
  }

  /** A callee's yield suspends the caller, which finds its way back to the same poll. */
  lemma PendingSim<U, C>(sem: Sem<U, C>, x: Lowering, junk: nat -> Env, k: nat, r: Run<U, C>, c: Conf<U, C>)
    requires Ready(x) && r.Waiting? && c.w == r.w && InCall(x, k, r.b, r.i, r.env, r.child, c)
             && sem.poll(r.child, r.w.u).Pending?
    ensures Sim(x, Step(sem, x.src, x.ret, r), LowSteps(sem, x.out, x.layout, x.ret, junk, c, 2))
  {
    hide Ready, Here, LowStep, Save, Load, SurvivorsAgree, Holds, Agree, CutSays, Suspend;
    CutsSay(x, k);
    PollNow(sem, x, junk, k, c);
    var c1 := LowStep(sem, x.out, x.layout, x.ret, junk, c);
    DispatchStep(sem, x, junk, k, c1.frame, c1.polls, c1.w);
    LoadAgrees(x, k, r.env, junk(c1.polls), c1.frame.slots);
    TwoSteps(sem, x.out, x.layout, x.ret, junk, c);
    var c2 := LowSteps(sem, x.out, x.layout, x.ret, junk, c, 2);
    assert InCall(x, k, r.b, r.i, r.env, sem.poll(r.child, r.w.u).child, c2);
  }

  /** A callee's result goes where the call would have put it. */
  lemma DoneSim<U, C>(sem: Sem<U, C>, x: Lowering, junk: nat -> Env, k: nat, r: Run<U, C>, c: Conf<U, C>)
    requires Ready(x) && r.Waiting? && c.w == r.w && InCall(x, k, r.b, r.i, r.env, r.child, c)
             && sem.poll(r.child, r.w.u).Done?
    ensures Sim(x, Step(sem, x.src, x.ret, r), LowStep(sem, x.out, x.layout, x.ret, junk, c))
  {
    hide Ready, Here, LowStep, Save, Agree, CutSays, Holds, SurvivorsAgree;
    CutsSay(x, k);
    PollNow(sem, x, junk, k, c);
    AfterCut(x, k);
    ResultAgrees(x, r.b, r.i, r.env, c.env, sem.poll(r.child, r.w.u).value);
  }

  lemma ResultAgrees(x: Lowering, b: BlockId, i: nat, env: Env, env': Env, v: int)
    requires SurvivorsAgree(x, b, i, env, env') && x.src[b].stmts[i].Call?
    ensures var result := x.src[b].stmts[i].result; Agree(x.src, x.ret, b, i + 1, env[result := v], env'[result := v])
  {
    hide ReadLater;
    var result, next := x.src[b].stmts[i].result, i + 1;
    forall l: LocalId | ReadLater(x.src, x.ret, b, next, l)
      ensures Get(env[result := v], l) == Get(env'[result := v], l)
    {
      assert l != result ==> Survives(x.src, x.ret, b, i, l);
    }
  }

  // ── Terminators ──────────────────────────────────────────────────────

  lemma TermReads(blocks: Blocks, ret: LocalId, b: BlockId, v: LocalId, next: BlockId)
    requires b < |blocks|
    ensures TermUses(blocks[b].term, ret, v) ==> ReadLater(blocks, ret, b, |blocks[b].stmts|, v)
    ensures next in Successors(blocks[b].term) && ReadLater(blocks, ret, next, 0, v) ==>
              ReadLater(blocks, ret, b, |blocks[b].stmts|, v)
  {
  }

  lemma TermAgrees(blocks: Blocks, ret: LocalId, b: BlockId, env: Env, env': Env, next: BlockId)
    requires b < |blocks| && Agree(blocks, ret, b, |blocks[b].stmts|, env, env')
    ensures Look(blocks[b].term, env) == Look(blocks[b].term, env')
    ensures blocks[b].term.Return? ==> Get(env, ret) == Get(env', ret)
    ensures next in Successors(blocks[b].term) ==> Agree(blocks, ret, next, 0, env, env')
  {
    forall v: LocalId
      ensures TermUses(blocks[b].term, ret, v) ==> Get(env, v) == Get(env', v)
      ensures next in Successors(blocks[b].term) && ReadLater(blocks, ret, next, 0, v) ==> Get(env, v) == Get(env', v)
    {
      TermReads(blocks, ret, b, v, next);
    }
    hide ReadLater;
    var l := Coroutines.Scrutinee(blocks[b].term);
    assert l.Some? ==> TermUses(blocks[b].term, ret, l.value);
    assert blocks[b].term.Return? ==> TermUses(blocks[b].term, ret, ret);
  }

  lemma {:induction false} ChosenIsTarget(targets: seq<(int, BlockId)>, v: int, otherwise: BlockId)
    ensures var b := Coroutines.Choose(targets, v, otherwise);
            b == otherwise || exists i :: 0 <= i < |targets| && targets[i].1 == b
  {
    if |targets| > 0 && targets[0].0 != v {
      ChosenIsTarget(targets[1..], v, otherwise);
      var b := Coroutines.Choose(targets[1..], v, otherwise);
      if i :| 0 <= i < |targets[1..]| && targets[1..][i].1 == b {
        assert targets[i + 1].1 == b;
      }
    }
  }

  lemma FollowedIsSuccessor(t: Term, v: int)
    ensures var next := Coroutines.Follow(t, v); next.Some? ==> next.value in Successors(t)
  {
    if t.Switch? {
      ChosenIsTarget(t.targets, v, t.otherwise);
      var b := Coroutines.Choose(t.targets, v, t.otherwise);
      var all := Successors(t);
      assert all[|t.targets|] == t.otherwise;
      assert forall i :: 0 <= i < |t.targets| ==> all[i] == t.targets[i].1;
    }
  }

  lemma NextInRange(x: Lowering, b: BlockId, next: BlockId)
    requires Ready(x) && b < |x.src| && next in Successors(x.src[b].term)
    ensures next < |x.src|
  {
    hide IsLowered, CoversLive;
  }

  lemma TermSim<U, C>(sem: Sem<U, C>, x: Lowering, junk: nat -> Env, r: Run<U, C>, c: Conf<U, C>)
    requires Ready(x) && Sim(x, r, c) && r.At? && r.b < |x.src| && r.i == |x.src[r.b].stmts|
    ensures Sim(x, Step(sem, x.src, x.ret, r), LowStep(sem, x.out, x.layout, x.ret, junk, c))
  {
    hide Ready, Here, Agree;
    EndHere(x, r.b, c.b, c.i);
    var t := x.src[r.b].term;
    var next := Coroutines.Follow(t, Look(t, r.env));
    var to := if next.Some? then next.value else 0;
    TermAgrees(x.src, x.ret, r.b, r.env, c.env, to);
    FollowedIsSuccessor(t, Look(t, r.env));
    if next.Some? {
      NextInRange(x, r.b, to);
      Arrive(x, to);
      NoLoads(x, to);
    }
  }

  // ── Whole runs ───────────────────────────────────────────────────────

  /** One step of the original is one or two of the lowered function. */
  lemma StepSim<U, C>(sem: Sem<U, C>, x: Lowering, junk: nat -> Env, r: Run<U, C>, c: Conf<U, C>) returns (n: nat)
    requires Ready(x) && Sim(x, r, c)
    ensures n >= 1 && Sim(x, Step(sem, x.src, x.ret, r), LowSteps(sem, x.out, x.layout, x.ret, junk, c, n))
  {
    hide Ready, Here, Agree, LowStep, LowSteps, InCall, Step;
    TwoSteps(sem, x.out, x.layout, x.ret, junk, c);
    n := 1;
    match r
    case At(b, i, env, w) =>
      InSource(x, b, i, c.b, c.i);
      if i == |x.src[b].stmts| {
        TermSim(sem, x, junk, r, c);
      } else if x.src[b].stmts[i].Plain? {
        PlainSim(sem, x, junk, r, c);
      } else if x.src[b].stmts[i].Call? {
        CallSim(sem, x, junk, r, c);
      } else {
        n := 2;
        YieldSim(sem, x, junk, r, c);
      }
    case Waiting(b, i, env, child, w) =>
      var k: nat :| InCall(x, k, b, i, env, child, c);
      if sem.poll(child, w.u).Pending? {
        n := 2;
        PendingSim(sem, x, junk, k, r, c);
      } else {
        DoneSim(sem, x, junk, k, r, c);
      }
    case _ => OverStays(sem, x, junk, r, c);
  }

  lemma OverStays<U, C>(sem: Sem<U, C>, x: Lowering, junk: nat -> Env, r: Run<U, C>, c: Conf<U, C>)
    requires Sim(x, r, c) && (r.Returned? || r.Halted?)
    ensures Step(sem, x.src, x.ret, r) == r && LowStep(sem, x.out, x.layout, x.ret, junk, c) == c
  {
  }

  lemma {:induction false} LowAdds<U, C>(sem: Sem<U, C>, out: Blocks, layout: Layout, ret: LocalId, junk: nat -> Env,
                                         c: Conf<U, C>, m: nat, n: nat)
    ensures LowSteps(sem, out, layout, ret, junk, c, m + n)
         == LowSteps(sem, out, layout, ret, junk, LowSteps(sem, out, layout, ret, junk, c, m), n)
    decreases m
  {
    hide LowStep;
    if m > 0 {
      LowAdds(sem, out, layout, ret, junk, LowStep(sem, out, layout, ret, junk, c), m - 1, n);
    }
  }

  lemma {:induction false} RunSim<U, C>(sem: Sem<U, C>, x: Lowering, junk: nat -> Env, r: Run<U, C>, c: Conf<U, C>,
                                        n: nat) returns (m: nat)
    requires Ready(x) && Sim(x, r, c)
    ensures m >= n && Sim(x, Steps(sem, x.src, x.ret, r, n), LowSteps(sem, x.out, x.layout, x.ret, junk, c, m))
    decreases n
  {
    hide Ready, Sim, Step, LowStep;
    if n == 0 {
      m := 0;
    } else {
      var k := StepSim(sem, x, junk, r, c);
      var rest :=
        RunSim(sem, x, junk, Step(sem, x.src, x.ret, r), LowSteps(sem, x.out, x.layout, x.ret, junk, c, k), n - 1);
      LowAdds(sem, x.out, x.layout, x.ret, junk, c, k, rest);
      m := k + rest;
    }
  }

  /** The first poll of a lowered function, its arguments in `env`. */
  function LowStart<U, C>(layout: Layout, env: Env, slots: map<nat, int>, w: World<U>): Conf<U, C>
    requires |layout.resumeEntries| > 0
  {
    Enter(layout, layout.resumeEntries[0], env, Frame(0, slots, None), 1, w)
  }

  /** The same trace and world, and the same end with the same result. */
  ghost predicate SameOutcome<U, C>(r: Run<U, C>, c: Conf<U, C>) {
    && c.w == r.w
    && (r.Returned? ==> c == Over(r.value, r.w)) && (r.Halted? ==> c == Stuck(r.term, r.w))
    && (c.Over? ==> r == Returned(c.value, c.w)) && (c.Stuck? ==> r == Halted(c.term, c.w))
  }

  lemma StartSim<U, C>(x: Lowering, env: Env, slots: map<nat, int>, w: World<U>)
    requires Ready(x)
    ensures |x.layout.resumeEntries| > 0
    ensures Sim<U, C>(x, At(0, 0, env, w), LowStart(x.layout, env, slots, w))
  {
    FirstEntry(x);
    hide IsLowered, CoversLive;
    Arrive(x, 0);
    NoLoads(x, 0);
  }

  lemma FirstEntry(x: Lowering)
    requires Ready(x)
    ensures |x.layout.resumeEntries| > 0 && x.layout.resumeEntries[0] == 0
  {
    hide CoversLive, SuccessorsInRange, SlotsFrom, Lifted, AllSites, Split, Kinds;
  }

  lemma SimIsSame<U, C>(x: Lowering, r: Run<U, C>, c: Conf<U, C>)
    requires Sim(x, r, c)
    ensures SameOutcome(r, c)
  {
    hide Here, Agree, Holds, SurvivorsAgree;
  }

  /** Lowering preserves meaning: however its polls find their locals, the lowered function
      passes through every state of the function run straight through. */
  lemma EveryStepIsMatched<U, C>(sem: Sem<U, C>, x: Lowering, junk: nat -> Env, env: Env, slots: map<nat, int>,
                                 w: World<U>, n: nat)
    requires Ready(x)
    ensures |x.layout.resumeEntries| > 0
    ensures exists m :: m >= n && SameOutcome(Steps(sem, x.src, x.ret, At(0, 0, env, w), n),
                                              LowSteps(sem, x.out, x.layout, x.ret, junk,
                                                       LowStart(x.layout, env, slots, w), m))
  {
    hide Ready, LowSteps, Steps, LowStart, Sim;
    StartSim<U, C>(x, env, slots, w);
    var r0: Run<U, C>, c0: Conf<U, C> := At(0, 0, env, w), LowStart(x.layout, env, slots, w);
    var m := RunSim(sem, x, junk, r0, c0, n);
    SimIsSame(x, Steps(sem, x.src, x.ret, r0, n), LowSteps(sem, x.out, x.layout, x.ret, junk, c0, m));
  }

  lemma TraceGrows<U, C>(sem: Sem<U, C>, out: Blocks, layout: Layout, ret: LocalId, junk: nat -> Env, c: Conf<U, C>)
    ensures c.w.trace <= LowStep(sem, out, layout, ret, junk, c).w.trace
    ensures c.Over? || c.Stuck? ==> LowStep(sem, out, layout, ret, junk, c) == c
  {
  }

  lemma {:induction false} TraceKeepsGrowing<U, C>(sem: Sem<U, C>, out: Blocks, layout: Layout, ret: LocalId,
                                                   junk: nat -> Env, c: Conf<U, C>, n: nat)
    ensures c.w.trace <= LowSteps(sem, out, layout, ret, junk, c, n).w.trace
    ensures c.Over? || c.Stuck? ==> LowSteps(sem, out, layout, ret, junk, c, n) == c
    decreases n
  {
    if n > 0 {
      TraceGrows(sem, out, layout, ret, junk, c);
      hide LowStep;
      TraceKeepsGrowing(sem, out, layout, ret, junk, LowStep(sem, out, layout, ret, junk, c), n - 1);
    }
  }

  /** And it does nothing else. */
  lemma NothingElseHappens<U, C>(sem: Sem<U, C>, x: Lowering, junk: nat -> Env, env: Env, slots: map<nat, int>,
                                 w: World<U>, m: nat)
    requires Ready(x)
    ensures |x.layout.resumeEntries| > 0
    ensures exists n ::
              var r := Steps(sem, x.src, x.ret, At(0, 0, env, w), n);
              var c := LowSteps(sem, x.out, x.layout, x.ret, junk, LowStart(x.layout, env, slots, w), m);
              c.w.trace <= r.w.trace && (c.Over? || c.Stuck? ==> SameOutcome(r, c))
  {
    hide Ready, LowSteps, Steps, LowStart;
    EveryStepIsMatched(sem, x, junk, env, slots, w, m);
    var c0: Conf<U, C> := LowStart(x.layout, env, slots, w);
    var m' :| m' >= m
      && SameOutcome(Steps(sem, x.src, x.ret, At(0, 0, env, w), m),
                     LowSteps(sem, x.out, x.layout, x.ret, junk, c0, m'));
    LowAdds(sem, x.out, x.layout, x.ret, junk, c0, m, m' - m);
    TraceKeepsGrowing(sem, x.out, x.layout, x.ret, junk, LowSteps(sem, x.out, x.layout, x.ret, junk, c0, m), m' - m);
  }
}
