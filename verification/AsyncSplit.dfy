/** Cutting a function at its suspension sites, and numbering the states.

Sites are cut in order; a cut opens a block that later sites of the same block are found in.
*/
module AsyncSplit {
  import opened Options
  import opened Cfg
  import opened AsyncIr

  const BARE: Block<Stmt> := Block([], Unreachable)

  /** States and slots are 32 bits wide. */
  const U32: nat := 0x1_0000_0000

  /** What kind of suspension a block is. */
  datatype Kind =
    | DirectYield
    | CallInit(resumeCheck: BlockId, receiver: Option<LocalId>, args: seq<LocalId>, result: LocalId, callee: nat)
    | CallResume(doneBlock: BlockId, receiver: Option<LocalId>, args: seq<LocalId>, result: LocalId, callee: nat)

  /** A site, where its piece of the block starts, and the blocks that hold the piece, what
      comes after it, and the entry of its state. */
  datatype Cut = Cut(bb: BlockId, idx: nat, start: nat, home: BlockId, tail: BlockId, resume: BlockId)

  predicate FirstInBlock(cuts: seq<Cut>, k: nat)
    requires k < |cuts|
  {
    k == 0 || cuts[k - 1].bb != cuts[k].bb
  }

  predicate LastInBlock(cuts: seq<Cut>, k: nat)
    requires k < |cuts|
  {
    k + 1 == |cuts| || cuts[k + 1].bb != cuts[k].bb
  }

  /** The piece that ends at a site, and what follows it. */
  ghost predicate CutOk(src: Blocks, out: Blocks, cuts: seq<Cut>, k: nat)
    requires k < |cuts|
  {
    var c := cuts[k];
    && c.bb < |src| && c.start <= c.idx < |src[c.bb].stmts| && IsSite(src[c.bb].stmts[c.idx])
    && (if FirstInBlock(cuts, k) then c.home == c.bb && c.start == 0
        else c.home == cuts[k - 1].tail && c.start == cuts[k - 1].idx + 1)
    && c.home < |out| && out[c.home] == Block(src[c.bb].stmts[c.start..c.idx + 1], Unreachable)
    && |src| <= c.tail < |out| && |src| <= c.resume < |out|
    && (if src[c.bb].stmts[c.idx].Yield? then c.resume == c.tail else c.resume != c.tail && out[c.resume] == BARE)
    && (LastInBlock(cuts, k) ==> out[c.tail] == Block(src[c.bb].stmts[c.idx + 1..], src[c.bb].term))
  }

  ghost predicate CutsAscend(cuts: seq<Cut>) {
    forall j, k :: 0 <= j < k < |cuts| ==>
      && Before((cuts[j].bb, cuts[j].idx), (cuts[k].bb, cuts[k].idx))
      && cuts[j].tail < cuts[k].tail && cuts[j].tail < cuts[k].resume
      && cuts[j].resume < cuts[k].tail && cuts[j].resume < cuts[k].resume
  }

  predicate IsCut(cuts: seq<Cut>, b: BlockId) {
    exists k :: 0 <= k < |cuts| && cuts[k].bb == b
  }

  /** `out` is `src` cut at every site of `cuts`. */
  ghost predicate Split(src: Blocks, out: Blocks, cuts: seq<Cut>) {
    && |src| <= |out| && CutsAscend(cuts)
    && (forall k :: 0 <= k < |cuts| ==> CutOk(src, out, cuts, k))
    && (forall b :: 0 <= b < |src| && !IsCut(cuts, b) ==> out[b] == src[b])
  }

  // ── One more cut ─────────────────────────────────────────────────────

  predicate SameBlock(cuts: seq<Cut>, bb: BlockId) {
    |cuts| > 0 && cuts[|cuts| - 1].bb == bb
  }

  /** The block that holds a site once the earlier ones have been cut, and where it starts. */
  function HomeOf(cuts: seq<Cut>, bb: BlockId): BlockId {
    if SameBlock(cuts, bb) then cuts[|cuts| - 1].tail else bb
  }

  function StartIn(cuts: seq<Cut>, bb: BlockId): nat {
    if SameBlock(cuts, bb) then cuts[|cuts| - 1].idx + 1 else 0
  }

  ghost predicate NextSite(src: Blocks, cuts: seq<Cut>, s: Site) {
    && InRange(src, s) && IsSite(src[s.0].stmts[s.1])
    && forall k :: 0 <= k < |cuts| ==> Before((cuts[k].bb, cuts[k].idx), s)
  }

  lemma RestOfBlock(src: Blocks, out: Blocks, cuts: seq<Cut>, s: Site)
    requires Split(src, out, cuts) && NextSite(src, cuts, s)
    ensures var home, start := HomeOf(cuts, s.0), StartIn(cuts, s.0);
            && home < |out| && start <= s.1 && out[home] == Block(src[s.0].stmts[start..], src[s.0].term)
  {
    var n := |cuts|;
    if SameBlock(cuts, s.0) {
      assert CutOk(src, out, cuts, n - 1);
      assert Before((cuts[n - 1].bb, cuts[n - 1].idx), s);
    } else {
      NotYetCut(src, cuts, s);
    }
  }

  lemma NotYetCut(src: Blocks, cuts: seq<Cut>, s: Site)
    requires CutsAscend(cuts) && NextSite(src, cuts, s) && !SameBlock(cuts, s.0)
    ensures !IsCut(cuts, s.0)
  {
    forall k | 0 <= k < |cuts|
      ensures cuts[k].bb != s.0
    {
      var n := |cuts| - 1;
      assert Before((cuts[n].bb, cuts[n].idx), s);
      assert k < n ==> Before((cuts[k].bb, cuts[k].idx), (cuts[n].bb, cuts[n].idx));
    }
  }

  function CutAfter(src: Blocks, n: nat, cuts: seq<Cut>, s: Site): Cut
    requires InRange(src, s)
  {
    Cut(s.0, s.1, StartIn(cuts, s.0), HomeOf(cuts, s.0), n, if src[s.0].stmts[s.1].Yield? then n else n + 1)
  }

  function CutBlocks(src: Blocks, out: Blocks, cuts: seq<Cut>, s: Site): Blocks
    requires InRange(src, s) && HomeOf(cuts, s.0) < |out| && StartIn(cuts, s.0) <= s.1
  {
    var start := StartIn(cuts, s.0);
    out[HomeOf(cuts, s.0) := Block(src[s.0].stmts[start..s.1 + 1], Unreachable)]
      + [Block(src[s.0].stmts[s.1 + 1..], src[s.0].term)]
      + if src[s.0].stmts[s.1].Yield? then [] else [BARE]
  }

  lemma OneMoreCut(src: Blocks, out: Blocks, cuts: seq<Cut>, s: Site)
    requires Split(src, out, cuts) && NextSite(src, cuts, s)
    ensures HomeOf(cuts, s.0) < |out| && StartIn(cuts, s.0) <= s.1
    ensures Split(src, CutBlocks(src, out, cuts, s), cuts + [CutAfter(src, |out|, cuts, s)])
  {
    hide CutOk, CutsAscend, CutBlocks, IsSite;
    RestOfBlock(src, out, cuts, s);
    var c, out', n := CutAfter(src, |out|, cuts, s), CutBlocks(src, out, cuts, s), |cuts|;
    var cuts' := cuts + [c];
    CutBlocksAt(src, out, cuts, s);
    forall k | 0 <= k < n
      ensures CutOk(src, out', cuts', k)
      ensures cuts[k].tail < |out| && cuts[k].resume < |out|
    {
      OldCut(src, out, out', cuts, s, k);
    }
    NewCut(src, out, out', cuts, s);
    CutsStillAscend(src, |out|, cuts, s);
    forall b | 0 <= b < |src| && !IsCut(cuts', b)
      ensures out'[b] == src[b]
    {
      NotCutBefore(cuts, c, b);
      HomeIsSource(src, out, cuts, s, b);
    }
  }

  lemma NotCutBefore(cuts: seq<Cut>, c: Cut, b: BlockId)
    requires !IsCut(cuts + [c], b)
    ensures !IsCut(cuts, b) && b != c.bb
  {
    assert (cuts + [c])[|cuts|].bb != b;
    forall k | 0 <= k < |cuts|
      ensures cuts[k].bb != b
    {
      assert (cuts + [c])[k].bb != b;
    }
  }

  lemma CutsStillAscend(src: Blocks, n: nat, cuts: seq<Cut>, s: Site)
    requires CutsAscend(cuts) && NextSite(src, cuts, s) && forall k :: 0 <= k < |cuts| ==>
               cuts[k].tail < n && cuts[k].resume < n
    ensures CutsAscend(cuts + [CutAfter(src, n, cuts, s)])
  {
  }

  lemma CutBlocksAt(src: Blocks, out: Blocks, cuts: seq<Cut>, s: Site)
    requires InRange(src, s) && HomeOf(cuts, s.0) < |out| && StartIn(cuts, s.0) <= s.1
    ensures var out', home, n := CutBlocks(src, out, cuts, s), HomeOf(cuts, s.0), |out|;
            && n < |out'| && (forall b :: 0 <= b < n && b != home ==> out'[b] == out[b])
            && out'[home] == Block(src[s.0].stmts[StartIn(cuts, s.0)..s.1 + 1], Unreachable)
            && out'[n] == Block(src[s.0].stmts[s.1 + 1..], src[s.0].term)
            && (src[s.0].stmts[s.1].Yield? || (n + 1 < |out'| && out'[n + 1] == BARE))
  {
  }

  lemma OldCut(src: Blocks, out: Blocks, out': Blocks, cuts: seq<Cut>, s: Site, k: nat)
    requires Split(src, out, cuts) && NextSite(src, cuts, s) && k < |cuts| && |out| <= |out'|
    requires forall b :: 0 <= b < |out| && b != HomeOf(cuts, s.0) ==> out'[b] == out[b]
    ensures CutOk(src, out', cuts + [CutAfter(src, |out|, cuts, s)], k)
    ensures cuts[k].tail < |out| && cuts[k].resume < |out|
  {
    var cuts' := cuts + [CutAfter(src, |out|, cuts, s)];
    assert CutOk(src, out, cuts, k);
    HomeIsNew(src, out, cuts, s, k);
    assert cuts'[k] == cuts[k] && (k > 0 ==> cuts'[k - 1] == cuts[k - 1]);
    assert k + 1 < |cuts| ==> cuts'[k + 1] == cuts[k + 1];
  }

  lemma NewCut(src: Blocks, out: Blocks, out': Blocks, cuts: seq<Cut>, s: Site)
    requires Split(src, out, cuts) && NextSite(src, cuts, s)
    requires HomeOf(cuts, s.0) < |out| && StartIn(cuts, s.0) <= s.1 && out' == CutBlocks(src, out, cuts, s)
    ensures CutOk(src, out', cuts + [CutAfter(src, |out|, cuts, s)], |cuts|)
  {
    var n := |cuts|;
    var cuts' := cuts + [CutAfter(src, |out|, cuts, s)];
    CutBlocksAt(src, out, cuts, s);
    assert n > 0 ==> cuts'[n - 1] == cuts[n - 1];
    hide CutBlocks;
  }

  lemma HomeIsSource(src: Blocks, out: Blocks, cuts: seq<Cut>, s: Site, b: BlockId)
    requires Split(src, out, cuts) && b < |src| && b != s.0 && NextSite(src, cuts, s)
    ensures b != HomeOf(cuts, s.0)
  {
    assert SameBlock(cuts, s.0) ==> CutOk(src, out, cuts, |cuts| - 1);
  }

  /** The new site's block is no earlier piece, and a tail only if it is the last one. */
  lemma HomeIsNew(src: Blocks, out: Blocks, cuts: seq<Cut>, s: Site, k: nat)
    requires Split(src, out, cuts) && NextSite(src, cuts, s) && k < |cuts|
    ensures InRange(src, (cuts[k].bb, cuts[k].idx))
    ensures var home := HomeOf(cuts, s.0);
            && cuts[k].home != home && (home == cuts[k].resume ==> src[cuts[k].bb].stmts[cuts[k].idx].Yield?)
            && (home == cuts[k].tail ==> k == |cuts| - 1 && cuts[k].bb == s.0)
  {
    var n := |cuts| - 1;
    assert CutOk(src, out, cuts, k) && CutOk(src, out, cuts, n);
    assert k > 0 ==> CutOk(src, out, cuts, k - 1);
    if !SameBlock(cuts, s.0) {
      NotYetCut(src, cuts, s);
    }
  }

  // ── The layout's states ──────────────────────────────────────────────

  function KindRows(s: Stmt, home: BlockId, tail: BlockId, resume: BlockId): seq<(BlockId, Kind)> {
    match s
    case Call(callee, receiver, args, result) =>
      [(home, CallInit(resume, receiver, args, result, callee)),
       (resume, CallResume(tail, receiver, args, result, callee))]
    case _ => [(home, DirectYield)]
  }

  function RowsOf(src: Blocks, c: Cut): seq<(BlockId, Kind)>
    requires c.bb < |src| && c.idx < |src[c.bb].stmts|
  {
    KindRows(src[c.bb].stmts[c.idx], c.home, c.tail, c.resume)
  }

  ghost predicate CutsInRange(src: Blocks, cuts: seq<Cut>) {
    forall k :: 0 <= k < |cuts| ==> cuts[k].bb < |src| && cuts[k].idx < |src[cuts[k].bb].stmts|
  }

  ghost function Kinds(src: Blocks, cuts: seq<Cut>): seq<(BlockId, Kind)>
    requires CutsInRange(src, cuts)
  {
    if |cuts| == 0 then [] else Kinds(src, cuts[..|cuts| - 1]) + RowsOf(src, cuts[|cuts| - 1])
  }

  /** Where the rows of site `k` begin: a yield has one, a call two. */
  ghost function RowOfSite(src: Blocks, cuts: seq<Cut>, k: nat): nat
    requires CutsInRange(src, cuts) && k <= |cuts|
  {
    if k == 0 then 0
    else RowOfSite(src, cuts, k - 1) + if src[cuts[k - 1].bb].stmts[cuts[k - 1].idx].Call? then 2 else 1
  }

  /** The rows from `at` on are those of the cut `c`: one for a yield, and two for a call, with the
      call's own receiver, arguments, result and callee. */
  ghost predicate TellsAt(src: Blocks, c: Cut, kinds: seq<(BlockId, Kind)>, at: nat) {
    && c.bb < |src| && c.idx < |src[c.bb].stmts|
    && match src[c.bb].stmts[c.idx]
       case Call(callee, receiver, args, result) =>
         && at + 1 < |kinds|
         && kinds[at] == (c.home, CallInit(c.resume, receiver, args, result, callee))
         && kinds[at + 1] == (c.resume, CallResume(c.tail, receiver, args, result, callee))
       case _ => at < |kinds| && kinds[at] == (c.home, DirectYield)
  }

  /** Every site has its rows; they are in site order, and there are no others. */
  ghost predicate KindsTell(src: Blocks, cuts: seq<Cut>, kinds: seq<(BlockId, Kind)>) {
    && CutsInRange(src, cuts) && |kinds| == RowOfSite(src, cuts, |cuts|)
    && forall k :: 0 <= k < |cuts| ==> TellsAt(src, cuts[k], kinds, RowOfSite(src, cuts, k))
  }

  lemma {:induction false} SameRows(src: Blocks, cuts: seq<Cut>, n: nat, k: nat)
    requires CutsInRange(src, cuts) && k <= n <= |cuts|
    ensures RowOfSite(src, cuts[..n], k) == RowOfSite(src, cuts, k)
  {
    if k > 0 {
      SameRows(src, cuts, n, k - 1);
    }
  }

  lemma TellsMore(src: Blocks, c: Cut, kinds: seq<(BlockId, Kind)>, at: nat, more: seq<(BlockId, Kind)>)
    requires TellsAt(src, c, kinds, at)
    ensures TellsAt(src, c, kinds + more, at)
  {
  }

  lemma TellsNew(src: Blocks, c: Cut, kinds: seq<(BlockId, Kind)>)
    requires c.bb < |src| && c.idx < |src[c.bb].stmts|
    ensures TellsAt(src, c, kinds + RowsOf(src, c), |kinds|)
    ensures |RowsOf(src, c)| == if src[c.bb].stmts[c.idx].Call? then 2 else 1
  {
  }

  lemma NextRow(src: Blocks, cuts: seq<Cut>, k: nat)
    requires CutsInRange(src, cuts) && k < |cuts|
    ensures RowOfSite(src, cuts, k + 1) == RowOfSite(src, cuts, k) + |RowsOf(src, cuts[k])|
  {
  }

  lemma OneMoreTold(src: Blocks, cuts: seq<Cut>, n: nat, kinds: seq<(BlockId, Kind)>)
    requires |cuts| == n + 1 && CutsInRange(src, cuts) && KindsTell(src, cuts[..n], kinds)
    ensures KindsTell(src, cuts, kinds + RowsOf(src, cuts[n]))
  {
    hide TellsAt, KindRows, RowOfSite;
    SameRows(src, cuts, n, n);
    NextRow(src, cuts, n);
    forall k | 0 <= k < n
      ensures TellsAt(src, cuts[k], kinds + RowsOf(src, cuts[n]), RowOfSite(src, cuts, k))
    {
      SameRows(src, cuts, n, k);
      assert cuts[..n][k] == cuts[k];
      TellsMore(src, cuts[k], kinds, RowOfSite(src, cuts, k), RowsOf(src, cuts[n]));
    }
    TellsNew(src, cuts[n], kinds);
  }

  lemma {:induction false} KindsAreTold(src: Blocks, cuts: seq<Cut>)
    requires CutsInRange(src, cuts)
    ensures KindsTell(src, cuts, Kinds(src, cuts))
  {
    if |cuts| > 0 {
      var n := |cuts| - 1;
      KindsAreTold(src, cuts[..n]);
      hide KindsTell;
      OneMoreTold(src, cuts, n, Kinds(src, cuts[..n]));
    }
  }

  /** What the loop over the sites records. */
  datatype States = States(resumeEntries: seq<BlockId>, yieldBlocks: seq<(BlockId, nat)>,
                           blockKinds: seq<(BlockId, Kind)>)

  ghost predicate StatesOf(src: Blocks, cuts: seq<Cut>, st: States) {
    && CutsInRange(src, cuts)
    && |st.resumeEntries| == |cuts| + 1 && st.resumeEntries[0] == 0
    && |st.yieldBlocks| == |cuts| && st.blockKinds == Kinds(src, cuts)
    && (forall k :: 0 <= k < |cuts| ==>
          st.resumeEntries[k + 1] == cuts[k].resume && st.yieldBlocks[k] == (cuts[k].home, (k + 1) % U32))
  }

  /** The cuts are the first sites, one each and in order. */
  ghost predicate CutsAre(cuts: seq<Cut>, sites: seq<Site>) {
    |cuts| <= |sites| && forall k :: 0 <= k < |cuts| ==> (cuts[k].bb, cuts[k].idx) == sites[k]
  }

  lemma NextState(src: Blocks, cuts: seq<Cut>, st: States, c: Cut)
    requires StatesOf(src, cuts, st) && c.bb < |src| && c.idx < |src[c.bb].stmts|
    ensures StatesOf(src, cuts + [c],
                     States(st.resumeEntries + [c.resume], st.yieldBlocks + [(c.home, (|cuts| + 1) % U32)],
                                             st.blockKinds + RowsOf(src, c)))
  {
    assert (cuts + [c])[..|cuts|] == cuts;
  }

  /** Cuts one block after its statement `i`, the site `s`. */
  method SplitSite(body: Body<Stmt>, s: Stmt, at: BlockId, i: nat)
    returns (tail: BlockId, resume: BlockId, rows: seq<(BlockId, Kind)>)
    requires at < |body.blocks| && i < |body.blocks[at].stmts| && IsSite(s)
    modifies body`blocks
    ensures tail == |old(body.blocks)| && resume == (if s.Yield? then tail else tail + 1)
            && rows == KindRows(s, at, tail, resume)
    ensures s.Call? ==> rows == [(at, CallInit(resume, s.receiver, s.args, s.result, s.callee)),
                                 (resume, CallResume(tail, s.receiver, s.args, s.result, s.callee))]
    ensures s.Yield? ==> rows == [(at, DirectYield)]
    ensures var out := old(body.blocks); var split := out[at := Block(out[at].stmts[..i + 1], Unreachable)]
                                                        + [Block(out[at].stmts[i + 1..], out[at].term)];
            body.blocks == if s.Yield? then split else split + [BARE]
  {
    tail := body.SplitAfter(at, i);
    match s
    case Call(callee, receiver, args, result) =>
      resume := body.NewBlock();
      rows := [(at, CallInit(resume, receiver, args, result, callee)),
               (resume, CallResume(tail, receiver, args, result, callee))];
    case Yield(_) =>
      resume, rows := tail, [(at, DirectYield)];
  }

  /** Cuts the body at its sites, in order: each cut's tail holds the block's later sites. */
  method SplitAtSites(body: Body<Stmt>, sites: seq<Site>)
    returns (st: States, homes: seq<BlockId>, resumes: seq<BlockId>, ghost cuts: seq<Cut>)
    requires |body.blocks| > 0 && AllSites(body.blocks, sites)
    modifies body`blocks
    ensures Split(old(body.blocks), body.blocks, cuts) && |cuts| == |sites| && CutsAre(cuts, sites)
            && StatesOf(old(body.blocks), cuts, st)
    ensures KindsTell(old(body.blocks), cuts, st.blockKinds)
    ensures |homes| == |resumes| == |cuts| && forall k :: 0 <= k < |cuts| ==>
              homes[k] == cuts[k].home && resumes[k] == cuts[k].resume
  {
    hide Split, StatesOf, KindRows, CutBlocks, AllSites, CutsAre, KindsTell;
    var src := body.blocks;
    var entry := 0;
    st := States([entry], [], []);
    homes, resumes, cuts := [], [], [];
    NothingCut(src, sites);
    var origBlock, current, prev: Option<nat> := entry, entry, None;
    for k := 0 to |sites|
      invariant |cuts| == k && CutsAre(cuts, sites) && Split(src, body.blocks, cuts) && StatesOf(src, cuts, st)
      invariant |homes| == |resumes| == |cuts| && forall j :: 0 <= j < |cuts| ==>
                  homes[j] == cuts[j].home && resumes[j] == cuts[j].resume
      invariant |st.resumeEntries| == k + 1
      invariant if k == 0 then prev == None
                else prev == Some(cuts[k - 1].idx) && origBlock == cuts[k - 1].bb && current == cuts[k - 1].tail
    {
      var (bb, idx) := sites[k];
      CutStep(src, body.blocks, sites, cuts, st, k);
      ghost var c, out := CutAfter(src, |body.blocks|, cuts, sites[k]), body.blocks;
      if bb != origBlock || prev.None? {
        origBlock, current, prev := bb, bb, None;
      }
      var currentIdx := if prev.Some? then idx - (prev.value + 1) else idx;
      CutIsSplit(src, out, cuts, sites[k], currentIdx);
      var next := |st.resumeEntries| % U32;
      var tail, resume, rows := SplitSite(body, src[bb].stmts[idx], current, currentIdx);
      st := States(st.resumeEntries + [resume], st.yieldBlocks + [(current, next)], st.blockKinds + rows);
      homes, resumes := homes + [current], resumes + [resume];
      current, prev := tail, Some(idx);
      cuts := cuts + [c];
    }
    StatesTellKinds(src, cuts, st);
  }

  lemma StatesTellKinds(src: Blocks, cuts: seq<Cut>, st: States)
    requires StatesOf(src, cuts, st)
    ensures KindsTell(src, cuts, st.blockKinds)
  {
    KindsAreTold(src, cuts);
  }

  /** What one round of the loop comes to. */
  lemma CutStep(src: Blocks, out: Blocks, sites: seq<Site>, cuts: seq<Cut>, st: States, k: nat)
    requires AllSites(src, sites) && |cuts| == k < |sites| && CutsAre(cuts, sites)
    requires Split(src, out, cuts) && StatesOf(src, cuts, st)
    ensures var s := sites[k]; var home, start := HomeOf(cuts, s.0), StartIn(cuts, s.0);
            && InRange(src, s) && IsSite(src[s.0].stmts[s.1])
            && home < |out| && start <= s.1 && out[home] == Block(src[s.0].stmts[start..], src[s.0].term)
            && var c := CutAfter(src, |out|, cuts, s);
               && CutsAre(cuts + [c], sites) && Split(src, CutBlocks(src, out, cuts, s), cuts + [c])
               && StatesOf(src, cuts + [c],
                           States(st.resumeEntries + [c.resume], st.yieldBlocks + [(c.home, (k + 1) % U32)],
                                                   st.blockKinds + RowsOf(src, c)))
  {
    hide Split, CutBlocks, Kinds, KindRows;
    SiteIsNext(src, sites, cuts, k);
    RestOfBlock(src, out, cuts, sites[k]);
    OneMoreCut(src, out, cuts, sites[k]);
    NextState(src, cuts, st, CutAfter(src, |out|, cuts, sites[k]));
  }

  lemma NothingCut(src: Blocks, sites: seq<Site>)
    requires |src| > 0
    ensures CutsAre([], sites) && Split(src, src, []) && StatesOf(src, [], States([0], [], []))
  {
  }

  lemma SiteIsNext(src: Blocks, sites: seq<Site>, cuts: seq<Cut>, k: nat)
    requires AllSites(src, sites) && |cuts| == k < |sites| && CutsAre(cuts, sites)
    ensures NextSite(src, cuts, sites[k])
  {
    assert sites[k] in sites;
    forall j | 0 <= j < |cuts|
      ensures Before((cuts[j].bb, cuts[j].idx), sites[k])
    {
      assert (cuts[j].bb, cuts[j].idx) == sites[j];
    }
  }

  /** Splitting the running block is cutting at the site. */
  lemma CutIsSplit(src: Blocks, out: Blocks, cuts: seq<Cut>, s: Site, i: nat)
    requires InRange(src, s) && HomeOf(cuts, s.0) < |out| && StartIn(cuts, s.0) <= s.1 && i == s.1 - StartIn(cuts, s.0)
    requires out[HomeOf(cuts, s.0)] == Block(src[s.0].stmts[StartIn(cuts, s.0)..], src[s.0].term)
    ensures var home := HomeOf(cuts, s.0); var split := out[home := Block(out[home].stmts[..i + 1], Unreachable)]
                                                         + [Block(out[home].stmts[i + 1..], out[home].term)];
            && i < |out[home].stmts|
            && CutBlocks(src, out, cuts, s) == if src[s.0].stmts[s.1].Yield? then split else split + [BARE]
  {
    var start := StartIn(cuts, s.0);
    assert src[s.0].stmts[start..][..i + 1] == src[s.0].stmts[start..s.1 + 1];
    assert src[s.0].stmts[start..][i + 1..] == src[s.0].stmts[s.1 + 1..];
  }

  // ── Nothing is lost ──────────────────────────────────────────────────

  ghost predicate PiecesExist(out: Blocks, cuts: seq<Cut>) {
    forall k :: 0 <= k < |cuts| ==> cuts[k].home < |out| && cuts[k].tail < |out|
  }

  /** The statements of a block's pieces from cut `k` on, tail included. */
  ghost function PiecesFrom(out: Blocks, cuts: seq<Cut>, k: nat): seq<Stmt>
    requires k < |cuts| && PiecesExist(out, cuts)
    decreases |cuts| - k
  {
    out[cuts[k].home].stmts + if LastInBlock(cuts, k) then out[cuts[k].tail].stmts else PiecesFrom(out, cuts, k + 1)
  }

  lemma CutFacts(src: Blocks, out: Blocks, cuts: seq<Cut>, k: nat)
    requires Split(src, out, cuts) && k < |cuts|
    ensures var c := cuts[k];
            && c.bb < |src| && c.start <= c.idx < |src[c.bb].stmts| && c.home < |out| && c.tail < |out|
            && out[c.home] == Block(src[c.bb].stmts[c.start..c.idx + 1], Unreachable)
            && (LastInBlock(cuts, k) ==> out[c.tail] == Block(src[c.bb].stmts[c.idx + 1..], src[c.bb].term))
            && (if FirstInBlock(cuts, k) then c.home == c.bb && c.start == 0
                else c.home == cuts[k - 1].tail && c.start == cuts[k - 1].idx + 1)
  {
    assert CutOk(src, out, cuts, k);
  }

  lemma TwoPieces<T>(s: seq<T>, i: nat, j: nat, first: seq<T>, rest: seq<T>)
    requires i <= j <= |s| && first == s[i..j] && rest == s[j..]
    ensures first + rest == s[i..]
  {
  }

  lemma PiecesAreThere(src: Blocks, out: Blocks, cuts: seq<Cut>)
    requires Split(src, out, cuts)
    ensures PiecesExist(out, cuts)
  {
    forall k | 0 <= k < |cuts|
      ensures cuts[k].home < |out| && cuts[k].tail < |out|
    {
      CutFacts(src, out, cuts, k);
    }
  }

  /** The pieces of a block, put together again, are the block. */
  lemma {:induction false} PiecesRebuild(src: Blocks, out: Blocks, cuts: seq<Cut>, k: nat)
    requires Split(src, out, cuts) && k < |cuts| && PiecesExist(out, cuts)
    ensures cuts[k].bb < |src| && cuts[k].start <= |src[cuts[k].bb].stmts|
    ensures PiecesFrom(out, cuts, k) == src[cuts[k].bb].stmts[cuts[k].start..]
    decreases |cuts| - k
  {
    hide Split, PiecesExist;
    var c := cuts[k];
    CutFacts(src, out, cuts, k);
    assert c.home < |out| && c.tail < |out|;
    var rest: seq<Stmt>;
    if LastInBlock(cuts, k) {
      rest := out[c.tail].stmts;
    } else {
      PiecesRebuild(src, out, cuts, k + 1);
      CutFacts(src, out, cuts, k + 1);
      assert !FirstInBlock(cuts, k + 1);
      rest := PiecesFrom(out, cuts, k + 1);
    }
    TwoPieces(src[c.bb].stmts, c.start, c.idx + 1, out[c.home].stmts, rest);
  }

  /** Splitting is lossless: a block is its pieces put together, each but the last ending at its site. */
  lemma SplitLosesNothing(src: Blocks, out: Blocks, cuts: seq<Cut>, k: nat)
    requires Split(src, out, cuts) && k < |cuts|
    ensures PiecesExist(out, cuts) && InRange(src, (cuts[k].bb, cuts[k].idx))
    ensures FirstInBlock(cuts, k) ==> PiecesFrom(out, cuts, k) == src[cuts[k].bb].stmts
    ensures LastInBlock(cuts, k) ==> out[cuts[k].tail].term == src[cuts[k].bb].term
    ensures var piece := out[cuts[k].home].stmts;
            |piece| > 0 && piece[|piece| - 1] == src[cuts[k].bb].stmts[cuts[k].idx]
    ensures forall b :: 0 <= b < |src| && !IsCut(cuts, b) ==> out[b] == src[b]
  {
    PiecesAreThere(src, out, cuts);
    PiecesRebuild(src, out, cuts, k);
    assert CutOk(src, out, cuts, k);
    assert src[cuts[k].bb].stmts[0..] == src[cuts[k].bb].stmts;
  }
}
