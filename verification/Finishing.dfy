/** Entering and leaving a region once its machines and its executor are in place.

Leaving: what followed the region's end moves to a block of its own, which the executor's exit
leads to. Entering: the markers of the region and of its coroutines become no-ops, the region's
first block is cut behind the region's marker, the tail is lifted into a block of its own, and
the head sets every machine to state 0 and goes to the executor. If the first coroutine began
in that block, the first machine's dispatch is retargeted to the lifted tail. All executors
finish a region in this way.
*/
module Finishing {
  import opened Cfg
  import opened Coroutines
  import opened Regions
  import opened Machines
  import opened Executors
  import opened Discovery
  import opened Markers

  // ── Leaving ──────────────────────────────────────────────────────────

  /** What followed the region gets a block of its own, and `exit` leads there. */
  function Exited(blocks: Blocks, region: Region): Blocks
    requires region.end.0 < |blocks|
  {
    var re := blocks[region.end.0];
    blocks[region.end.0 := Block(re.stmts, Unreachable)] + [Block([], Goto(|blocks| + 1)), Block([], re.term)]
  }

  method RegionExit(body: Body<Stmt>, region: Region) returns (exit: BlockId, post: BlockId)
    requires region.end.0 < |body.blocks| && |body.blocks[region.end.0].stmts| > 0
    modifies body`blocks
    ensures body.blocks == Exited(old(body.blocks), region)
    ensures exit == |old(body.blocks)| && post == exit + 1
  {
    exit := body.NewBlock();
    var last := |body.blocks[region.end.0].stmts| - 1;
    post := body.SplitAfter(region.end.0, last);
    body.SetTerm(exit, Goto(post));
    ghost var re := old(body.blocks)[region.end.0];
    assert re.stmts[..last + 1] == re.stmts && re.stmts[last + 1..] == [];
  }

  // ── An executor in place ─────────────────────────────────────────────

  const BARE: Block<Stmt> := Block([], Unreachable)

  ghost predicate ExitsApart(ms: seq<Machine>, n: nat) {
    && (forall i :: 0 <= i < |ms| ==> ms[i].exit < n)
    && (forall i, j :: 0 <= i < |ms| && 0 <= j < |ms| && i != j ==> ms[i].exit != ms[j].exit)
  }

  ghost predicate IsExit(ms: seq<Machine>, n: nat, b: BlockId) {
    exists k :: 0 <= k < n && k < |ms| && ms[k].exit == b
  }

  /** Every local of the machines is older than `l`. */
  ghost predicate LocalsBelow(ms: seq<Machine>, l: LocalId) {
    forall i :: 0 <= i < |ms| ==>
      ms[i].state < l && ms[i].poll < l && ms[i].progress < l && forall t: nat :: Temporary(ms[i], t) ==> t < l
  }

  /** A machine the executor may refer to. */
  ghost predicate Within(m: Machine, lo: nat, n: nat, locals: nat) {
    lo <= m.exit < n && lo <= m.dispatch < n && m.state < locals && m.poll < locals && m.progress < locals
  }

  ghost predicate AllWithin(ms: seq<Machine>, lo: nat, n: nat, locals: nat) {
    forall i :: 0 <= i < |ms| ==> Within(ms[i], lo, n, locals)
  }

  lemma FirstWithin(ms: seq<Machine>, lo: nat, n: nat, locals: nat)
    requires AllWithin(ms, lo, n, locals) && |ms| > 0
    ensures ms[0].progress < locals
  {
    assert Within(ms[0], lo, n, locals);
  }

  /** An executor has been added: the rest is as it was, exits and the region's end aside. */
  ghost predicate ExecutorIn(blocks0: Blocks, blocks: Blocks, region: Region, ms: seq<Machine>, exit: BlockId,
                             post: BlockId) {
    && |blocks0| <= |blocks| && region.end.0 < |blocks0| && |blocks0| <= exit && |blocks0| <= post
    && Is(blocks, exit, [], Goto(post)) && Is(blocks, post, [], blocks0[region.end.0].term)
    && blocks[region.end.0].stmts == blocks0[region.end.0].stmts
    && (forall b: nat :: b < |blocks0| && b != region.end.0 && !IsExit(ms, |ms|, b) ==> blocks[b] == blocks0[b])
    && RegionsLeft(blocks) == RegionsLeft(blocks0)
  }

  lemma BeginBelow(src: Blocks, region: Region)
    requires MarkersOk(src, region)
    ensures region.begin.0 < |src| && region.end.0 < |src|
  {
  }

  // ── Erasing markers ──────────────────────────────────────────────────

  function CoroutineMarkers(cos: seq<Coroutine>): seq<Site> {
    if |cos| == 0 then [] else CoroutineMarkers(cos[..|cos| - 1]) + [cos[|cos| - 1].begin, cos[|cos| - 1].end]
  }

  function MarkerSites(region: Region): seq<Site> {
    CoroutineMarkers(region.coroutines) + [region.begin, region.end]
  }

  predicate InRange(blocks: Blocks, s: Site) {
    s.0 < |blocks| && s.1 < |blocks[s.0].stmts|
  }

  function Erase(blocks: Blocks, s: Site): Blocks
    requires InRange(blocks, s)
  {
    blocks[s.0 := blocks[s.0].(stmts := blocks[s.0].stmts[s.1 := Nop])]
  }

  /** `blocks` with the statements at `sites` erased. */
  ghost predicate ErasedAt(blocks: Blocks, out: Blocks, sites: seq<Site>) {
    && |out| == |blocks|
    && forall b :: 0 <= b < |blocks| ==>
         && out[b].term == blocks[b].term && |out[b].stmts| == |blocks[b].stmts|
         && forall i :: 0 <= i < |blocks[b].stmts| ==>
              out[b].stmts[i] == if (b, i) in sites then Nop else blocks[b].stmts[i]
  }

  lemma EraseOneMore(blocks: Blocks, out: Blocks, sites: seq<Site>, s: Site)
    requires ErasedAt(blocks, out, sites) && InRange(blocks, s)
    ensures InRange(out, s) && ErasedAt(blocks, Erase(out, s), sites + [s])
  {
  }

  ghost predicate AllInRange(blocks: Blocks, sites: seq<Site>) {
    forall i :: 0 <= i < |sites| ==> InRange(blocks, sites[i])
  }

  lemma ErasePair(blocks: Blocks, out: Blocks, sites: seq<Site>, s: Site, t: Site)
    requires ErasedAt(blocks, out, sites) && InRange(blocks, s) && InRange(blocks, t)
    ensures InRange(out, s) && InRange(Erase(out, s), t) && ErasedAt(blocks, Erase(Erase(out, s), t), sites + [s, t])
  {
    hide ErasedAt, Erase, InRange;
    EraseOneMore(blocks, out, sites, s);
    EraseOneMore(blocks, Erase(out, s), sites + [s], t);
    assert sites + [s] + [t] == sites + [s, t];
  }

  method EraseMarkers(body: Body<Stmt>, region: Region)
    requires AllInRange(body.blocks, MarkerSites(region))
    modifies body`blocks
    ensures ErasedAt(old(body.blocks), body.blocks, MarkerSites(region))
  {
    hide ErasedAt, AllInRange;
    ghost var blocks0 := body.blocks;
    NothingErased(blocks0);
    for i := 0 to |region.coroutines|
      invariant ErasedAt(blocks0, body.blocks, CoroutineMarkers(region.coroutines[..i]))
    {
      var co := region.coroutines[i];
      assert region.coroutines[..i + 1][..i] == region.coroutines[..i];
      MarkersInRange(blocks0, region, i);
      ErasePair(blocks0, body.blocks, CoroutineMarkers(region.coroutines[..i]), co.begin, co.end);
      body.Replace(co.begin.0, co.begin.1, Nop);
      body.Replace(co.end.0, co.end.1, Nop);
    }
    assert region.coroutines[..|region.coroutines|] == region.coroutines;
    BeginInRange(blocks0, region);
    ErasePair(blocks0, body.blocks, CoroutineMarkers(region.coroutines), region.begin, region.end);
    body.Replace(region.begin.0, region.begin.1, Nop);
    body.Replace(region.end.0, region.end.1, Nop);
  }

  lemma NothingErased(blocks: Blocks)
    ensures ErasedAt(blocks, blocks, [])
  {
  }

  lemma {:induction false} MarkerAt(cos: seq<Coroutine>, i: nat)
    requires i < |cos|
    ensures |CoroutineMarkers(cos)| == 2 * |cos|
    ensures CoroutineMarkers(cos)[2 * i] == cos[i].begin && CoroutineMarkers(cos)[2 * i + 1] == cos[i].end
  {
    if i < |cos| - 1 {
      MarkerAt(cos[..|cos| - 1], i);
    } else if |cos| > 1 {
      MarkerAt(cos[..|cos| - 1], 0);
    }
  }

  lemma {:induction false} MarkerOfSome(cos: seq<Coroutine>, s: Site)
    requires s in CoroutineMarkers(cos)
    ensures exists i :: 0 <= i < |cos| && (s == cos[i].begin || s == cos[i].end)
  {
    var n := |cos| - 1;
    if s == cos[n].begin || s == cos[n].end {
    } else {
      MarkerOfSome(cos[..n], s);
      var i :| 0 <= i < n && (s == cos[..n][i].begin || s == cos[..n][i].end);
      assert cos[i] == cos[..n][i];
    }
  }

  lemma MarkersInRange(blocks: Blocks, region: Region, i: nat)
    requires AllInRange(blocks, MarkerSites(region)) && i < |region.coroutines|
    ensures InRange(blocks, region.coroutines[i].begin) && InRange(blocks, region.coroutines[i].end)
  {
    MarkerAt(region.coroutines, i);
    var sites := MarkerSites(region);
    assert sites[2 * i] == region.coroutines[i].begin && sites[2 * i + 1] == region.coroutines[i].end;
  }

  // ── Entering ─────────────────────────────────────────────────────────

  /** The region's first block keeps what precedes the region, starts the machines and goes
      to `entry`; the rest of it is lifted into a block of its own. */
  function Lifted(blocks: Blocks, region: Region, ms: seq<Machine>, entry: BlockId): Blocks
    requires region.begin.0 < |blocks| && region.begin.1 < |blocks[region.begin.0].stmts|
    requires |ms| > 0 && ms[0].dispatch < |blocks| && ms[0].dispatch != region.begin.0
  {
    var rb, k, d := blocks[region.begin.0], region.begin.1 + 1, ms[0].dispatch;
    var wired := if SharesFirst(region)
                 then blocks[d := blocks[d].(term := Redirect(blocks[d].term, region.begin.0, |blocks|))] else blocks;
    wired[region.begin.0 := Block(rb.stmts[..k] + Inits(ms), Goto(entry))] + [Block(rb.stmts[k..], rb.term)]
  }

  method EmitInits(body: Body<Stmt>, b: BlockId, ms: seq<Machine>)
    requires b < |body.blocks|
    modifies body`blocks
    ensures body.blocks == old(body.blocks)[b := old(body.blocks)[b].(stmts := old(body.blocks)[b].stmts + Inits(ms))]
  {
    ghost var blocks0 := body.blocks;
    ghost var stmts := blocks0[b].stmts;
    assert stmts + Inits(ms[..0]) == stmts;
    assert body.blocks == blocks0[b := blocks0[b].(stmts := stmts)];
    for i := 0 to |ms|
      invariant body.blocks == blocks0[b := blocks0[b].(stmts := stmts + Inits(ms[..i]))]
    {
      body.Append(b, AssignI64(ms[i].state, 0));
      assert stmts + Inits(ms[..i]) + [AssignI64(ms[i].state, 0)] == stmts + Inits(ms[..i + 1]);
    }
    assert ms[..|ms|] == ms;
  }

  method FinishRegion(body: Body<Stmt>, region: Region, ms: seq<Machine>, entry: BlockId)
    returns (lifted: BlockId, ghost erased: Blocks)
    requires AllInRange(body.blocks, MarkerSites(region))
    requires |ms| > 0 && ms[0].dispatch < |body.blocks| && ms[0].dispatch != region.begin.0
    modifies body`blocks
    ensures lifted == |old(body.blocks)|
    ensures ErasedAt(old(body.blocks), erased, MarkerSites(region))
    ensures InRange(erased, region.begin) && ms[0].dispatch < |erased|
    ensures body.blocks == Lifted(erased, region, ms, entry)
  {
    BeginInRange(body.blocks, region);
    EraseMarkers(body, region);
    erased := body.blocks;
    lifted := body.SplitAfter(region.begin.0, region.begin.1);
    if SharesFirst(region) {
      body.RedirectTargets(ms[0].dispatch, region.coroutines[0].begin.0, lifted);
    }
    EmitInits(body, region.begin.0, ms);
    body.SetTerm(region.begin.0, Goto(entry));
  }

  lemma BeginInRange(blocks: Blocks, region: Region)
    requires AllInRange(blocks, MarkerSites(region))
    ensures InRange(blocks, region.begin) && InRange(blocks, region.end)
  {
    var sites := MarkerSites(region);
    var n := |sites|;
    assert sites[n - 2] == region.begin && sites[n - 1] == region.end;
  }
}
