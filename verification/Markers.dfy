/** How many region markers a body still holds: the measure by which the transform ends. */
module Markers {
  import opened Cfg
  import opened Coroutines

  function Begins(stmts: seq<Stmt>): nat {
    if |stmts| == 0 then 0 else (if stmts[0].RegionBegin? then 1 else 0) + Begins(stmts[1..])
  }

  function RegionsLeft(blocks: Blocks): nat {
    if |blocks| == 0 then 0 else RegionsLeft(blocks[..|blocks| - 1]) + Begins(blocks[|blocks| - 1].stmts)
  }

  lemma {:induction false} BeginsConcat(a: seq<Stmt>, b: seq<Stmt>)
    ensures Begins(a + b) == Begins(a) + Begins(b)
  {
    if |a| == 0 {
      assert a + b == b;
    } else {
      assert (a + b)[1..] == a[1..] + b;
      BeginsConcat(a[1..], b);
    }
  }

  lemma BeginsSplit(stmts: seq<Stmt>, k: nat)
    requires k <= |stmts|
    ensures Begins(stmts) == Begins(stmts[..k]) + Begins(stmts[k..])
  {
    assert stmts == stmts[..k] + stmts[k..];
    BeginsConcat(stmts[..k], stmts[k..]);
  }

  lemma BeginsAround(stmts: seq<Stmt>, k: nat)
    requires k < |stmts|
    ensures Begins(stmts) == Begins(stmts[..k]) + (if stmts[k].RegionBegin? then 1 else 0) + Begins(stmts[k + 1..])
  {
    BeginsSplit(stmts, k);
    assert stmts[k..][1..] == stmts[k + 1..];
  }

  lemma NoBegins(stmts: seq<Stmt>)
    requires forall i :: 0 <= i < |stmts| ==> !stmts[i].RegionBegin?
    ensures Begins(stmts) == 0
  {
  }

  lemma {:induction false} RegionsUpdate(blocks: Blocks, b: BlockId, block: Block<Stmt>)
    requires b < |blocks|
    ensures RegionsLeft(blocks[b := block]) == RegionsLeft(blocks) - Begins(blocks[b].stmts) + Begins(block.stmts)
  {
    var n := |blocks| - 1;
    if b == n {
      assert blocks[b := block][..n] == blocks[..n];
    } else {
      assert blocks[b := block][..n] == blocks[..n][b := block];
      RegionsUpdate(blocks[..n], b, block);
    }
  }

  lemma {:induction false} RegionsConcat(a: Blocks, b: Blocks)
    ensures RegionsLeft(a + b) == RegionsLeft(a) + RegionsLeft(b)
  {
    if |b| == 0 {
      assert a + b == a;
    } else {
      assert (a + b)[..|a + b| - 1] == a + b[..|b| - 1];
      RegionsConcat(a, b[..|b| - 1]);
    }
  }

  /** Blocks that hold no region marker. */
  lemma {:induction false} NoRegions(blocks: Blocks)
    requires forall b :: 0 <= b < |blocks| ==> Begins(blocks[b].stmts) == 0
    ensures RegionsLeft(blocks) == 0
  {
    if |blocks| > 0 {
      NoRegions(blocks[..|blocks| - 1]);
    }
  }

  /** Rewriting one block and adding blocks of which only one holds markers. */
  lemma RegionsRewrite(blocks: Blocks, b: BlockId, block: Block<Stmt>, more: Blocks, rest: nat)
    requires b < |blocks| && rest < |more|
    requires forall i :: 0 <= i < |more| && i != rest ==> Begins(more[i].stmts) == 0
    ensures RegionsLeft(blocks[b := block] + more)
         == RegionsLeft(blocks) - Begins(blocks[b].stmts) + Begins(block.stmts) + Begins(more[rest].stmts)
  {
    RegionsUpdate(blocks, b, block);
    RegionsConcat(blocks[b := block], more);
    var bare := more[rest := Block([], Unreachable)];
    NoRegions(bare);
    assert bare[rest := more[rest]] == more;
    RegionsUpdate(bare, rest, more[rest]);
  }

  /** Terminators do not count. */
  lemma RegionsTerm(blocks: Blocks, b: BlockId, t: Term)
    requires b < |blocks|
    ensures RegionsLeft(blocks[b := blocks[b].(term := t)]) == RegionsLeft(blocks)
  {
    RegionsUpdate(blocks, b, blocks[b].(term := t));
  }

  lemma RegionsAppend(blocks: Blocks, block: Block<Stmt>)
    requires forall i :: 0 <= i < |block.stmts| ==> !block.stmts[i].RegionBegin?
    ensures RegionsLeft(blocks + [block]) == RegionsLeft(blocks)
  {
    NoBegins(block.stmts);
    assert (blocks + [block])[..|blocks|] == blocks;
  }
}
