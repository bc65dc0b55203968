/** Control-flow graphs and the edits krio's transforms make to them.

`Body` is the consumer's function body behind the `CoroCfg` trait: blocks are numbered in
order of creation, and every edit rewrites one block or appends one.
*/
module Cfg {

  type BlockId = nat
  type LocalId = nat

  datatype Term =
    | Unreachable
    | Goto(target: BlockId)
    | Branch(cond: LocalId, yes: BlockId, no: BlockId)
    | Switch(discr: LocalId, targets: seq<(int, BlockId)>, otherwise: BlockId)
    | Return
    | Deadlock                    // reports a deadlock and does not return

  datatype Block<S> = Block(stmts: seq<S>, term: Term)

  /** The blocks a terminator can transfer control to. */
  function Successors(t: Term): seq<BlockId> {
    match t
    case Goto(b) => [b]
    case Branch(_, yes, no) => [yes, no]
    case Switch(_, targets, otherwise) =>
      seq(|targets|, i requires 0 <= i < |targets| => targets[i].1) + [otherwise]
    case _ => []
  }

  function Renamed(b: BlockId, from: BlockId, to: BlockId): BlockId {
    if b == from then to else b
  }

  /** `t` with every reference to `from` pointing to `to`. */
  function Redirect(t: Term, from: BlockId, to: BlockId): Term {
    match t
    case Goto(b) => Goto(Renamed(b, from, to))
    case Branch(cond, yes, no) => Branch(cond, Renamed(yes, from, to), Renamed(no, from, to))
    case Switch(discr, targets, otherwise) =>
      Switch(discr,
             seq(|targets|, i requires 0 <= i < |targets| => (targets[i].0, Renamed(targets[i].1, from, to))),
             Renamed(otherwise, from, to))
    case _ => t
  }

  class Body<S> {
    var blocks: seq<Block<S>>
    var locals: nat

    constructor (blocks: seq<Block<S>>, locals: nat)
      ensures this.blocks == blocks && this.locals == locals
    {
      this.blocks := blocks;
      this.locals := locals;
    }

    method NewBlock() returns (b: BlockId)
      modifies this`blocks
      ensures b == |old(blocks)| && blocks == old(blocks) + [Block([], Unreachable)]
    {
      b := |blocks|;
      blocks := blocks + [Block([], Unreachable)];
    }

    method NewLocal() returns (l: LocalId)
      modifies this`locals
      ensures l == old(locals) && locals == l + 1
    {
      l := locals;
      locals := locals + 1;
    }

    method Append(b: BlockId, s: S)
      requires b < |blocks|
      modifies this`blocks
      ensures blocks == old(blocks)[b := old(blocks)[b].(stmts := old(blocks)[b].stmts + [s])]
    {
      blocks := blocks[b := blocks[b].(stmts := blocks[b].stmts + [s])];
    }

    method Prepend(b: BlockId, s: S)
      requires b < |blocks|
      modifies this`blocks
      ensures blocks == old(blocks)[b := old(blocks)[b].(stmts := [s] + old(blocks)[b].stmts)]
    {
      blocks := blocks[b := blocks[b].(stmts := [s] + blocks[b].stmts)];
    }

    method Replace(b: BlockId, i: nat, s: S)
      requires b < |blocks| && i < |blocks[b].stmts|
      modifies this`blocks
      ensures blocks == old(blocks)[b := old(blocks)[b].(stmts := old(blocks)[b].stmts[i := s])]
    {
      blocks := blocks[b := blocks[b].(stmts := blocks[b].stmts[i := s])];
    }

    /** Moves everything after statement `i`, and the terminator, into a fresh block. */
    method SplitAfter(b: BlockId, i: nat) returns (tail: BlockId)
      requires b < |blocks| && i < |blocks[b].stmts|
      modifies this`blocks
      ensures tail == |old(blocks)|
      ensures blocks == old(blocks)[b := Block(old(blocks)[b].stmts[..i + 1], Unreachable)]
                        + [Block(old(blocks)[b].stmts[i + 1..], old(blocks)[b].term)]
    {
      tail := |blocks|;
      var moved := Block(blocks[b].stmts[i + 1..], blocks[b].term);
      blocks := blocks[b := Block(blocks[b].stmts[..i + 1], Unreachable)] + [moved];
    }

    method SetTerm(b: BlockId, t: Term)
      requires b < |blocks|
      modifies this`blocks
      ensures blocks == old(blocks)[b := old(blocks)[b].(term := t)]
    {
      blocks := blocks[b := blocks[b].(term := t)];
    }

    method RedirectTargets(b: BlockId, from: BlockId, to: BlockId)
      requires b < |blocks|
      modifies this`blocks
      ensures blocks == old(blocks)[b := old(blocks)[b].(term := Redirect(old(blocks)[b].term, from, to))]
    {
      blocks := blocks[b := blocks[b].(term := Redirect(blocks[b].term, from, to))];
    }
  }
}
