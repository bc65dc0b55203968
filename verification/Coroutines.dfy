/** The IR of krio-stackless and its meaning. */
module Coroutines {
  // Statements are those of the crate's toy adapter, with channel operations for guarded recv
  // and producing send. User code is arbitrary: `Sem` gives the effect of each user statement
  // and channel operation on a user world, and how user locals are read and written. Programs
  // run block by block.

  import opened Options
  import opened Cfg

  const DONE_STATE: int := 9999
  const POLL_READY: int := 0
  const POLL_PENDING: int := 1
  const POLL_BLOCKED: int := 2

  datatype Stmt =
    | RegionBegin
    | RegionEnd
    | CoroutineBegin(priority: Option<nat>)
    | CoroutineEnd
    | YieldMark
    | GuardedRecv(chan: nat)      // a recv not yet lowered
    | ProducingSend(chan: nat)
    | User(id: nat)
    | AssignI64(local: LocalId, value: int)
    | AssignBool(local: LocalId, flag: bool)
    | EqCheck(dest: LocalId, lhs: LocalId, rhs: int)
    | Peek(dest: LocalId, chan: nat)
    | Recv(chan: nat)             // a recv after its peek
    | Nop

  type Blocks = seq<Block<Stmt>>

  /** A statement that may give up control. */
  predicate Suspends(s: Stmt) {
    s.YieldMark? || s.GuardedRecv? || s.ProducingSend?
  }

  /** A marker the transform erases. */
  predicate Structural(s: Stmt) {
    s.RegionBegin? || s.RegionEnd? || s.CoroutineBegin? || s.CoroutineEnd? || s.YieldMark?
  }

  // ── Meaning ──────────────────────────────────────────────────────────

  datatype Event = Ran(id: nat) | Received(chan: nat) | Sent(chan: nat)

  /** What user code means. Locals below `base` are the user's. */
  datatype Sem<!U> = Sem(
    exec: (nat, U) -> U,
    recv: (nat, U) -> U,
    send: (nat, U) -> U,
    ready: (nat, U) -> bool,
    read: (LocalId, U) -> int,
    write: (LocalId, int, U) -> U,
    base: nat)

  /** The user's world and the trace of user statements and channel operations. */
  datatype World<U> = World(u: U, trace: seq<Event>)

  /** A world and the locals the transform allocated. */
  datatype Store<U> = Store(w: World<U>, sys: map<LocalId, int>)

  function Bit(b: bool): int { if b then 1 else 0 }

  /** The effect of a statement of the source. Markers do nothing by themselves. */
  function Do<U>(sem: Sem<U>, s: Stmt, w: World<U>): World<U> {
    match s
    case GuardedRecv(ch) => World(sem.recv(ch, w.u), w.trace + [Received(ch)])
    case Recv(ch) => World(sem.recv(ch, w.u), w.trace + [Received(ch)])
    case ProducingSend(ch) => World(sem.send(ch, w.u), w.trace + [Sent(ch)])
    case User(id) => World(sem.exec(id, w.u), w.trace + [Ran(id)])
    case AssignI64(l, v) => w.(u := sem.write(l, v, w.u))
    case AssignBool(l, b) => w.(u := sem.write(l, Bit(b), w.u))
    case EqCheck(dest, lhs, rhs) => w.(u := sem.write(dest, Bit(sem.read(lhs, w.u) == rhs), w.u))
    case Peek(dest, ch) => w.(u := sem.write(dest, Bit(sem.ready(ch, w.u)), w.u))
    case _ => w
  }

  function DoAll<U>(sem: Sem<U>, stmts: seq<Stmt>, w: World<U>): World<U> {
    if |stmts| == 0 then w else DoAll(sem, stmts[1..], Do(sem, stmts[0], w))
  }

  function Get(sys: map<LocalId, int>, l: LocalId): int { if l in sys then sys[l] else 0 }

  function Read<U>(sem: Sem<U>, st: Store<U>, l: LocalId): int {
    if l < sem.base then sem.read(l, st.w.u) else Get(st.sys, l)
  }

  /** The effect of a statement of the output, which may also use the transform's locals. */
  function Exec<U>(sem: Sem<U>, s: Stmt, st: Store<U>): Store<U> {
    match s
    case AssignI64(l, v) => if l < sem.base then st.(w := Do(sem, s, st.w)) else st.(sys := st.sys[l := v])
    case AssignBool(l, b) => if l < sem.base then st.(w := Do(sem, s, st.w)) else st.(sys := st.sys[l := Bit(b)])
    case EqCheck(dest, lhs, rhs) =>
      var v := Bit(Read(sem, st, lhs) == rhs);
      if dest < sem.base then st.(w := st.w.(u := sem.write(dest, v, st.w.u))) else st.(sys := st.sys[dest := v])
    case Peek(dest, ch) =>
      if dest < sem.base then st.(w := Do(sem, s, st.w))
      else st.(sys := st.sys[dest := Bit(sem.ready(ch, st.w.u))])
    case _ => st.(w := Do(sem, s, st.w))
  }

  function ExecAll<U>(sem: Sem<U>, stmts: seq<Stmt>, st: Store<U>): Store<U> {
    if |stmts| == 0 then st else ExecAll(sem, stmts[1..], Exec(sem, stmts[0], st))
  }

  function Choose(targets: seq<(int, BlockId)>, v: int, otherwise: BlockId): BlockId {
    if |targets| == 0 then otherwise
    else if targets[0].0 == v then targets[0].1
    else Choose(targets[1..], v, otherwise)
  }

  /** The local a terminator looks at, if any. */
  function Scrutinee(t: Term): Option<LocalId> {
    match t
    case Branch(c, _, _) => Some(c)
    case Switch(d, _, _) => Some(d)
    case _ => None
  }

  /** Where a terminator goes, given the value of the local it looks at. */
  function Follow(t: Term, v: int): Option<BlockId> {
    match t
    case Goto(b) => Some(b)
    case Branch(_, yes, no) => Some(if v != 0 then yes else no)
    case Switch(_, targets, otherwise) => Some(Choose(targets, v, otherwise))
    case _ => None
  }

  /** A running program is about to enter a block, or has stopped at a terminator. */
  datatype Conf<U> = Entering(b: BlockId, st: Store<U>) | Stopped(term: Term, st: Store<U>)

  function Leave<U>(sem: Sem<U>, t: Term, st: Store<U>): Conf<U> {
    var v := if Scrutinee(t).Some? then Read(sem, st, Scrutinee(t).value) else 0;
    match Follow(t, v)
    case Some(b) => Entering(b, st)
    case None => Stopped(t, st)
  }

  /** Runs one block. */
  function Step<U>(sem: Sem<U>, blocks: Blocks, c: Conf<U>): Conf<U> {
    if c.Entering? && c.b < |blocks|
    then Leave(sem, blocks[c.b].term, ExecAll(sem, blocks[c.b].stmts, c.st))
    else c
  }

  function Run<U>(sem: Sem<U>, blocks: Blocks, c: Conf<U>, n: nat): Conf<U>
    decreases n
  {
    if n == 0 then c else Run(sem, blocks, Step(sem, blocks, c), n - 1)
  }

  // ── Basic facts ──────────────────────────────────────────────────────

  lemma RunStep<U>(sem: Sem<U>, blocks: Blocks, c: Conf<U>, n: nat)
    ensures Run(sem, blocks, c, 1 + n) == Run(sem, blocks, Step(sem, blocks, c), n)
    ensures Run(sem, blocks, c, 1) == Step(sem, blocks, c)
  {
  }

  lemma {:induction false} RunAdds<U>(sem: Sem<U>, blocks: Blocks, c: Conf<U>, m: nat, n: nat)
    ensures Run(sem, blocks, c, m + n) == Run(sem, blocks, Run(sem, blocks, c, m), n)
    decreases m
  {
    if m > 0 {
      RunAdds(sem, blocks, Step(sem, blocks, c), m - 1, n);
    }
  }

  lemma {:induction false} ExecConcat<U>(sem: Sem<U>, a: seq<Stmt>, b: seq<Stmt>, st: Store<U>)
    ensures ExecAll(sem, a + b, st) == ExecAll(sem, b, ExecAll(sem, a, st))
  {
    if |a| == 0 {
      assert a + b == b;
    } else {
      assert (a + b)[1..] == a[1..] + b;
      ExecConcat(sem, a[1..], b, Exec(sem, a[0], st));
    }
  }

  lemma {:induction false} DoConcat<U>(sem: Sem<U>, a: seq<Stmt>, b: seq<Stmt>, w: World<U>)
    ensures DoAll(sem, a + b, w) == DoAll(sem, b, DoAll(sem, a, w))
  {
    if |a| == 0 {
      assert a + b == b;
    } else {
      assert (a + b)[1..] == a[1..] + b;
      DoConcat(sem, a[1..], b, Do(sem, a[0], w));
    }
  }

  lemma ExecFew<U>(sem: Sem<U>, a: Stmt, b: Stmt, c: Stmt, st: Store<U>)
    ensures ExecAll(sem, [a], st) == Exec(sem, a, st)
    ensures ExecAll(sem, [a, b], st) == Exec(sem, b, Exec(sem, a, st))
    ensures ExecAll(sem, [a, b, c], st) == Exec(sem, c, Exec(sem, b, Exec(sem, a, st)))
  {
    assert [a][1..] == [] && [a, b][1..] == [b] && [a, b, c][1..] == [b, c] && [b][1..] == [] && [b, c][1..] == [c];
    assert [c][1..] == [];
    var st1 := Exec(sem, a, st);
    var st2 := Exec(sem, b, st1);
    assert ExecAll(sem, [c], st2) == ExecAll(sem, [], Exec(sem, c, st2));
    assert ExecAll(sem, [b], st1) == ExecAll(sem, [], st2);
    assert ExecAll(sem, [b, c], st1) == ExecAll(sem, [c], st2);
    assert ExecAll(sem, [a], st) == ExecAll(sem, [], st1);
    assert ExecAll(sem, [a, b], st) == ExecAll(sem, [b], st1);
    assert ExecAll(sem, [a, b, c], st) == ExecAll(sem, [b, c], st1);
  }

  /** A statement that uses user locals only. */
  predicate UserStmt(s: Stmt, base: nat) {
    match s
    case AssignI64(l, _) => l < base
    case AssignBool(l, _) => l < base
    case EqCheck(dest, lhs, _) => dest < base && lhs < base
    case Peek(dest, _) => dest < base
    case _ => true
  }

  /** Two statement lists that differ only in erased markers. */
  ghost predicate Alike(a: seq<Stmt>, b: seq<Stmt>) {
    && |a| == |b|
    && forall i :: 0 <= i < |a| ==> a[i] == b[i] || (Structural(a[i]) && b[i] == Nop)
  }

  /** Running user code, erased markers and all, touches the world and nothing else. */
  lemma {:induction false} ExecIsDo<U>(sem: Sem<U>, a: seq<Stmt>, b: seq<Stmt>, st: Store<U>)
    requires Alike(a, b) && forall i :: 0 <= i < |a| ==> UserStmt(a[i], sem.base)
    ensures ExecAll(sem, b, st) == Store(DoAll(sem, a, st.w), st.sys)
  {
    if |a| > 0 {
      assert UserStmt(a[0], sem.base);
      assert Exec(sem, b[0], st) == Store(Do(sem, a[0], st.w), st.sys);
      ExecIsDo(sem, a[1..], b[1..], Exec(sem, b[0], st));
    }
  }

  lemma {:induction false} TraceGrows<U>(sem: Sem<U>, stmts: seq<Stmt>, st: Store<U>)
    ensures st.w.trace <= ExecAll(sem, stmts, st).w.trace
  {
    if |stmts| > 0 {
      TraceGrows(sem, stmts[1..], Exec(sem, stmts[0], st));
    }
  }

  lemma {:induction false} RunTraceGrows<U>(sem: Sem<U>, blocks: Blocks, c: Conf<U>, n: nat)
    ensures c.st.w.trace <= Run(sem, blocks, c, n).st.w.trace
    decreases n
  {
    if n > 0 {
      if c.Entering? && c.b < |blocks| {
        TraceGrows(sem, blocks[c.b].stmts, c.st);
      }
      RunTraceGrows(sem, blocks, Step(sem, blocks, c), n - 1);
    }
  }
}
