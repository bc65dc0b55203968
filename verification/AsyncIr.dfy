/** The functions krio-async lowers, what they mean, and which locals they read later. */
module AsyncIr {
  // A function is a control-flow graph whose statements are ordinary ones, direct yields and
  // calls of functions that may suspend. `Sem` gives the effect of each on a user world; a
  // callee is anything that can be started and polled. The meaning of a function is a run
  // straight through, statement by statement.

  import opened Options
  import opened Cfg
  import Coroutines

  datatype Stmt =
    | Plain(id: nat, uses: seq<LocalId>, def: Option<LocalId>)
    | Yield(value: Option<LocalId>)
    | Call(callee: nat, receiver: Option<LocalId>, args: seq<LocalId>, result: LocalId)

  type Blocks = seq<Block<Stmt>>
  type Env = map<LocalId, int>

  /** The statements the hooks classify as suspension sites. */
  predicate IsSite(s: Stmt) {
    s.Yield? || s.Call?
  }

  // ── Meaning ──────────────────────────────────────────────────────────

  datatype Event = Ran(id: nat, args: seq<int>) | Yielded(value: Option<int>)

  datatype World<U> = World(u: U, trace: seq<Event>)

  datatype Poll<C, U> = Pending(child: C, value: int, u: U) | Done(value: int, u: U)

  /** What user code means: a plain statement's value and effect, what happens to the world
      while a function is suspended, and how callees start and run. */
  datatype Sem<!U, !C> = Sem(
    exec: (nat, seq<int>, U) -> (int, U),
    away: U -> U,
    start: (nat, Option<int>, seq<int>) -> C,
    poll: (C, U) -> Poll<C, U>)

  function Get(env: Env, l: LocalId): int { if l in env then env[l] else 0 }

  function GetAll(env: Env, ls: seq<LocalId>): seq<int> {
    seq(|ls|, i requires 0 <= i < |ls| => Get(env, ls[i]))
  }

  function GetOpt(env: Env, l: Option<LocalId>): Option<int> {
    if l.Some? then Some(Get(env, l.value)) else None
  }

  function Assign(env: Env, l: Option<LocalId>, v: int): Env {
    if l.Some? then env[l.value := v] else env
  }

  /** A function gives up control with a value, and the world moves on without it. */
  function Suspend<U, C>(sem: Sem<U, C>, w: World<U>, value: Option<int>): World<U> {
    World(sem.away(w.u), w.trace + [Yielded(value)])
  }

  function RunPlain<U, C>(sem: Sem<U, C>, s: Stmt, env: Env, w: World<U>): (Env, World<U>)
    requires s.Plain?
  {
    var args := GetAll(env, s.uses);
    var (v, u) := sem.exec(s.id, args, w.u);
    (Assign(env, s.def, v), World(u, w.trace + [Ran(s.id, args)]))
  }

  function Start<U, C>(sem: Sem<U, C>, s: Stmt, env: Env): C
    requires s.Call?
  {
    sem.start(s.callee, GetOpt(env, s.receiver), GetAll(env, s.args))
  }

  /** The value of the local a terminator looks at. */
  function Look(t: Term, env: Env): int {
    var l := Coroutines.Scrutinee(t);
    if l.Some? then Get(env, l.value) else 0
  }

  /** A run of a function: at a statement, waiting for a callee, or over. */
  datatype Run<U, C> =
    | At(b: BlockId, i: nat, env: Env, w: World<U>)
    | Waiting(b: BlockId, i: nat, env: Env, child: C, w: World<U>)
    | Returned(value: int, w: World<U>)
    | Halted(term: Term, w: World<U>)

  /** One statement, one poll of a callee, or one terminator. Local `ret` holds what the function returns. */
  function Step<U, C>(sem: Sem<U, C>, blocks: Blocks, ret: LocalId, r: Run<U, C>): Run<U, C> {
    match r
    case At(b, i, env, w) =>
      if b >= |blocks| then r
      else if i < |blocks[b].stmts| then
        var s := blocks[b].stmts[i];
        if s.Plain? then
          var (env', w') := RunPlain(sem, s, env, w);
          At(b, i + 1, env', w')
        else if s.Yield? then At(b, i + 1, env, Suspend(sem, w, GetOpt(env, s.value)))
        else Waiting(b, i, env, Start(sem, s, env), w)
      else
        var t := blocks[b].term;
        (match Coroutines.Follow(t, Look(t, env))
         case Some(next) => At(next, 0, env, w)
         case None => if t.Return? then Returned(Get(env, ret), w) else Halted(t, w))
    case Waiting(b, i, env, child, w) =>
      if b >= |blocks| || i >= |blocks[b].stmts| || !blocks[b].stmts[i].Call? then r
      else
        (match sem.poll(child, w.u)
         case Pending(child', v, u) => Waiting(b, i, env, child', Suspend(sem, World(u, w.trace), Some(v)))
         case Done(v, u) => At(b, i + 1, env[blocks[b].stmts[i].result := v], World(u, w.trace)))
    case _ => r
  }

  function Steps<U, C>(sem: Sem<U, C>, blocks: Blocks, ret: LocalId, r: Run<U, C>, n: nat): Run<U, C>
    decreases n
  {
    if n == 0 then r else Steps(sem, blocks, ret, Step(sem, blocks, ret, r), n - 1)
  }

  // ── Liveness ─────────────────────────────────────────────────────────

  predicate Names(l: Option<LocalId>, x: LocalId) {
    l == Some(x)
  }

  predicate Uses(s: Stmt, x: LocalId) {
    match s
    case Plain(_, uses, _) => x in uses
    case Yield(value) => Names(value, x)
    case Call(_, receiver, args, _) => Names(receiver, x) || x in args
  }

  predicate Defines(s: Stmt, x: LocalId) {
    match s
    case Plain(_, _, def) => Names(def, x)
    case Yield(_) => false
    case Call(_, _, _, result) => x == result
  }

  predicate TermUses(t: Term, ret: LocalId, x: LocalId) {
    Names(Coroutines.Scrutinee(t), x) || (t.Return? && x == ret)
  }

  /** Local `x` may be read from `(b, i)` on before it is written again. */
  least predicate ReadLater(blocks: Blocks, ret: LocalId, b: BlockId, i: nat, x: LocalId) {
    b < |blocks| &&
    if i < |blocks[b].stmts|
    then Uses(blocks[b].stmts[i], x) || (!Defines(blocks[b].stmts[i], x) && ReadLater(blocks, ret, b, i + 1, x))
    else TermUses(blocks[b].term, ret, x)
         || exists next :: next in Successors(blocks[b].term) && ReadLater(blocks, ret, next, 0, x)
  }

  /** What must survive the site at `(b, i)`. A call writes its own result. */
  ghost predicate Survives(blocks: Blocks, ret: LocalId, b: BlockId, i: nat, x: LocalId)
    requires b < |blocks| && i < |blocks[b].stmts|
  {
    ReadLater(blocks, ret, b, i + 1, x) && !Defines(blocks[b].stmts[i], x)
  }

  /** Two environments that no later read can tell apart. */
  ghost predicate Agree(blocks: Blocks, ret: LocalId, b: BlockId, i: nat, env: Env, env': Env) {
    forall x: LocalId :: ReadLater(blocks, ret, b, i, x) ==> Get(env, x) == Get(env', x)
  }

  // ── Sites ────────────────────────────────────────────────────────────

  type Site = (BlockId, nat)

  predicate InRange(blocks: Blocks, s: Site) {
    s.0 < |blocks| && s.1 < |blocks[s.0].stmts|
  }

  predicate Before(s: Site, t: Site) {
    s.0 < t.0 || (s.0 == t.0 && s.1 < t.1)
  }

  /** In block and index order, each once. */
  ghost predicate Ascending(sites: seq<Site>) {
    forall i, j :: 0 <= i < j < |sites| ==> Before(sites[i], sites[j])
  }

  /** Exactly the suspension sites before `(b, i)`, in order. */
  ghost predicate SitesBefore(blocks: Blocks, sites: seq<Site>, b: nat, i: nat) {
    && Ascending(sites)
    && (forall s: Site :: s in sites <==> InRange(blocks, s) && IsSite(blocks[s.0].stmts[s.1]) && Before(s, (b, i)))
  }

  ghost predicate AllSites(blocks: Blocks, sites: seq<Site>) {
    && Ascending(sites)
    && (forall s: Site :: s in sites <==> InRange(blocks, s) && IsSite(blocks[s.0].stmts[s.1]))
  }

  /** Scans the body for its sites. The list comes out in the order the transform sorts it into. */
  method FindSites(blocks: Blocks) returns (sites: seq<Site>)
    ensures AllSites(blocks, sites)
  {
    sites := [];
    for b := 0 to |blocks|
      invariant SitesBefore(blocks, sites, b, 0)
    {
      for i := 0 to |blocks[b].stmts|
        invariant SitesBefore(blocks, sites, b, i)
      {
        if IsSite(blocks[b].stmts[i]) {
          sites := sites + [(b, i)];
        }
      }
    }
  }
}
