/** Stop-the-world, access by access. */
module Barrier {
  // The stop-the-world barrier of krio-parallel, as a machine of atomic steps.
  //
  // One 32-bit word says both whether a stop is pending (odd) and which round it is; one
  // counter says how many agents stand at the barrier. Every load, store, compare-and-swap,
  // park and notification of `request`, `enter`, `await_all` and `release` is one step of one
  // agent. Around them stand the callers: the head of `run`, the checks of `drive_once`, hot
  // loops that poll with a `while` or with a single `if`, and `stop_the_world` called from a
  // host's own loop or from inside a task. Runs without shutdown.

  const WORD: int := 0x1_0000_0000

  datatype Role = Worker | Main

  /** Where an agent goes after `enter` returns. */
  datatype Return = ToRun | ToDrive | ToHotLoop

  /** Where an agent goes after `stop_the_world` returns. */
  datatype Home = HostLoop | InTask

  datatype Pc =
    // run / drive_once
    | RunTop                                  // about to test `requested`, head of `run`
    | NextJob                                 // about to look for a job
    | Stepping                                // inside Task::step
    | AfterStep                               // about to test `requested` between steps
    | DriveWhile                              // about to test `requested` in drive_once's while
    | HotPoll                                 // inside a step, about to test `requested` in a while
    | Idle                                    // no work: publishing, asleep, or just woken
    | MainIdle                                // a main agent between passes
    // enter
    | EnterLoad(ret: Return)                  // about to snapshot the word
    | EnterAdd(ret: Return, snap: int)        // about to add itself to the count
    | EnterNotify(ret: Return, snap: int)     // about to notify waiters on the count
    | EnterIf(ret: Return, snap: int)         // about to compare, first time
    | EnterWhile(ret: Return, snap: int)      // about to compare, in the loop
    | EnterPark(ret: Return, snap: int)       // saw its round pending, about to park
    | EnterAsleep(ret: Return, snap: int)
    | EnterSub(ret: Return, snap: int)        // about to take itself off the count
    | EnterGone(ret: Return)                  // about to notify waiters on the count
    // stop_the_world
    | ReqLoad(home: Home)
    | ReqCas(home: Home, seen: int)
    | NotifyIdle(home: Home)                  // about to notify every parking slot
    | AwaitLoad(home: Home)                   // about to load the count
    | AwaitPark(home: Home, count: int)
    | AwaitAsleep(home: Home, count: int)
    | AwaitDriving(home: Home)                // a poller that drives tasks between polls
    | Window(home: Home)                      // running the collection
    | RelLoad(home: Home, owned: bool)        // `owned`: everyone had arrived
    | RelCas(home: Home, owned: bool, seen: int)
    | RelNotify(home: Home)                   // released, about to notify waiters on the word
    | DrainLoad(home: Home)                   // about to load the count
    | DrainNotify(home: Home, count: int)
    | DrainPark(home: Home, count: int)
    | DrainAsleep(home: Home, count: int)

  /** `rechecks` says how hot loops poll: with a `while` that tests `requested` again after
      `enter` returns, or with a single `if`. */
  datatype State = State(word: int, stopped: int, pcs: seq<Pc>, roles: seq<Role>, rechecks: bool)

  /** What the environment decides at a step that has a choice. */
  datatype Choice = First | Second | Third

  predicate Pending(word: int) { word % 2 == 1 }

  function Bump(word: int): int { (word + 1) % WORD }

  function Back(home: Home): Pc {
    match home
    case HostLoop => MainIdle
    case InTask => Stepping
  }

  function Resume(ret: Return, rechecks: bool): Pc {
    match ret
    case ToRun => RunTop
    case ToDrive => DriveWhile
    case ToHotLoop => if rechecks then HotPoll else Stepping
  }

  /** `unpark_all(&state)`. */
  function WakeOnWord(pcs: seq<Pc>): (r: seq<Pc>)
    ensures |r| == |pcs|
    ensures forall i :: 0 <= i < |pcs| ==>
      r[i] == if pcs[i].EnterAsleep? then EnterWhile(pcs[i].ret, pcs[i].snap) else pcs[i]
  {
    seq(|pcs|, i requires 0 <= i < |pcs| =>
      if pcs[i].EnterAsleep? then EnterWhile(pcs[i].ret, pcs[i].snap) else pcs[i])
  }

  /** `unpark_all(&stopped)`. */
  function WakeOnCount(pcs: seq<Pc>): (r: seq<Pc>)
    ensures |r| == |pcs|
    ensures forall i :: 0 <= i < |pcs| ==>
      r[i] == if pcs[i].AwaitAsleep? then AwaitLoad(pcs[i].home)
              else if pcs[i].DrainAsleep? then DrainLoad(pcs[i].home) else pcs[i]
  {
    seq(|pcs|, i requires 0 <= i < |pcs| =>
      if pcs[i].AwaitAsleep? then AwaitLoad(pcs[i].home)
      else if pcs[i].DrainAsleep? then DrainLoad(pcs[i].home) else pcs[i])
  }

  /** Where agent `i` stands after its next atomic access. A compare-and-swap is weak:
      `Second` makes it fail. */
  function Landing(s: State, i: nat, c: Choice): Pc
    requires i < |s.pcs| == |s.roles|
  {
    var worker := s.roles[i].Worker?;
    match s.pcs[i]
    case RunTop => if Pending(s.word) then EnterLoad(ToRun) else NextJob
    case NextJob => if c.First? then Stepping else if worker then Idle else MainIdle
    case Stepping =>
      (match c
       case First => AfterStep
       case Second => if worker then HotPoll else AfterStep
       case Third => ReqLoad(InTask))
    case AfterStep => if !Pending(s.word) then NextJob else if worker then DriveWhile else MainIdle
    case DriveWhile => if Pending(s.word) then EnterLoad(ToDrive) else NextJob
    case HotPoll => if Pending(s.word) then EnterLoad(ToHotLoop) else Stepping
    case Idle => RunTop
    case MainIdle => if c.First? then NextJob else ReqLoad(HostLoop)

    case EnterLoad(ret) => if Pending(s.word) then EnterAdd(ret, s.word) else Resume(ret, s.rechecks)
    case EnterAdd(ret, snap) => EnterNotify(ret, snap)
    case EnterNotify(ret, snap) => EnterIf(ret, snap)
    case EnterIf(ret, snap) => if s.word == snap then EnterWhile(ret, snap) else EnterSub(ret, snap)
    case EnterWhile(ret, snap) => if s.word == snap then EnterPark(ret, snap) else EnterSub(ret, snap)
    case EnterPark(ret, snap) => if s.word == snap then EnterAsleep(ret, snap) else EnterWhile(ret, snap)
    case EnterAsleep(ret, snap) => EnterWhile(ret, snap)        // a spurious wake
    case EnterSub(ret, _) => EnterGone(ret)
    case EnterGone(ret) => Resume(ret, s.rechecks)

    case ReqLoad(home) => ReqCas(home, s.word)
    case ReqCas(home, seen) =>
      if Pending(seen) then Back(home)                          // refused
      else if s.word == seen && c.First? then NotifyIdle(home)
      else ReqCas(home, s.word)
    case NotifyIdle(home) => AwaitLoad(home)                    // idle agents may wake at any time
    case AwaitLoad(home) =>
      (match c
       case First => if s.stopped >= |s.pcs| - 1 then Window(home) else AwaitPark(home, s.stopped)
       case Second => RelLoad(home, false)                      // a poller that gives up
       case Third => AwaitDriving(home))
    case AwaitDriving(home) => AwaitLoad(home)
    case AwaitPark(home, count) => if s.stopped == count then AwaitAsleep(home, count) else AwaitLoad(home)
    case AwaitAsleep(home, _) => AwaitLoad(home)                // a spurious wake
    case Window(home) => RelLoad(home, true)
    case RelLoad(home, owned) => RelCas(home, owned, s.word)
    case RelCas(home, owned, seen) =>
      if !Pending(seen) then Back(home)
      else if s.word == seen && c.First? then RelNotify(home)
      else RelCas(home, owned, s.word)
    case RelNotify(home) => DrainLoad(home)
    case DrainLoad(home) => if s.stopped == 0 then Back(home) else DrainNotify(home, s.stopped)
    case DrainNotify(home, count) => DrainPark(home, count)
    case DrainPark(home, count) => if s.stopped == count then DrainAsleep(home, count) else DrainLoad(home)
    case DrainAsleep(home, _) => DrainLoad(home)                // a spurious wake
  }

  /** The word after the access: moved by a successful compare-and-swap, and by nothing else. */
  function WordAfter(s: State, i: nat, c: Choice): int
    requires i < |s.pcs|
  {
    match s.pcs[i]
    case ReqCas(_, seen) => if !Pending(seen) && s.word == seen && c.First? then Bump(s.word) else s.word
    case RelCas(_, _, seen) => if Pending(seen) && s.word == seen && c.First? then Bump(s.word) else s.word
    case _ => s.word
  }

  /** The count after the access. */
  function StoppedAfter(s: State, i: nat): int
    requires i < |s.pcs|
  {
    match s.pcs[i]
    case EnterAdd(_, _) => (s.stopped + 1) % WORD
    case EnterSub(_, _) => (s.stopped + WORD - 1) % WORD
    case _ => s.stopped
  }

  /** The notification the access is, if it is one. */
  function Notify(pc: Pc, pcs: seq<Pc>): seq<Pc> {
    if pc.EnterNotify? || pc.EnterGone? then WakeOnCount(pcs)
    else if pc.RelNotify? || pc.DrainNotify? then WakeOnWord(pcs)
    else pcs
  }

  /** One atomic access of agent `i`. */
  function Step(s: State, i: nat, c: Choice): (s': State)
    requires i < |s.pcs| == |s.roles|
    ensures |s'.pcs| == |s.pcs| && s'.roles == s.roles && s'.rechecks == s.rechecks
  {
    s.(word := WordAfter(s, i, c), stopped := StoppedAfter(s, i),
       pcs := Notify(s.pcs[i], s.pcs[i := Landing(s, i, c)]))
  }

  ghost predicate Init(s: State) {
    && |s.pcs| == |s.roles| && 0 < |s.pcs| < WORD
    && s.word == 0 && s.stopped == 0
    && (forall i :: 0 <= i < |s.pcs| ==> s.pcs[i] == if s.roles[i].Worker? then RunTop else MainIdle)
  }

  // ── Classes of places ────────────────────────────────────────────────

  /** Between the increment and the decrement of the count. */
  predicate AtBarrier(pc: Pc) {
    pc.EnterNotify? || pc.EnterIf? || pc.EnterWhile? || pc.EnterPark? || pc.EnterAsleep? || pc.EnterSub?
  }

  /** Owns a granted stop that is not yet released. */
  predicate Holds(pc: Pc) {
    || pc.NotifyIdle? || pc.AwaitLoad? || pc.AwaitPark? || pc.AwaitAsleep? || pc.AwaitDriving?
    || pc.Window? || pc.RelLoad? || pc.RelCas?
  }

  /** From the load that found everyone arrived up to the releasing compare-and-swap. */
  predicate WorldIsItsOwn(pc: Pc) {
    pc.Window? || ((pc.RelLoad? || pc.RelCas?) && pc.owned)
  }

  /** Cannot reach the inside of a task without first testing `requested` and finding no
      stop. `HotPoll` is inside a step, but at a point the task declared safe. */
  predicate Safe(pc: Pc) {
    AtBarrier(pc) || pc.RunTop? || pc.DriveWhile? || pc.HotPoll? || pc.EnterLoad? || pc.EnterAdd? || pc.EnterGone?
  }

  /** Inside `Task::step`, away from a safe point. */
  predicate InStep(pc: Pc) {
    pc.Stepping? || pc.ReqLoad? || pc.ReqCas? || Holds(pc) || pc.RelNotify? || pc.DrainLoad? || pc.DrainNotify?
    || pc.DrainPark? || pc.DrainAsleep?
  }

  function Count(pcs: seq<Pc>, p: Pc -> bool): (n: nat)
    ensures n <= |pcs|
  {
    if |pcs| == 0 then 0 else Count(pcs[..|pcs| - 1], p) + if p(pcs[|pcs| - 1]) then 1 else 0
  }

  lemma {:induction false} CountUpdate(pcs: seq<Pc>, p: Pc -> bool, i: nat, pc: Pc)
    requires i < |pcs|
    ensures Count(pcs[i := pc], p) == Count(pcs, p) - (if p(pcs[i]) then 1 else 0) + (if p(pc) then 1 else 0)
  {
    var n := |pcs| - 1;
    if i == n {
      assert pcs[i := pc][..n] == pcs[..n];
    } else {
      assert pcs[i := pc][..n] == pcs[..n][i := pc];
      CountUpdate(pcs[..n], p, i, pc);
    }
  }

  lemma {:induction false} CountSame(pcs: seq<Pc>, pcs': seq<Pc>, p: Pc -> bool)
    requires |pcs| == |pcs'| && forall i :: 0 <= i < |pcs| ==> p(pcs[i]) == p(pcs'[i])
    ensures Count(pcs, p) == Count(pcs', p)
  {
    if |pcs| > 0 {
      CountSame(pcs[..|pcs| - 1], pcs'[..|pcs| - 1], p);
    }
  }

  /** If all but one are counted, and `i` is not, everyone else is. */
  lemma {:induction false} AllButOne(pcs: seq<Pc>, p: Pc -> bool, i: nat)
    requires i < |pcs| && !p(pcs[i]) && Count(pcs, p) >= |pcs| - 1
    ensures forall j :: 0 <= j < |pcs| && j != i ==> p(pcs[j])
  {
    forall j | 0 <= j < |pcs| && j != i
      ensures p(pcs[j])
    {
      if !p(pcs[j]) {
        TwoMissing(pcs, p, i, j);
      }
    }
  }

  lemma {:induction false} OneMissing(pcs: seq<Pc>, p: Pc -> bool, i: nat)
    requires i < |pcs| && !p(pcs[i])
    ensures Count(pcs, p) <= |pcs| - 1
  {
    if i < |pcs| - 1 {
      OneMissing(pcs[..|pcs| - 1], p, i);
    }
  }

  lemma {:induction false} TwoMissing(pcs: seq<Pc>, p: Pc -> bool, i: nat, j: nat)
    requires i < |pcs| && j < |pcs| && i != j && !p(pcs[i]) && !p(pcs[j])
    ensures Count(pcs, p) <= |pcs| - 2
  {
    var n := |pcs| - 1;
    if i == n {
      OneMissing(pcs[..n], p, j);
    } else if j == n {
      OneMissing(pcs[..n], p, i);
    } else {
      TwoMissing(pcs[..n], p, i, j);
    }
  }

  lemma {:induction false} SomeCounted(pcs: seq<Pc>, p: Pc -> bool, i: nat)
    requires i < |pcs| && p(pcs[i])
    ensures Count(pcs, p) >= 1
  {
    if i < |pcs| - 1 {
      SomeCounted(pcs[..|pcs| - 1], p, i);
    }
  }

  lemma {:induction false} TwoCounted(pcs: seq<Pc>, p: Pc -> bool, i: nat, j: nat)
    requires i < |pcs| && j < |pcs| && i != j && p(pcs[i]) && p(pcs[j])
    ensures Count(pcs, p) >= 2
  {
    var n := |pcs| - 1;
    if i == n {
      SomeCounted(pcs[..n], p, j);
    } else if j == n {
      SomeCounted(pcs[..n], p, i);
    } else {
      TwoCounted(pcs[..n], p, i, j);
    }
  }

  // ── The inductive invariant ──────────────────────────────────────────

  ghost predicate Shape(s: State) {
    && |s.pcs| == |s.roles| && 0 < |s.pcs| < WORD && 0 <= s.word < WORD
  }

  ghost predicate Counts(s: State) {
    && s.stopped == Count(s.pcs, AtBarrier)
    && s.word % 2 == Count(s.pcs, Holds)
  }

  ghost predicate ReleaseOk(s: State) {
    forall i :: 0 <= i < |s.pcs| && s.pcs[i].RelCas? ==> s.pcs[i].seen == s.word
  }

  ghost predicate SomeoneAt(pcs: seq<Pc>, p: Pc -> bool) {
    exists k :: 0 <= k < |pcs| && p(pcs[k])
  }

  predicate AboutToNotifyWord(pc: Pc) { pc.RelNotify? }

  predicate AboutToNotifyCount(pc: Pc) { pc.EnterNotify? || pc.EnterGone? }

  /** Whoever sleeps, sleeps on a value that still stands, or is about to be woken. */
  ghost predicate SleepersOk(s: State) {
    && (forall i :: 0 <= i < |s.pcs| && s.pcs[i].EnterAsleep? ==>
         s.pcs[i].snap == s.word || SomeoneAt(s.pcs, AboutToNotifyWord))
    && (forall i :: 0 <= i < |s.pcs| && (s.pcs[i].AwaitAsleep? || s.pcs[i].DrainAsleep?) ==>
         s.pcs[i].count == s.stopped || SomeoneAt(s.pcs, AboutToNotifyCount))
  }

  /** Every snapshot was taken while a stop was pending. */
  ghost predicate SnapsOdd(s: State) {
    forall i :: 0 <= i < |s.pcs| ==> SnapOdd(s.pcs[i])
  }

  predicate SnapOdd(pc: Pc) {
    AtBarrier(pc) || pc.EnterAdd? ==> Pending(pc.snap)
  }

  ghost predicate Inv(s: State) {
    Shape(s) && Counts(s) && ReleaseOk(s) && SnapsOdd(s) && SleepersOk(s)
  }

  lemma {:induction false} CountNone(pcs: seq<Pc>, p: Pc -> bool)
    requires forall i :: 0 <= i < |pcs| ==> !p(pcs[i])
    ensures Count(pcs, p) == 0
  {
    if |pcs| > 0 {
      CountNone(pcs[..|pcs| - 1], p);
    }
  }

  lemma InitInv(s: State)
    requires Init(s)
    ensures Inv(s)
  {
    CountNone(s.pcs, AtBarrier);
    CountNone(s.pcs, Holds);
  }

  // ── Preservation, conjunct by conjunct ───────────────────────────────

  /** Waking sleepers moves no one in or out of the barrier, and no one into or out of
      holding a stop. */
  lemma WakingKeepsCounts(pcs: seq<Pc>)
    ensures Count(WakeOnCount(pcs), AtBarrier) == Count(pcs, AtBarrier)
    ensures Count(WakeOnCount(pcs), Holds) == Count(pcs, Holds)
    ensures Count(WakeOnWord(pcs), AtBarrier) == Count(pcs, AtBarrier)
    ensures Count(WakeOnWord(pcs), Holds) == Count(pcs, Holds)
  {
    CountSame(pcs, WakeOnCount(pcs), AtBarrier);
    CountSame(pcs, WakeOnCount(pcs), Holds);
    CountSame(pcs, WakeOnWord(pcs), AtBarrier);
    CountSame(pcs, WakeOnWord(pcs), Holds);
  }

  function One(b: bool): int { if b then 1 else 0 }

  /** The word's parity follows the holding of a stop. */
  lemma WordFollows(s: State, i: nat, c: Choice)
    requires Shape(s) && i < |s.pcs|
    requires s.pcs[i].RelCas? ==> s.pcs[i].seen == s.word && Pending(s.word)
    ensures 0 <= WordAfter(s, i, c) < WORD
    ensures WordAfter(s, i, c) % 2 == s.word % 2 + One(Holds(Landing(s, i, c))) - One(Holds(s.pcs[i]))
  {
  }

  /** The count follows arrivals and departures. */
  lemma CountFollows(s: State, i: nat, c: Choice)
    requires Shape(s) && i < |s.pcs|
    requires One(AtBarrier(s.pcs[i])) <= s.stopped <= |s.pcs| - 1 + One(AtBarrier(s.pcs[i]))
    ensures StoppedAfter(s, i) == s.stopped + One(AtBarrier(Landing(s, i, c))) - One(AtBarrier(s.pcs[i]))
  {
  }

  lemma CountsMove(s: State, i: nat, c: Choice)
    requires i < |s.pcs| == |s.roles|
    ensures var s', pc := Step(s, i, c), Landing(s, i, c);
            && Count(s'.pcs, AtBarrier) == Count(s.pcs, AtBarrier) - One(AtBarrier(s.pcs[i])) + One(AtBarrier(pc))
            && Count(s'.pcs, Holds) == Count(s.pcs, Holds) - One(Holds(s.pcs[i])) + One(Holds(pc))
  {
    hide Landing;
    hide WakeOnCount;
    hide WakeOnWord;
    hide Holds;
    hide AtBarrier;
    hide WordAfter;
    hide StoppedAfter;
    var pc := Landing(s, i, c);
    CountUpdate(s.pcs, AtBarrier, i, pc);
    CountUpdate(s.pcs, Holds, i, pc);
    WakingKeepsCounts(s.pcs[i := pc]);
  }

  lemma ReleaserHolds(s: State, i: nat)
    requires Counts(s) && ReleaseOk(s) && i < |s.pcs|
    ensures s.pcs[i].RelCas? ==> s.pcs[i].seen == s.word && Pending(s.word)
  {
    if s.pcs[i].RelCas? {
      SomeCounted(s.pcs, Holds, i);
    }
  }

  lemma StoppedIsSmall(s: State, i: nat)
    requires Counts(s) && Shape(s) && i < |s.pcs|
    ensures One(AtBarrier(s.pcs[i])) <= s.stopped <= |s.pcs| - 1 + One(AtBarrier(s.pcs[i])) && |s.pcs| < WORD
  {
    hide Holds;
    if AtBarrier(s.pcs[i]) {
      SomeCounted(s.pcs, AtBarrier, i);
    } else {
      OneMissing(s.pcs, AtBarrier, i);
    }
  }

  lemma CountsKept(s: State, i: nat, c: Choice)
    requires Shape(s) && Counts(s) && ReleaseOk(s) && i < |s.pcs|
    ensures Shape(Step(s, i, c)) && Counts(Step(s, i, c))
  {
    hide Landing;
    hide WordAfter;
    hide StoppedAfter;
    hide Notify;
    hide Count;
    hide Holds;
    hide AtBarrier;
    hide ReleaseOk;
    StoppedIsSmall(s, i);
    ReleaserHolds(s, i);
    WordFollows(s, i, c);
    CountFollows(s, i, c);
    CountsMove(s, i, c);
  }

  /** Another agent moves only by being woken. */
  function Woken(pc: Pc): Pc {
    match pc
    case EnterAsleep(ret, snap) => EnterWhile(ret, snap)
    case AwaitAsleep(home, _) => AwaitLoad(home)
    case DrainAsleep(home, _) => DrainLoad(home)
    case _ => pc
  }

  lemma OthersStay(s: State, i: nat, c: Choice)
    requires i < |s.pcs| == |s.roles|
    ensures var s' := Step(s, i, c);
            && |s'.pcs| == |s.pcs| && s'.pcs[i] == Landing(s, i, c)
            && forall j :: 0 <= j < |s.pcs| && j != i ==> s'.pcs[j] == s.pcs[j] || s'.pcs[j] == Woken(s.pcs[j])
  {
  }

  /** At most one agent holds the stop, and it holds it exactly while the word is odd. */
  lemma HolderIsUnique(s: State, i: nat, j: nat)
    requires Counts(s) && i < |s.pcs| && j < |s.pcs| && Holds(s.pcs[i]) && Holds(s.pcs[j])
    ensures i == j && Pending(s.word)
  {
    SomeCounted(s.pcs, Holds, i);
    if i != j {
      TwoCounted(s.pcs, Holds, i, j);
    }
  }

  lemma ReleaseKept(s: State, i: nat, c: Choice)
    requires Inv(s) && i < |s.pcs|
    ensures ReleaseOk(Step(s, i, c))
  {
    hide SleepersOk;
    var s' := Step(s, i, c);
    OthersStay(s, i, c);
    forall j | 0 <= j < |s'.pcs| && s'.pcs[j].RelCas?
      ensures s'.pcs[j].seen == s'.word
    {
      if j != i {
        assert s.pcs[j].RelCas?;
        WordMovesByOwner(s, i, c, j);
      } else if Holds(s.pcs[i]) {
        HolderIsUnique(s, i, i);
      }
    }
  }

  /** While `j` holds a stop, a step of anyone else leaves the word alone. */
  lemma WordMovesByOwner(s: State, i: nat, c: Choice, j: nat)
    requires Inv(s) && i < |s.pcs| && j < |s.pcs| && j != i && Holds(s.pcs[j])
    ensures Step(s, i, c).word == s.word
  {
    hide SleepersOk;
    HolderIsUnique(s, j, j);
    if Holds(s.pcs[i]) {
      HolderIsUnique(s, i, j);
    }
  }

  // ── Sleepers ─────────────────────────────────────────────────────────

  lemma WordSleepersKept(s: State, i: nat, c: Choice)
    requires Inv(s) && i < |s.pcs|
    ensures var s' := Step(s, i, c);
            forall j :: 0 <= j < |s'.pcs| && s'.pcs[j].EnterAsleep? ==>
              s'.pcs[j].snap == s'.word || SomeoneAt(s'.pcs, AboutToNotifyWord)
  {
    var s' := Step(s, i, c);
    OthersStay(s, i, c);
    forall j | 0 <= j < |s'.pcs| && s'.pcs[j].EnterAsleep?
      ensures s'.pcs[j].snap == s'.word || SomeoneAt(s'.pcs, AboutToNotifyWord)
    {
      if j != i {
        assert s'.pcs[j] == s.pcs[j];
        WordSleeperKept(s, i, c, j);
      }
    }
  }

  lemma WordSleeperKept(s: State, i: nat, c: Choice, j: nat)
    requires Inv(s) && i < |s.pcs| && j < |s.pcs| && j != i
    requires s.pcs[j].EnterAsleep? && Step(s, i, c).pcs[j].EnterAsleep?
    ensures s.pcs[j].snap == Step(s, i, c).word || SomeoneAt(Step(s, i, c).pcs, AboutToNotifyWord)
  {
    var s' := Step(s, i, c);
    OthersStay(s, i, c);
    if s'.word == s.word {
      if s.pcs[j].snap != s.word {
        var k :| 0 <= k < |s.pcs| && AboutToNotifyWord(s.pcs[k]);
        assert k != i;
        assert AboutToNotifyWord(s'.pcs[k]);
      }
    } else if s.pcs[i].RelCas? {
      assert AboutToNotifyWord(s'.pcs[i]);
    } else {
      // A new round begins. A sleeper's round is over, so its notification is still to come.
      assert SnapOdd(s.pcs[j]) && s.pcs[i].ReqCas?;
      var k :| 0 <= k < |s.pcs| && AboutToNotifyWord(s.pcs[k]);
      assert AboutToNotifyWord(s'.pcs[k]);
    }
  }

  lemma SnapsKept(s: State, i: nat, c: Choice)
    requires Inv(s) && i < |s.pcs|
    ensures SnapsOdd(Step(s, i, c))
  {
    hide SleepersOk;
    hide Counts;
    var s' := Step(s, i, c);
    OthersStay(s, i, c);
    forall j | 0 <= j < |s'.pcs|
      ensures SnapOdd(s'.pcs[j])
    {
      assert SnapOdd(s.pcs[j]) && SnapOdd(s.pcs[i]);
    }
  }

  predicate SleepsOnCount(pc: Pc) { pc.AwaitAsleep? || pc.DrainAsleep? }

  lemma CountSleeperKept(s: State, i: nat, c: Choice, j: nat)
    requires Inv(s) && i < |s.pcs| && j < |s.pcs| && j != i
    requires SleepsOnCount(s.pcs[j]) && SleepsOnCount(Step(s, i, c).pcs[j])
    ensures Step(s, i, c).pcs[j] == s.pcs[j]
    ensures s.pcs[j].count == Step(s, i, c).stopped || SomeoneAt(Step(s, i, c).pcs, AboutToNotifyCount)
  {
    var s' := Step(s, i, c);
    OthersStay(s, i, c);
    if s.pcs[i].EnterAdd? || s.pcs[i].EnterSub? {
      assert AboutToNotifyCount(s'.pcs[i]);
    } else if s.pcs[j].count != s.stopped {
      var k :| 0 <= k < |s.pcs| && AboutToNotifyCount(s.pcs[k]);
      assert k != i;
      assert AboutToNotifyCount(s'.pcs[k]);
    }
  }

  lemma CountSleepersKept(s: State, i: nat, c: Choice)
    requires Inv(s) && i < |s.pcs|
    ensures var s' := Step(s, i, c);
            forall j :: 0 <= j < |s'.pcs| && SleepsOnCount(s'.pcs[j]) ==>
              s'.pcs[j].count == s'.stopped || SomeoneAt(s'.pcs, AboutToNotifyCount)
  {
    var s' := Step(s, i, c);
    OthersStay(s, i, c);
    forall j | 0 <= j < |s'.pcs| && SleepsOnCount(s'.pcs[j])
      ensures s'.pcs[j].count == s'.stopped || SomeoneAt(s'.pcs, AboutToNotifyCount)
    {
      if j != i {
        assert SleepsOnCount(s.pcs[j]);
        CountSleeperKept(s, i, c, j);
      }
    }
  }

  lemma StepKeepsInv(s: State, i: nat, c: Choice)
    requires Inv(s) && i < |s.pcs|
    ensures Inv(Step(s, i, c))
  {
    CountsKept(s, i, c);
    ReleaseKept(s, i, c);
    SnapsKept(s, i, c);
    WordSleepersKept(s, i, c);
    CountSleepersKept(s, i, c);
    hide Step;
  }

  // ── Whole runs ───────────────────────────────────────────────────────

  /** Any interleaving: any agent moves next, with any choice. */
  ghost predicate IsRun(run: seq<State>) {
    && |run| > 0 && Init(run[0])
    && (forall k :: 0 <= k < |run| ==> |run[k].pcs| == |run[k].roles|)
    && (forall k :: 0 <= k < |run| - 1 ==> Next(run[k], run[k + 1]))
  }

  ghost predicate Next(s: State, s': State)
    requires |s.pcs| == |s.roles|
  {
    exists i: nat, c: Choice :: i < |s.pcs| && s' == Step(s, i, c)
  }

  lemma {:induction false} RunInv(run: seq<State>, k: nat)
    requires IsRun(run) && k < |run|
    ensures Inv(run[k])
  {
    if k == 0 {
      InitInv(run[0]);
    } else {
      RunInv(run, k - 1);
      assert Next(run[k - 1], run[k - 1 + 1]);
      var i: nat, c: Choice :| i < |run[k - 1].pcs| && run[k] == Step(run[k - 1], i, c);
      StepKeepsInv(run[k - 1], i, c);
    }
  }

  /** Two hosts never both own the world. */
  lemma OneOwner(run: seq<State>, k: nat, i: nat, j: nat)
    requires IsRun(run) && k < |run| && i < |run[k].pcs| && j < |run[k].pcs|
    requires Holds(run[k].pcs[i]) && Holds(run[k].pcs[j])
    ensures i == j
  {
    RunInv(run, k);
    HolderIsUnique(run[k], i, j);
  }

  /** The word is odd exactly while one granted stop is unreleased. */
  lemma OddIffHeld(run: seq<State>, k: nat)
    requires IsRun(run) && k < |run|
    ensures Pending(run[k].word) <==> SomeoneAt(run[k].pcs, Holds)
    ensures Count(run[k].pcs, Holds) <= 1
  {
    RunInv(run, k);
    if Pending(run[k].word) && !SomeoneAt(run[k].pcs, Holds) {
      CountNone(run[k].pcs, Holds);
    }
    if i: nat :| i < |run[k].pcs| && Holds(run[k].pcs[i]) {
      HolderIsUnique(run[k], i, i);
    }
  }

  /** `release` returns only from a load of the count that found the barrier empty: nobody
      of this round, and nobody left over from an earlier one, is still counted. */
  lemma ReleaseDrains(run: seq<State>, k: nat, i: nat, c: Choice)
    requires IsRun(run) && k < |run| && i < |run[k].pcs| && run[k].pcs[i].DrainLoad?
    requires Step(run[k], i, c).pcs[i] == Back(run[k].pcs[i].home)
    ensures forall j :: 0 <= j < |run[k].pcs| ==> !AtBarrier(run[k].pcs[j])
  {
    RunInv(run, k);
    if j :| 0 <= j < |run[k].pcs| && AtBarrier(run[k].pcs[j]) {
      SomeCounted(run[k].pcs, AtBarrier, j);
    }
  }

  /** No sleeper at the barrier is forgotten: once nobody is about to notify, whoever
      sleeps in `enter` sleeps on the round still pending, and whoever sleeps on the count
      sleeps on its present value. */
  lemma NoSleeperForgotten(run: seq<State>, k: nat, j: nat)
    requires IsRun(run) && k < |run| && j < |run[k].pcs|
    ensures var s := run[k];
            && (s.pcs[j].EnterAsleep? && !SomeoneAt(s.pcs, AboutToNotifyWord) ==>
                  s.pcs[j].snap == s.word && SomeoneAt(s.pcs, Holds))
            && (SleepsOnCount(s.pcs[j]) && !SomeoneAt(s.pcs, AboutToNotifyCount) ==>
                  s.pcs[j].count == s.stopped == Count(s.pcs, AtBarrier))
  {
    RunInv(run, k);
    OddIffHeld(run, k);
    assert SnapOdd(run[k].pcs[j]);
  }

  // ── The world is stopped: hot loops that test again ──────────────────

  /** While someone owns the world, everyone else is safe. */
  ghost predicate Stopped(s: State) {
    forall i :: 0 <= i < |s.pcs| && WorldIsItsOwn(s.pcs[i]) ==>
      forall j :: 0 <= j < |s.pcs| && j != i ==> Safe(s.pcs[j])
  }

  /** A safe agent stays safe while a stop is pending. */
  lemma SafeStaysSafe(s: State, i: nat, c: Choice)
    requires i < |s.pcs| == |s.roles| && Safe(s.pcs[i]) && Pending(s.word) && s.rechecks
    ensures Safe(Landing(s, i, c))
  {
  }

  /** An agent comes to own the world only when everyone else stands at the barrier. */
  lemma OwnerArrives(s: State, i: nat, c: Choice)
    requires Inv(s) && i < |s.pcs| && WorldIsItsOwn(Landing(s, i, c)) && !WorldIsItsOwn(s.pcs[i])
    ensures forall j :: 0 <= j < |s.pcs| && j != i ==> AtBarrier(s.pcs[j])
  {
    hide SleepersOk;
    AllButOne(s.pcs, AtBarrier, i);
  }

  lemma StoppedKept(s: State, i: nat, c: Choice)
    requires Inv(s) && Stopped(s) && s.rechecks && i < |s.pcs|
    ensures Stopped(Step(s, i, c))
  {
    hide SleepersOk;
    hide Step;
    var s' := Step(s, i, c);
    OthersStay(s, i, c);
    forall h, j | 0 <= h < |s'.pcs| && WorldIsItsOwn(s'.pcs[h]) && 0 <= j < |s'.pcs| && j != h
      ensures Safe(s'.pcs[j])
    {
      if h != i {
        assert WorldIsItsOwn(s.pcs[h]) && Safe(s.pcs[j]);
        HolderIsUnique(s, h, h);
        if j == i {
          SafeStaysSafe(s, i, c);
        }
      } else if !WorldIsItsOwn(s.pcs[i]) {
        OwnerArrives(s, i, c);
      }
    }
  }

  lemma {:induction false} RunStopped(run: seq<State>, k: nat)
    requires IsRun(run) && run[0].rechecks && k < |run|
    ensures Stopped(run[k]) && run[k].rechecks
  {
    if k > 0 {
      RunStopped(run, k - 1);
      RunInv(run, k - 1);
      assert Next(run[k - 1], run[k - 1 + 1]);
      var i: nat, c: Choice :| i < |run[k - 1].pcs| && run[k] == Step(run[k - 1], i, c);
      StoppedKept(run[k - 1], i, c);
    }
  }

  // ── The world is stopped: hosts that never give up ───────────────────

  /** Releases a stop without having found everyone arrived. */
  predicate GivesUp(pc: Pc) { (pc.RelLoad? || pc.RelCas?) && !pc.owned }

  ghost predicate NobodyGivesUp(s: State) {
    forall i :: 0 <= i < |s.pcs| ==> !GivesUp(s.pcs[i])
  }

  ghost predicate NeverGivenUp(run: seq<State>) {
    forall k :: 0 <= k < |run| ==> NobodyGivesUp(run[k])
  }

  /** Has released a stop and waits for the barrier to empty. */
  predicate Drains(pc: Pc) {
    pc.RelNotify? || pc.DrainLoad? || pc.DrainNotify? || pc.DrainPark? || pc.DrainAsleep?
  }

  /** At the barrier, and on its way out. */
  predicate Leaving(pc: Pc, word: int) { AtBarrier(pc) && (pc.EnterSub? || pc.snap != word) }

  /** At the barrier for the round now pending. */
  predicate Waits(pc: Pc, word: int) { AtBarrier(pc) && !pc.EnterSub? && pc.snap == word }

  /** Nobody arrives late: who is about to arrive has seen the pending round. Who is on its way
      out is waited for by the one who released it. Whoever owns the world, the others wait. */
  ghost predicate Settled(s: State) {
    && (forall i :: 0 <= i < |s.pcs| && s.pcs[i].EnterAdd? ==> s.pcs[i].snap == s.word)
    && (forall i :: 0 <= i < |s.pcs| && Leaving(s.pcs[i], s.word) ==> SomeoneAt(s.pcs, Drains))
    && (forall h, j :: 0 <= h < |s.pcs| && WorldIsItsOwn(s.pcs[h]) && 0 <= j < |s.pcs| && j != h ==>
          Waits(s.pcs[j], s.word))
  }

  lemma ArrivalsKept(s: State, i: nat, c: Choice, j: nat)
    requires Inv(s) && Settled(s) && NobodyGivesUp(s) && i < |s.pcs| && j < |s.pcs|
    requires Step(s, i, c).pcs[j].EnterAdd?
    ensures Step(s, i, c).pcs[j].snap == Step(s, i, c).word
  {
    hide SleepersOk;
    OthersStay(s, i, c);
    if j != i {
      assert SnapOdd(s.pcs[j]);
    }
  }

  lemma DrainerDrains(s: State, i: nat, c: Choice)
    requires i < |s.pcs| == |s.roles| && Drains(s.pcs[i]) && s.stopped != 0
    ensures Drains(Landing(s, i, c))
  {
  }

  lemma WokenDrains(pc: Pc)
    ensures Drains(Woken(pc)) == Drains(pc)
  {
  }

  /** Whoever drains goes on draining as long as somebody is at the barrier. */
  lemma DrainGoesOn(s: State, i: nat, c: Choice, j: nat)
    requires Inv(s) && i < |s.pcs| && j < |s.pcs| && AtBarrier(s.pcs[j]) && SomeoneAt(s.pcs, Drains)
    ensures SomeoneAt(Step(s, i, c).pcs, Drains)
  {
    SomeCounted(s.pcs, AtBarrier, j);
    OthersStay(s, i, c);
    hide Landing, WordAfter, StoppedAfter, Notify, SleepersOk, SnapsOdd, ReleaseOk, Drains, AtBarrier, Woken;
    var d :| 0 <= d < |s.pcs| && Drains(s.pcs[d]);
    WokenDrains(s.pcs[d]);
    if d == i {
      DrainerDrains(s, i, c);
    }
    assert Drains(Step(s, i, c).pcs[d]);
  }

  /** An agent gets to leave only if the round it saw is over. */
  lemma LeaverLeft(s: State, i: nat, c: Choice)
    requires i < |s.pcs| == |s.roles| && Leaving(Landing(s, i, c), WordAfter(s, i, c))
    requires s.pcs[i].EnterAdd? ==> s.pcs[i].snap == s.word
    ensures Leaving(s.pcs[i], s.word) && WordAfter(s, i, c) == s.word
  {
  }

  lemma WokenLeaves(pc: Pc, word: int)
    ensures Leaving(Woken(pc), word) ==> Leaving(pc, word)
  {
  }

  /** A round that begins ends nobody's wait. */
  lemma NewRound(s: State, i: nat, c: Choice, j: nat)
    requires i < |s.pcs| == |s.roles| && j < |s.pcs| && SnapOdd(s.pcs[j]) && Leaving(s.pcs[j], WordAfter(s, i, c))
    requires !(s.pcs[i].RelCas? && WordAfter(s, i, c) != s.word)
    ensures Leaving(s.pcs[j], s.word)
  {
  }

  lemma LeaversKept(s: State, i: nat, c: Choice, j: nat)
    requires Inv(s) && Settled(s) && i < |s.pcs| && j < |s.pcs|
    requires Leaving(Step(s, i, c).pcs[j], Step(s, i, c).word)
    ensures SomeoneAt(Step(s, i, c).pcs, Drains)
  {
    hide SleepersOk, Counts, ReleaseOk, Leaving, Woken, Notify, StoppedAfter;
    var s' := Step(s, i, c);
    OthersStay(s, i, c);
    if s.pcs[i].RelCas? && s'.word != s.word {
      assert Drains(s'.pcs[i]);
    } else {
      hide Landing, WordAfter;
      if j == i {
        LeaverLeft(s, i, c);
      } else {
        assert SnapOdd(s.pcs[j]);
        WokenLeaves(s.pcs[j], s'.word);
        NewRound(s, i, c, j);
      }
      LeaverAtBarrier(s.pcs[j], s.word);
      DrainGoesOn(s, i, c, j);
    }
  }

  lemma LeaverAtBarrier(pc: Pc, word: int)
    requires Leaving(pc, word)
    ensures AtBarrier(pc)
  {
  }

  /** Who waits for the pending round goes on waiting. */
  lemma WaiterWaits(s: State, i: nat, c: Choice, j: nat)
    requires i < |s.pcs| == |s.roles| && j < |s.pcs| && Waits(s.pcs[j], s.word) && WordAfter(s, i, c) == s.word
    ensures Waits(Step(s, i, c).pcs[j], s.word)
  {
    OthersStay(s, i, c);
    hide Step;
  }

  /** When the load finds everyone arrived, nobody is on the way out. */
  lemma ArrivedWait(s: State, i: nat, c: Choice, j: nat)
    requires Inv(s) && Settled(s) && i < |s.pcs| && j < |s.pcs| && j != i
    requires WorldIsItsOwn(Landing(s, i, c)) && !WorldIsItsOwn(s.pcs[i])
    ensures Waits(s.pcs[j], s.word)
  {
    OwnerArrives(s, i, c);
    hide SleepersOk, SnapsOdd, Counts, ReleaseOk;
    assert !Drains(s.pcs[i]);
    assert !SomeoneAt(s.pcs, Drains);
  }

  lemma OwnerHolds(pc: Pc)
    ensures WorldIsItsOwn(pc) ==> Holds(pc)
  {
  }

  lemma OwnerKeepsWord(s: State, i: nat, c: Choice)
    requires Shape(s) && i < |s.pcs| && WorldIsItsOwn(Landing(s, i, c))
    ensures Step(s, i, c).word == s.word == WordAfter(s, i, c)
  {
  }

  lemma WaitersKept(s: State, i: nat, c: Choice, h: nat, j: nat)
    requires Inv(s) && Settled(s) && i < |s.pcs| && h < |s.pcs| && j < |s.pcs| && j != h
    requires WorldIsItsOwn(Step(s, i, c).pcs[h])
    ensures Waits(Step(s, i, c).pcs[j], Step(s, i, c).word)
  {
    hide Landing, WordAfter, StoppedAfter, Notify, Waits, Leaving, SleepersOk, SnapsOdd, Counts, ReleaseOk;
    OthersStay(s, i, c);
    OwnerHolds(s.pcs[h]);
    if h != i {
      assert WorldIsItsOwn(s.pcs[h]) && Waits(s.pcs[j], s.word);
      WordMovesByOwner(s, i, c, h);
    } else {
      OwnerKeepsWord(s, i, c);
      if !WorldIsItsOwn(s.pcs[i]) {
        ArrivedWait(s, i, c, j);
      }
    }
    WaiterWaits(s, i, c, j);
  }

  lemma StepLengths(s: State, i: nat, c: Choice)
    requires Shape(s) && i < |s.pcs|
    ensures |Step(s, i, c).pcs| == |s.pcs| == |s.roles|
  {
  }

  lemma SettledKept(s: State, i: nat, c: Choice)
    requires Inv(s) && Settled(s) && NobodyGivesUp(s) && i < |s.pcs|
    ensures Settled(Step(s, i, c))
  {
    hide Shape, Counts, ReleaseOk, SnapsOdd, SleepersOk, Landing, WordAfter, StoppedAfter, Notify, Leaving, Waits;
    assert Shape(s);
    StepLengths(s, i, c);
    var s' := Step(s, i, c);
    forall j | 0 <= j < |s'.pcs| && s'.pcs[j].EnterAdd?
      ensures s'.pcs[j].snap == s'.word
    {
      ArrivalsKept(s, i, c, j);
    }
    forall j | 0 <= j < |s'.pcs| && Leaving(s'.pcs[j], s'.word)
      ensures SomeoneAt(s'.pcs, Drains)
    {
      LeaversKept(s, i, c, j);
    }
    forall h, j | 0 <= h < |s'.pcs| && WorldIsItsOwn(s'.pcs[h]) && 0 <= j < |s'.pcs| && j != h
      ensures Waits(s'.pcs[j], s'.word)
    {
      WaitersKept(s, i, c, h, j);
    }
  }

  lemma {:induction false} RunSettled(run: seq<State>, k: nat)
    requires IsRun(run) && NeverGivenUp(run) && k < |run|
    ensures Settled(run[k])
  {
    if k > 0 {
      RunSettled(run, k - 1);
      RunInv(run, k - 1);
      assert Next(run[k - 1], run[k - 1 + 1]);
      var i: nat, c: Choice :| i < |run[k - 1].pcs| && run[k] == Step(run[k - 1], i, c);
      SettledKept(run[k - 1], i, c);
    }
  }

  /** Stop-the-world safety. Hot loops test `requested` again after `enter`, or no stop of the
      run is given up before all have arrived. Then in every state of the run, from the load
      that found all arrived up to the release, no agent other than the one running the
      collection is inside a task (away from a declared safe point), or can get there without
      finding the stop released. With loops that test again this is so even if arrivals left
      over from an earlier round were counted. */
  lemma StopTheWorldIsSafe(run: seq<State>, k: nat, owner: nat, j: nat)
    requires IsRun(run) && (run[0].rechecks || NeverGivenUp(run)) && k < |run|
    requires owner < |run[k].pcs| && WorldIsItsOwn(run[k].pcs[owner])
    requires j < |run[k].pcs| && j != owner
    ensures Safe(run[k].pcs[j]) && !InStep(run[k].pcs[j]) && Pending(run[k].word)
  {
    RunInv(run, k);
    HolderIsUnique(run[k], owner, owner);
    if run[0].rechecks {
      RunStopped(run, k);
    } else {
      RunSettled(run, k);
    }
    hide IsRun, NeverGivenUp, SleepersOk;
  }

  // ── Which clusters can be unsafe ─────────────────────────────────────

  predicate AtMostOneMain(roles: seq<Role>) {
    forall i, j :: 0 <= i < |roles| && 0 <= j < |roles| && roles[i].Main? && roles[j].Main? ==> i == j
  }

  /** Places of workers only: `run`, and hot loops, which block. */
  predicate ForWorkers(pc: Pc) { Safe(pc) || pc.Idle? }

  /** Main agents never arrive, and so the world is stopped around at most one of them. */
  ghost predicate MainsStayOut(s: State) {
    && |s.pcs| == |s.roles|
    && (forall i :: 0 <= i < |s.pcs| && s.roles[i].Main? ==> !ForWorkers(s.pcs[i]))
    && (forall h, j :: 0 <= h < |s.pcs| && WorldIsItsOwn(s.pcs[h]) && 0 <= j < |s.pcs| && j != h ==> s.roles[j].Worker?)
  }

  lemma MainStaysOut(s: State, i: nat, c: Choice)
    requires i < |s.pcs| == |s.roles| && s.roles[i].Main? && !ForWorkers(s.pcs[i])
    ensures !ForWorkers(Landing(s, i, c))
  {
  }

  lemma WokenStaysOut(pc: Pc)
    ensures ForWorkers(Woken(pc)) == ForWorkers(pc) && WorldIsItsOwn(Woken(pc)) == WorldIsItsOwn(pc)
  {
  }

  lemma AloneKept(s: State, i: nat, c: Choice, j: nat)
    requires Inv(s) && MainsStayOut(s) && i < |s.pcs| && j < |s.pcs| && j != i && WorldIsItsOwn(Landing(s, i, c))
    ensures s.roles[j].Worker?
  {
    if !WorldIsItsOwn(s.pcs[i]) {
      OwnerArrives(s, i, c);
      assert ForWorkers(s.pcs[j]);
    }
  }

  lemma MainsStayOutKept(s: State, i: nat, c: Choice)
    requires Inv(s) && MainsStayOut(s) && i < |s.pcs|
    ensures MainsStayOut(Step(s, i, c))
  {
    hide Landing, WordAfter, StoppedAfter, Notify, ForWorkers, WorldIsItsOwn, Shape, Woken, Counts, ReleaseOk, SnapsOdd,
         SleepersOk;
    var s' := Step(s, i, c);
    OthersStay(s, i, c);
    forall j | 0 <= j < |s'.pcs| && s'.roles[j].Main?
      ensures !ForWorkers(s'.pcs[j])
    {
      WokenStaysOut(s.pcs[j]);
      if j == i {
        MainStaysOut(s, i, c);
      }
    }
    forall h, j | 0 <= h < |s'.pcs| && WorldIsItsOwn(s'.pcs[h]) && 0 <= j < |s'.pcs| && j != h
      ensures s'.roles[j].Worker?
    {
      WokenStaysOut(s.pcs[h]);
      if h == i {
        AloneKept(s, i, c, j);
      }
    }
  }

  lemma {:induction false} RunMainsStayOut(run: seq<State>, k: nat)
    requires IsRun(run) && k < |run|
    ensures MainsStayOut(run[k]) && run[k].roles == run[0].roles
  {
    if k > 0 {
      RunMainsStayOut(run, k - 1);
      RunInv(run, k - 1);
      assert Next(run[k - 1], run[k - 1 + 1]);
      var i: nat, c: Choice :| i < |run[k - 1].pcs| && run[k] == Step(run[k - 1], i, c);
      MainsStayOutKept(run[k - 1], i, c);
    }
  }

  /** Someone owns the world while another agent is inside its step. */
  ghost predicate Exposed(s: State) {
    exists h, j :: 0 <= h < |s.pcs| && 0 <= j < |s.pcs| && j != h && WorldIsItsOwn(s.pcs[h]) && InStep(s.pcs[j])
  }

  /** A run of the cluster with these agents that ends in a collection amid running tasks. */
  ghost predicate Unsafe(run: seq<State>, roles: seq<Role>, rechecks: bool) {
    IsRun(run) && run[0].roles == roles && run[0].rechecks == rechecks && Exposed(run[|run| - 1])
  }

  // A run in which it happens: the owner `o`, a worker `l` in a hot loop, and the other
  // workers, of which those before `m` have arrived.

  datatype Cast = Cast(roles: seq<Role>, o: nat, l: nat)

  ghost predicate CastOk(who: Cast) {
    && |who.roles| < WORD && who.o < |who.roles| && who.l < |who.roles| && who.o != who.l
    && forall k :: 0 <= k < |who.roles| && k != who.o ==> who.roles[k].Worker?
  }

  function Rest(m: nat, k: nat): Pc { if k < m then EnterNotify(ToRun, 3) else RunTop }

  function Places(who: Cast, m: nat, owner: Pc, loop: Pc): (r: seq<Pc>)
    ensures |r| == |who.roles|
    ensures forall k :: 0 <= k < |r| ==> r[k] == if k == who.o then owner else if k == who.l then loop else Rest(m, k)
  {
    seq(|who.roles|, k requires 0 <= k < |who.roles| => if k == who.o then owner else if k == who.l then loop
        else Rest(m, k))
  }

  function Scene(who: Cast, m: nat, owner: Pc, loop: Pc, word: int, stopped: int): State {
    State(word, stopped, Places(who, m, owner, loop), who.roles, false)
  }

  predicate Awake(pc: Pc) { !pc.EnterAsleep? && !pc.AwaitAsleep? && !pc.DrainAsleep? }

  lemma NobodySleeps(pcs: seq<Pc>, pc: Pc)
    requires forall k :: 0 <= k < |pcs| ==> Awake(pcs[k])
    ensures Notify(pc, pcs) == pcs
  {
    assert WakeOnWord(pcs) == pcs && WakeOnCount(pcs) == pcs;
  }

  ghost predicate IsPath(path: seq<State>) {
    && |path| > 0
    && (forall k :: 0 <= k < |path| ==> |path[k].pcs| == |path[k].roles|)
    && (forall k :: 0 <= k < |path| - 1 ==> Next(path[k], path[k + 1]))
  }

  lemma Then(path: seq<State>, i: nat, c: Choice, s: State) returns (path': seq<State>)
    requires IsPath(path) && i < |path[|path| - 1].pcs|
    requires s == Step(path[|path| - 1], i, c)
    ensures IsPath(path') && path'[0] == path[0] && path'[|path'| - 1] == s
  {
    path' := path + [s];
    assert Next(path[|path| - 1], s);
  }

  /** The owner's next access. */
  lemma OwnerMoves(path: seq<State>, who: Cast, m: nat, owner: Pc, loop: Pc, word: int, stopped: int, c: Choice,
                   owner': Pc, word': int)
    returns (path': seq<State>)
    requires CastOk(who) && IsPath(path) && path[|path| - 1] == Scene(who, m, owner, loop, word, stopped)
    requires var s := Scene(who, m, owner, loop, word, stopped);
             owner' == Landing(s, who.o, c) && word' == WordAfter(s, who.o, c)
    requires Awake(owner') && Awake(loop) && !owner.EnterAdd? && !owner.EnterSub?
    ensures IsPath(path') && path'[0] == path[0] && path'[|path'| - 1] == Scene(who, m, owner', loop, word', stopped)
  {
    var s := Scene(who, m, owner, loop, word, stopped);
    NobodySleeps(Places(who, m, owner', loop), owner);
    assert s.pcs[who.o := owner'] == Places(who, m, owner', loop);
    hide Landing, WordAfter;
    path' := Then(path, who.o, c, Scene(who, m, owner', loop, word', stopped));
  }

  /** The hot loop's next access. */
  lemma LoopMoves(path: seq<State>, who: Cast, m: nat, owner: Pc, loop: Pc, word: int, stopped: int, c: Choice,
                  loop': Pc, stopped': int)
    returns (path': seq<State>)
    requires CastOk(who) && IsPath(path) && path[|path| - 1] == Scene(who, m, owner, loop, word, stopped)
    requires var s := Scene(who, m, owner, loop, word, stopped);
             loop' == Landing(s, who.l, c) && stopped' == StoppedAfter(s, who.l)
    requires Awake(owner) && Awake(loop') && !loop.ReqCas? && !loop.RelCas?
    ensures IsPath(path') && path'[0] == path[0] && path'[|path'| - 1] == Scene(who, m, owner, loop', word, stopped')
  {
    var s := Scene(who, m, owner, loop, word, stopped);
    NobodySleeps(Places(who, m, owner, loop'), loop);
    assert s.pcs[who.l := loop'] == Places(who, m, owner, loop');
    hide Landing, StoppedAfter;
    path' := Then(path, who.l, c, Scene(who, m, owner, loop', word, stopped'));
  }

  /** Worker `m`, about to test `requested` at the head of `run`, arrives. */
  lemma WorkerArrives(path: seq<State>, who: Cast, m: nat, owner: Pc, loop: Pc, stopped: nat)
    returns (path': seq<State>)
    requires CastOk(who) && IsPath(path) && path[|path| - 1] == Scene(who, m, owner, loop, 3, stopped)
    requires m < |who.roles| && m != who.o && m != who.l && stopped < |who.roles| && Awake(owner) && Awake(loop)
    ensures IsPath(path') && path'[0] == path[0] && path'[|path'| - 1] == Scene(who, m + 1, owner, loop, 3, stopped + 1)
  {
    var s0 := Scene(who, m, owner, loop, 3, stopped);
    var s1 := s0.(pcs := s0.pcs[m := EnterLoad(ToRun)]);
    var s2 := s1.(pcs := s1.pcs[m := EnterAdd(ToRun, 3)]);
    var s3 := s2.(pcs := s2.pcs[m := EnterNotify(ToRun, 3)], stopped := stopped + 1);
    assert s3.pcs == Places(who, m + 1, owner, loop);
    path' := Then(path, m, First, s1);
    path' := Then(path', m, First, s2);
    path' := Then(path', m, First, s3);
  }

  /** How many of the agents before `m` are neither the owner nor the loop. */
  function Others(who: Cast, m: nat): nat
    requires who.o != who.l
  {
    m - (if who.o < m then 1 else 0) - (if who.l < m then 1 else 0)
  }

  lemma SamePlaces(who: Cast, m: nat, owner: Pc, loop: Pc)
    requires m == who.o || m == who.l
    ensures Places(who, m + 1, owner, loop) == Places(who, m, owner, loop)
  {
  }

  lemma {:induction false} WorkersArrive(path: seq<State>, who: Cast, m: nat, owner: Pc, loop: Pc)
    returns (path': seq<State>)
    requires CastOk(who) && m <= |who.roles| && Awake(owner) && Awake(loop)
    requires IsPath(path) && path[|path| - 1] == Scene(who, 0, owner, loop, 3, 0)
    ensures IsPath(path') && path'[0] == path[0] && path'[|path'| - 1] == Scene(who, m, owner, loop, 3, Others(who, m))
  {
    hide Places, IsPath, Awake;
    if m == 0 {
      path' := path;
    } else {
      path' := WorkersArrive(path, who, m - 1, owner, loop);
      if m - 1 == who.o || m - 1 == who.l {
        SamePlaces(who, m - 1, owner, loop);
      } else {
        path' := WorkerArrives(path', who, m - 1, owner, loop, Others(who, m - 1));
      }
    }
  }

  /** Where the host calls from: its own loop, or a task of its worker. */
  function HomeOf(who: Cast): Home
    requires CastOk(who)
  {
    if who.roles[who.o].Main? then HostLoop else InTask
  }

  function AtStart(who: Cast): Pc
    requires CastOk(who)
  {
    if who.roles[who.o].Main? then MainIdle else RunTop
  }

  /** The owner gets to where it can request a stop. */
  lemma HostIsReady(who: Cast) returns (path: seq<State>)
    requires CastOk(who)
    ensures IsPath(path) && path[0] == Scene(who, 0, AtStart(who), RunTop, 0, 0)
    ensures path[|path| - 1] == Scene(who, 0, Back(HomeOf(who)), Stepping, 0, 0)
  {
    path := [Scene(who, 0, AtStart(who), RunTop, 0, 0)];
    if who.roles[who.o].Worker? {
      path := OwnerMoves(path, who, 0, RunTop, RunTop, 0, 0, First, NextJob, 0);
      path := OwnerMoves(path, who, 0, NextJob, RunTop, 0, 0, First, Stepping, 0);
    }
    path := LoopMoves(path, who, 0, Back(HomeOf(who)), RunTop, 0, 0, First, NextJob, 0);
    path := LoopMoves(path, who, 0, Back(HomeOf(who)), NextJob, 0, 0, First, Stepping, 0);
  }

  /** The owner's request is granted. */
  lemma HostRequests(path: seq<State>, who: Cast, loop: Pc, word: nat) returns (path': seq<State>)
    requires CastOk(who) && Awake(loop) && !Pending(word) && word < WORD - 1
    requires IsPath(path) && path[|path| - 1] == Scene(who, 0, Back(HomeOf(who)), loop, word, 0)
    ensures IsPath(path') && path'[0] == path[0]
    ensures path'[|path'| - 1] == Scene(who, 0, NotifyIdle(HomeOf(who)), loop, word + 1, 0)
  {
    hide IsPath, Notify;
    var home := HomeOf(who);
    path' := OwnerMoves(path, who, 0, Back(home), loop, word, 0, Third, ReqLoad(home), word);
    path' := OwnerMoves(path', who, 0, ReqLoad(home), loop, word, 0, First, ReqCas(home, word), word);
    path' := OwnerMoves(path', who, 0, ReqCas(home, word), loop, word, 0, First, NotifyIdle(home), word + 1);
  }

  /** The loop sees the first round. */
  lemma LoopOnItsWayIn(who: Cast) returns (path: seq<State>)
    requires CastOk(who)
    ensures IsPath(path) && path[0] == Scene(who, 0, AtStart(who), RunTop, 0, 0)
    ensures path[|path| - 1] == Scene(who, 0, NotifyIdle(HomeOf(who)), EnterAdd(ToHotLoop, 1), 1, 0)
  {
    hide IsPath;
    var home := HomeOf(who);
    path := HostIsReady(who);
    path := HostRequests(path, who, Stepping, 0);
    path := LoopMoves(path, who, 0, NotifyIdle(home), Stepping, 1, 0, Second, HotPoll, 0);
    path := LoopMoves(path, who, 0, NotifyIdle(home), HotPoll, 1, 0, First, EnterLoad(ToHotLoop), 0);
    path := LoopMoves(path, who, 0, NotifyIdle(home), EnterLoad(ToHotLoop), 1, 0, First, EnterAdd(ToHotLoop, 1), 0);
  }

  /** The owner gives that round up. */
  lemma HostGivesUpARound(who: Cast) returns (path: seq<State>)
    requires CastOk(who)
    ensures IsPath(path) && path[0] == Scene(who, 0, AtStart(who), RunTop, 0, 0)
    ensures path[|path| - 1] == Scene(who, 0, Back(HomeOf(who)), EnterAdd(ToHotLoop, 1), 2, 0)
  {
    hide IsPath;
    var home := HomeOf(who);
    var late := EnterAdd(ToHotLoop, 1);
    path := LoopOnItsWayIn(who);
    path := OwnerMoves(path, who, 0, NotifyIdle(home), late, 1, 0, First, AwaitLoad(home), 1);
    path := OwnerMoves(path, who, 0, AwaitLoad(home), late, 1, 0, Second, RelLoad(home, false), 1);
    path := OwnerMoves(path, who, 0, RelLoad(home, false), late, 1, 0, First, RelCas(home, false, 1), 1);
    path := OwnerMoves(path, who, 0, RelCas(home, false, 1), late, 1, 0, First, RelNotify(home), 2);
    path := OwnerMoves(path, who, 0, RelNotify(home), late, 2, 0, First, DrainLoad(home), 2);
    path := OwnerMoves(path, who, 0, DrainLoad(home), late, 2, 0, First, Back(home), 2);
  }

  /** Counted into a round that is not its own, the loop is waved through. */
  lemma LoopSlipsThrough(path: seq<State>, who: Cast) returns (path': seq<State>)
    requires CastOk(who) && IsPath(path)
    requires var n := |who.roles|;
             path[|path| - 1] == Scene(who, n, Window(HomeOf(who)), EnterNotify(ToHotLoop, 1), 3, n - 1)
    ensures IsPath(path') && path'[0] == path[0]
    ensures var n := |who.roles|; path'[|path'| - 1] == Scene(who, n, Window(HomeOf(who)), Stepping, 3, n - 2)
  {
    hide IsPath;
    var own, n := Window(HomeOf(who)), |who.roles|;
    path' := LoopMoves(path, who, n, own, EnterNotify(ToHotLoop, 1), 3, n - 1, First, EnterIf(ToHotLoop, 1), n - 1);
    path' := LoopMoves(path', who, n, own, EnterIf(ToHotLoop, 1), 3, n - 1, First, EnterSub(ToHotLoop, 1), n - 1);
    path' := LoopMoves(path', who, n, own, EnterSub(ToHotLoop, 1), 3, n - 1, First, EnterGone(ToHotLoop), n - 2);
    path' := LoopMoves(path', who, n, own, EnterGone(ToHotLoop), 3, n - 2, First, Stepping, n - 2);
  }

  /** A hot loop that polls with a single `if` is not enough, in any cluster of two agents or
      more of which at most one is a main agent. A host requests a stop and gives it up while
      the loop is on its way in; the loop then counts itself into the next round, is waved
      through because its own round is over, and is back inside its step while the collection
      runs. */
  lemma SinglePollIsNotEnough(who: Cast) returns (path: seq<State>)
    requires CastOk(who)
    ensures IsPath(path) && path[0] == Scene(who, 0, AtStart(who), RunTop, 0, 0)
    ensures var end := path[|path| - 1];
            |end.pcs| == |who.roles| && end.pcs[who.o].Window? && end.pcs[who.l] == Stepping
  {
    hide IsPath;
    var home, n := HomeOf(who), |who.roles|;
    var late := EnterAdd(ToHotLoop, 1);
    path := HostGivesUpARound(who);
    path := HostRequests(path, who, late, 2);
    path := OwnerMoves(path, who, 0, NotifyIdle(home), late, 3, 0, First, AwaitLoad(home), 3);
    path := WorkersArrive(path, who, n, AwaitLoad(home), late);
    path := LoopMoves(path, who, n, AwaitLoad(home), late, 3, n - 2, First, EnterNotify(ToHotLoop, 1), n - 1);
    path := OwnerMoves(path, who, n, AwaitLoad(home), EnterNotify(ToHotLoop, 1), 3, n - 1, First, Window(home), 3);
    path := LoopSlipsThrough(path, who);
  }

  /** An owner and a hot loop for a cluster: its main agent, if it has one, and a worker. */
  lemma CastFor(roles: seq<Role>) returns (who: Cast)
    requires 2 <= |roles| < WORD && AtMostOneMain(roles)
    ensures CastOk(who) && who.roles == roles
  {
    if i: nat :| i < |roles| && roles[i].Main? {
      who := Cast(roles, i, if i == 0 then 1 else 0);
    } else {
      who := Cast(roles, 0, 1);
    }
  }

  /** Which clusters can run a collection amid running tasks: exactly those of two agents or
      more, at most one of them a main agent, whose hot loops poll with a single `if`. (With
      two main agents, which never arrive, no collection ever begins.) */
  lemma UnsafeIff(roles: seq<Role>, rechecks: bool)
    requires 0 < |roles| < WORD
    ensures (exists run :: Unsafe(run, roles, rechecks)) <==> !rechecks && |roles| >= 2 && AtMostOneMain(roles)
  {
    if !rechecks && |roles| >= 2 && AtMostOneMain(roles) {
      var who := CastFor(roles);
      var run := SinglePollIsNotEnough(who);
      var end := run[|run| - 1];
      assert WorldIsItsOwn(end.pcs[who.o]) && InStep(end.pcs[who.l]);
      assert Unsafe(run, roles, rechecks);
    }
    if run :| Unsafe(run, roles, rechecks) {
      UnsafeNeeds(run, roles, rechecks);
    }
  }

  lemma UnsafeNeeds(run: seq<State>, roles: seq<Role>, rechecks: bool)
    requires Unsafe(run, roles, rechecks)
    ensures !rechecks && |roles| >= 2 && AtMostOneMain(roles)
  {
    var k := |run| - 1;
    var h, j :| 0 <= h < |run[k].pcs| && 0 <= j < |run[k].pcs| && j != h
                && WorldIsItsOwn(run[k].pcs[h]) && InStep(run[k].pcs[j]);
    RunMainsStayOut(run, k);
    if rechecks {
      StopTheWorldIsSafe(run, k, h, j);
      assert false;
    }
  }
}
