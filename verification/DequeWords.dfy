/** The deque on words that wrap. */
module DequeWords {
  // Indices are `bits` wide and slots are chosen by a mask.

  // `top` and `bottom` only ever count up, and on a 32-bit target they cross the end of the
  // index space in ordinary use. Every comparison is made on a wrapped difference. This
  // module proves that the wrapped machine takes the steps of the unbounded one, so all that
  // DequeSteps proves holds of it, across any number of wraps.

  import opened Options
  import opened Words
  import opened DequeSteps

  /** Word width and capacity: `2^k` slots, indices of `bits` bits. */
  datatype Shape = Shape(bits: nat, k: nat)
  {
    predicate Valid() { 1 <= k && k + 1 < bits }

    function Cap(): int { Pow2(k) }

    function W(x: int): int
      requires Valid()
    {
      Wrap(bits, x)
    }

    /** `(i & mask) as usize` */
    function Index(i: int): (r: nat)
      requires Valid()
      ensures r < Cap()
    {
      MaskIsMod(Pattern(bits, i), k);
      BitAnd(Pattern(bits, i), Pow2(k) - 1)
    }
  }

  /** A thief, with the count of advances of `top` at the moment it loaded `top`. */
  datatype WThief<T> = WThief(at: Thief<T>, seen: int)

  /** The words the code keeps. `total` is history: `top` as it would be without wrapping. */
  datatype WState<T> = WState(
    top: int, bottom: int, buf: seq<T>,
    owner: Owner<T>, thieves: seq<WThief<T>>,
    pushed: seq<T>, taken: seq<T>, total: int)

  ghost predicate WellFormed<T>(c: Shape, w: WState<T>) {
    c.Valid() && |w.buf| == c.Cap()
  }

  function WSlot<T>(c: Shape, w: WState<T>, i: int): T
    requires WellFormed(c, w)
  {
    w.buf[c.Index(i)]
  }

  function WOwnerNext<T>(c: Shape, w: WState<T>): WState<T>
    requires WellFormed(c, w)
  {
    match w.owner
    case OIdle => w
    case PushBegin(v) => w.(owner := PushTop(v, w.bottom))
    case PushTop(v, b) =>
      if c.W(b - w.top) >= c.Cap() then w.(owner := OIdle)
      else w.(owner := PushWrite(v, b))
    case PushWrite(v, b) =>
      w.(buf := w.buf[c.Index(b) := v], owner := PushPublish(v, b))
    case PushPublish(v, b) => w.(bottom := c.W(b + 1), owner := OIdle, pushed := w.pushed + [v])
    case PopBegin => w.(owner := PopStore(c.W(w.bottom - 1)))
    case PopStore(b) => w.(bottom := b, owner := PopTop(b))
    case PopTop(b) =>
      var len := c.W(b - w.top);
      if len < 0 then w.(owner := PopEmpty(b))
      else if len == 0 then w.(owner := PopCas(b, w.top))
      else w.(owner := PopTake(b, WSlot(c, w, b)))
    case PopEmpty(b) => w.(bottom := c.W(b + 1), owner := OIdle)
    case PopCas(b, t) =>
      if w.top == t
      then w.(top := c.W(t + 1), owner := PopRestore(b, Some(WSlot(c, w, b))), total := w.total + 1)
      else w.(owner := PopRestore(b, None))
    case PopRestore(b, won) =>
      w.(bottom := c.W(b + 1), owner := if won.Some? then PopTake(b, won.value) else OIdle)
    case PopTake(b, _) => w.(owner := OIdle, taken := w.taken + [WSlot(c, w, b)])
  }

  function WThiefNext<T>(c: Shape, w: WState<T>, i: nat): WState<T>
    requires WellFormed(c, w) && i < |w.thieves|
  {
    var th := w.thieves[i];
    match th.at
    case TIdle => w
    case TTop => w.(thieves := w.thieves[i := WThief(TBottom(w.top), w.total)])
    case TBottom(t) =>
      w.(thieves := w.thieves[i := th.(at := if c.W(w.bottom - t) <= 0 then TIdle else TRead(t))])
    case TRead(t) => w.(thieves := w.thieves[i := th.(at := TCas(t, WSlot(c, w, t)))])
    case TCas(t, v) =>
      if w.top == t
      then w.(top := c.W(t + 1), thieves := w.thieves[i := th.(at := TIdle)], taken := w.taken + [v],
              total := w.total + 1)
      else w.(thieves := w.thieves[i := th.(at := TIdle)])
  }

  function WApply<T>(c: Shape, w: WState<T>, a: Action<T>): WState<T>
    requires WellFormed(c, w)
  {
    match a
    case StartPush(v) => w.(owner := PushBegin(v))
    case StartPop => w.(owner := PopBegin)
    case OwnerStep => WOwnerNext(c, w)
    case StartSteal(i) =>
      if i < |w.thieves| then w.(thieves := w.thieves[i := w.thieves[i].(at := TTop)]) else w
    case ThiefStep(i) => if i < |w.thieves| then WThiefNext(c, w, i) else w
    case GiveUp(_) => w
  }

  ghost predicate WEnabled<T>(w: WState<T>, a: Action<T>) {
    match a
    case StartPush(_) => w.owner.OIdle?
    case StartPop => w.owner.OIdle?
    case OwnerStep => !w.owner.OIdle?
    case StartSteal(i) => i < |w.thieves| && w.thieves[i].at.TIdle?
    case ThiefStep(i) => i < |w.thieves| && !w.thieves[i].at.TIdle?
    case GiveUp(_) => false
  }

  ghost predicate WInit<T>(c: Shape, w: WState<T>) {
    && WellFormed(c, w)
    && w.top == w.bottom == w.total && -Pow2(c.bits - 1) <= w.top < Pow2(c.bits - 1)
    && w.owner.OIdle?
    && (forall i :: 0 <= i < |w.thieves| ==> w.thieves[i].at.TIdle?)
    && w.pushed == [] && w.taken == []
  }

  /** A steal about to claim its index has slept through a positive whole number of turns of the
      index space. */
  ghost predicate TurnsLate<T>(c: Shape, w: WState<T>, th: WThief<T>) {
    th.at.TCas? && w.total > th.seen && (w.total - th.seen) % Pow2(c.bits) == 0
  }

  /** `a` is not the claim of a steal that is so late. */
  ghost predicate InTime<T>(c: Shape, w: WState<T>, a: Action<T>) {
    a.ThiefStep? && a.i < |w.thieves| ==> !TurnsLate(c, w, w.thieves[a.i])
  }

  // ── The simulation ───────────────────────────────────────────────────

  ghost predicate OwnerRel<T>(c: Shape, w: Owner<T>, s: Owner<T>)
    requires c.Valid()
  {
    match s
    case OIdle => w == s
    case PushBegin(_) => w == s
    case PushTop(v, b) => w == PushTop(v, c.W(b))
    case PushWrite(v, b) => w == PushWrite(v, c.W(b))
    case PushPublish(v, b) => w == PushPublish(v, c.W(b))
    case PopBegin => w == s
    case PopStore(b) => w == PopStore(c.W(b))
    case PopTop(b) => w == PopTop(c.W(b))
    case PopEmpty(b) => w == PopEmpty(c.W(b))
    case PopCas(b, t) => w == PopCas(c.W(b), c.W(t))
    case PopRestore(b, won) => w == PopRestore(c.W(b), won)
    case PopTake(b, claim) => w == PopTake(c.W(b), claim)
  }

  ghost predicate ThiefRel<T>(c: Shape, w: WThief<T>, s: Thief<T>)
    requires c.Valid()
  {
    match s
    case TIdle => w.at == s
    case TTop => w.at == s
    case TBottom(t) => w.at == TBottom(c.W(t)) && w.seen == t
    case TRead(t) => w.at == TRead(c.W(t)) && w.seen == t
    case TCas(t, v) => w.at == TCas(c.W(t), v) && w.seen == t
  }

  ghost predicate Rel<T>(c: Shape, w: WState<T>, s: State<T>) {
    && WellFormed(c, w)
    && w.buf == s.buf && w.pushed == s.pushed && w.taken == s.taken
    && w.top == c.W(s.top) && w.bottom == c.W(s.bottom) && w.total == s.top
    && OwnerRel(c, w.owner, s.owner)
    && |w.thieves| == |s.thieves|
    && (forall i :: 0 <= i < |w.thieves| ==> ThiefRel(c, w.thieves[i], s.thieves[i]))
  }

  lemma SameSlot<T>(c: Shape, w: WState<T>, s: State<T>, i: int)
    requires Rel(c, w, s)
    ensures |s.buf| > 0 && c.Index(c.W(i)) == i % |s.buf| && WSlot(c, w, c.W(i)) == s.Slot(i)
  {
    MaskedWordIsResidue(c.bits, c.k, i);
  }

  /** A wrapped difference equals the true one when the true one is small. */
  lemma SameDifference(c: Shape, a: int, b: int)
    requires c.Valid() && -Pow2(c.bits - 1) <= a - b < Pow2(c.bits - 1)
    ensures c.W(c.W(a) - c.W(b)) == a - b
  {
    WrapSub(c.bits, a, b);
    WrapOfSmall(c.bits, a - b);
  }

  lemma CapIsSmall(c: Shape)
    requires c.Valid()
    ensures 2 <= c.Cap() && 2 * c.Cap() <= Pow2(c.bits - 1) && 2 * Pow2(c.bits - 1) == Pow2(c.bits)
  {
    Pow2Grows(1, c.k);
    Pow2Grows(c.k + 1, c.bits - 1);
  }

  lemma Successor(c: Shape, i: int)
    requires c.Valid()
    ensures c.W(c.W(i) + 1) == c.W(i + 1) && c.W(c.W(i) - 1) == c.W(i - 1)
  {
    WrapAdd(c.bits, i, 1);
    WrapAdd(c.bits, i, -1);
  }

  /** The owner's compare-and-swap succeeds on the words exactly when it does on the counters. */
  lemma OwnerCasSimulates<T>(c: Shape, w: WState<T>, s: State<T>)
    requires Rel(c, w, s) && Inv(s) && s.owner.PopCas?
    ensures Rel(c, WOwnerNext(c, w), OwnerNext(s))
  {
    hide Wrap, BitAnd, Pattern, Pow2, Contents, Ring, WSlot;
    CapIsSmall(c);
    Successor(c, s.owner.t);
    SameSlot(c, w, s, s.owner.b);
    if w.top == w.owner.t {
      WrapInjective(c.bits, s.top, s.owner.t);
    }
  }

  lemma OwnerSimulates<T>(c: Shape, w: WState<T>, s: State<T>)
    requires Rel(c, w, s) && Inv(s) && !s.owner.OIdle?
    ensures Rel(c, WOwnerNext(c, w), OwnerNext(s))
  {
    hide Wrap;
    hide BitAnd;
    hide Pattern;
    hide Pow2;
    hide Contents;
    hide Ring;
    hide WSlot;
    CapIsSmall(c);
    Successor(c, s.bottom);
    match s.owner
    case PushTop(_, b) => SameDifference(c, b, s.top);
    case PushWrite(_, b) => SameSlot(c, w, s, b);
    case PushPublish(_, b) => Successor(c, b);
    case PopTop(b) => SameDifference(c, b, s.top); SameSlot(c, w, s, b);
    case PopEmpty(b) => Successor(c, b);
    case PopCas(b, t) => OwnerCasSimulates(c, w, s);
    case PopRestore(b, _) => Successor(c, b);
    case PopTake(b, _) => SameSlot(c, w, s, b);
    case _ =>
  }

  /** The unbounded action a word-level action performs. They differ only for a thief so
      late that its wrapped difference has changed sign: it goes home empty-handed. */
  function TrueAction<T>(c: Shape, w: WState<T>, s: State<T>, a: Action<T>): Action<T>
    requires c.Valid()
  {
    if a.ThiefStep? && a.i < |w.thieves| && a.i < |s.thieves| && s.thieves[a.i].TBottom? && w.thieves[a.i].at.TBottom?
       && c.W(w.bottom - w.thieves[a.i].at.t) <= 0 && s.bottom - s.thieves[a.i].t > 0
    then GiveUp(a.i)
    else a
  }

  lemma ThiefSimulates<T>(c: Shape, w: WState<T>, s: State<T>, i: nat)
    requires Rel(c, w, s) && Inv(s) && i < |w.thieves| && !s.thieves[i].TIdle?
    requires InTime(c, w, ThiefStep(i))
    ensures var a := TrueAction(c, w, s, ThiefStep(i));
            Enabled(s, a) && Rel(c, WThiefNext(c, w, i), Apply(s, a))
  {
    hide Wrap;
    hide BitAnd;
    hide Pattern;
    hide Pow2;
    hide Contents;
    hide Ring;
    hide WSlot;
    CapIsSmall(c);
    assert ThiefRel(c, w.thieves[i], s.thieves[i]) && ThiefOk(s, s.thieves[i]);
    match s.thieves[i]
    case TTop =>
    case TBottom(t) =>
      if s.bottom - t < Pow2(c.bits - 1) {
        SameDifference(c, s.bottom, t);
      }
    case TRead(t) => SameSlot(c, w, s, t);
    case TCas(t, _) =>
      Successor(c, t);
      if w.top == w.thieves[i].at.t {
        SameWordIff(c.bits, s.top, t);
      }
  }

  lemma StepSimulates<T>(c: Shape, w: WState<T>, s: State<T>, a: Action<T>)
    requires Rel(c, w, s) && Inv(s) && WEnabled(w, a) && InTime(c, w, a)
    ensures var a' := TrueAction(c, w, s, a);
            Enabled(s, a') && Rel(c, WApply(c, w, a), Apply(s, a'))
  {
    hide Wrap;
    hide BitAnd;
    hide Pattern;
    hide Pow2;
    hide Contents;
    hide Inv;
    match a
    case OwnerStep => OwnerSimulates(c, w, s);
    case ThiefStep(i) =>
      assert ThiefRel(c, w.thieves[i], s.thieves[i]);
      ThiefSimulates(c, w, s, i);
    case StartSteal(i) => assert ThiefRel(c, w.thieves[i], s.thieves[i]);
    case _ =>
  }

  ghost predicate IsWRun<T>(c: Shape, run: seq<WState<T>>, acts: seq<Action<T>>) {
    && |run| == |acts| + 1
    && WInit(c, run[0])
    && (forall k :: 0 <= k < |run| ==> WellFormed(c, run[k]))
    && (forall k :: 0 <= k < |acts| ==> WEnabled(run[k], acts[k]) && run[k + 1] == WApply(c, run[k], acts[k]))
  }

  lemma Lifted<T>(c: Shape, w: WState<T>) returns (s: State<T>)
    requires WInit(c, w)
    ensures Init(s) && Rel(c, w, s)
  {
    WrapOfSmall(c.bits, w.top);
    s := State(w.top, w.top, w.buf, OIdle, seq(|w.thieves|, _ => TIdle), [], []);
  }

  lemma WRunPrefix<T>(c: Shape, run: seq<WState<T>>, acts: seq<Action<T>>)
    requires IsWRun(c, run, acts) && |acts| > 0
    ensures IsWRun(c, run[..|acts|], acts[..|acts| - 1])
  {
    hide WApply;
    hide WInit;
    hide WEnabled;
    hide WellFormed;
  }

  lemma RunExtends<T>(run: seq<State<T>>, acts: seq<Action<T>>, a: Action<T>)
    requires IsRun(run, acts) && Enabled(run[|acts|], a) && |Apply(run[|acts|], a).buf| > 0
    ensures IsRun(run + [Apply(run[|acts|], a)], acts + [a])
  {
    hide Apply;
    hide Init;
    hide Enabled;
  }

  /** Every run of the wrapped deque is a run of the unbounded one, step for step, as long as no
      steal makes its claim a positive whole number of turns of the index space late. */
  lemma {:induction false} WordsRefine<T>(c: Shape, run: seq<WState<T>>, acts: seq<Action<T>>)
    returns (srun: seq<State<T>>, sacts: seq<Action<T>>)
    requires IsWRun(c, run, acts)
    requires forall k :: 0 <= k < |acts| ==> InTime(c, run[k], acts[k])
    ensures IsRun(srun, sacts) && |srun| == |run|
    ensures forall k :: 0 <= k < |run| ==> Rel(c, run[k], srun[k])
    ensures |sacts| == |acts| && forall k :: 0 <= k < |acts| ==> sacts[k] == TrueAction(c, run[k], srun[k], acts[k])
    decreases |acts|
  {
    hide WApply;
    hide Apply;
    hide Rel;
    hide Inv;
    hide Enabled;
    hide WEnabled;
    if |acts| == 0 {
      var s0 := Lifted(c, run[0]);
      srun := [s0];
      sacts := [];
    } else {
      var n := |acts| - 1;
      WRunPrefix(c, run, acts);
      var sr, sa := WordsRefine(c, run[..n + 1], acts[..n]);
      assert run[..n + 1][n] == run[n];
      RunInv(sr, sa, n);
      StepSimulates(c, run[n], sr[n], acts[n]);
      var a := TrueAction(c, run[n], sr[n], acts[n]);
      StepLinearizes(sr[n], a);
      RunExtends(sr, sa, a);
      srun := sr + [Apply(sr[n], a)];
      sacts := sa + [a];
      forall k | 0 <= k < |run|
        ensures Rel(c, run[k], srun[k])
      {
        if k < n + 1 {
          assert run[..n + 1][k] == run[k];
        } else {
          assert run[n + 1] == WApply(c, run[n], acts[n]);
        }
      }
    }
  }

  /** The result of `len`, and the loop bound of `drop`. */
  function WLen<T>(c: Shape, w: WState<T>): int
    requires c.Valid()
  {
    var d := c.W(w.bottom - w.top);
    if d < 0 then 0 else d
  }

  /** The slots `drop` visits: `WLen` of them, stepping a wrapping index from `top`. */
  function WLive<T>(c: Shape, w: WState<T>): (q: seq<T>)
    requires WellFormed(c, w)
    ensures |q| == WLen(c, w)
    ensures forall j :: 0 <= j < |q| ==> q[j] == WSlot(c, w, c.W(w.top + j))
  {
    seq(WLen(c, w), j requires 0 <= j => WSlot(c, w, c.W(w.top + j)))
  }

  /** Whenever the owner is idle, what `drop` would visit is exactly what the deque holds,
      and `len` is its length. */
  lemma DropVisitsExactlyTheLive<T>(c: Shape, w: WState<T>, s: State<T>)
    requires Rel(c, w, s) && Inv(s) && w.owner.OIdle?
    ensures WLive(c, w) == Contents(s) && WLen(c, w) == |Contents(s)|
  {
    hide Wrap;
    hide BitAnd;
    hide Pattern;
    hide Pow2;
    hide Ring;
    hide WSlot;
    CapIsSmall(c);
    assert OwnerRel(c, w.owner, s.owner);
    SameDifference(c, s.bottom, s.top);
    forall j | 0 <= j < |Contents(s)|
      ensures WLive(c, w)[j] == Contents(s)[j]
    {
      WrapAdd(c.bits, s.top, j);
      SameSlot(c, w, s, s.top + j);
    }
  }

  /** The operation of the sequential deque that an access on words performs, if any. */
  function WEventOf<T>(c: Shape, w: WState<T>, a: Action<T>): Event<T>
    requires WellFormed(c, w)
  {
    match a
    case OwnerStep =>
      (match w.owner
       case PushPublish(v, _) => PushBack(v)
       case PopTop(b) => if c.W(b - w.top) > 0 then PopBack(WSlot(c, w, b)) else Silent
       case PopCas(b, t) => if w.top == t then PopBack(WSlot(c, w, b)) else Silent
       case _ => Silent)
    case ThiefStep(i) =>
      if i < |w.thieves| && w.thieves[i].at.TCas? && w.top == w.thieves[i].at.t
      then PopFront(w.thieves[i].at.v) else Silent
    case _ => Silent
  }

  lemma OwnerEvent<T>(c: Shape, w: WState<T>, s: State<T>)
    requires Rel(c, w, s) && Inv(s)
    ensures WEventOf(c, w, OwnerStep) == EventOf(s, OwnerStep)
  {
    hide Wrap, BitAnd, Pattern, Pow2, Contents, Ring, WSlot;
    CapIsSmall(c);
    match s.owner
    case PopTop(b) => SameDifference(c, b, s.top); SameSlot(c, w, s, b);
    case PopCas(b, t) =>
      SameSlot(c, w, s, b);
      if w.top == w.owner.t {
        WrapInjective(c.bits, s.top, t);
      }
    case _ =>
  }

  lemma ThiefEvent<T>(c: Shape, w: WState<T>, s: State<T>, i: nat)
    requires Rel(c, w, s) && Inv(s) && i < |w.thieves| && InTime(c, w, ThiefStep(i))
    ensures WEventOf(c, w, ThiefStep(i)) == EventOf(s, TrueAction(c, w, s, ThiefStep(i)))
  {
    hide Wrap, BitAnd, Pattern, Pow2, Contents, Ring, WSlot;
    assert ThiefRel(c, w.thieves[i], s.thieves[i]) && ThiefOk(s, s.thieves[i]);
    if s.thieves[i].TCas? && w.top == w.thieves[i].at.t {
      SameWordIff(c.bits, s.top, s.thieves[i].t);
    }
  }

  /** An access on words performs the operation of the access it stands for. */
  lemma SameEvent<T>(c: Shape, w: WState<T>, s: State<T>, a: Action<T>)
    requires Rel(c, w, s) && Inv(s) && InTime(c, w, a)
    ensures WEventOf(c, w, a) == EventOf(s, TrueAction(c, w, s, a))
  {
    hide Inv, WSlot, InTime;
    match a
    case OwnerStep => OwnerEvent(c, w, s);
    case ThiefStep(i) =>
      if i < |w.thieves| {
        ThiefEvent(c, w, s, i);
      }
    case _ =>
  }

  /** Linearizability and conservation of the deque as the code runs it, on wrapped words: the
      run's own accesses, in order, are an execution of the sequential deque, through the contents
      that the run on unbounded counters has. */
  lemma WrappedDequeLinearizable<T>(c: Shape, run: seq<WState<T>>, acts: seq<Action<T>>)
    returns (qs: seq<seq<T>>, events: seq<Event<T>>, srun: seq<State<T>>, sacts: seq<Action<T>>)
    requires IsWRun(c, run, acts)
    requires forall k :: 0 <= k < |acts| ==> InTime(c, run[k], acts[k])
    ensures SpecRun(c.Cap(), qs, events) && |qs| == |run| && |events| == |acts|
    ensures forall k :: 0 <= k < |acts| ==> events[k] == WEventOf(c, run[k], acts[k])
    ensures forall k :: 0 <= k < |run| ==> |qs[k]| <= c.Cap()
    ensures IsRun(srun, sacts) && |srun| == |run| && events == History(srun, sacts)
    ensures forall k :: 0 <= k < |run| ==> Rel(c, run[k], srun[k]) && Inv(srun[k]) && qs[k] == Contents(srun[k])
    ensures forall k :: 0 <= k < |run| && run[k].owner.OIdle? ==>
      && WLive(c, run[k]) == qs[k]
      && multiset(run[k].pushed) == multiset(WLive(c, run[k])) + multiset(run[k].taken)
  {
    srun, sacts := WordsRefine(c, run, acts);
    assert Rel(c, run[0], srun[0]);
    qs := Linearizable(srun, sacts);
    events := History(srun, sacts);
    forall k | 0 <= k < |acts|
      ensures events[k] == WEventOf(c, run[k], acts[k])
    {
      RunInv(srun, sacts, k);
      SameEvent(c, run[k], srun[k], acts[k]);
    }
    forall k | 0 <= k < |run| && run[k].owner.OIdle?
      ensures WLive(c, run[k]) == qs[k]
      ensures multiset(run[k].pushed) == multiset(WLive(c, run[k])) + multiset(run[k].taken)
    {
      assert Rel(c, run[k], srun[k]);
      RunInv(srun, sacts, k);
      DropVisitsExactlyTheLive(c, run[k], srun[k]);
      assert InFlight(srun[k]) == [];
    }
  }

  // ── A claim that comes too late ──────────────────────────────────────

  /** A thief's compare of wrapped words succeeds although `top` has moved on if and only if
      `top` has moved by a whole number of turns of the index space. */
  lemma StaleClaimIff(c: Shape, top: int, t: int)
    requires c.Valid() && t <= top
    ensures c.W(top) == c.W(t) && top != t
            <==> top - t >= Pow2(c.bits) && (top - t) % Pow2(c.bits) == 0
  {
    SameWordIff(c.bits, top, t);
    if (top - t) % Pow2(c.bits) == 0 && 0 < top - t < Pow2(c.bits) {
      ModUnique(top - t, 0, top - t, Pow2(c.bits));
    }
  }

  /** A run from `w` to `w'`. */
  ghost predicate IsPath<T>(c: Shape, run: seq<WState<T>>, acts: seq<Action<T>>, w: WState<T>, w': WState<T>) {
    && |run| == |acts| + 1 && run[0] == w && run[|acts|] == w'
    && (forall k :: 0 <= k < |run| ==> WellFormed(c, run[k]))
    && (forall k :: 0 <= k < |acts| ==> WEnabled(run[k], acts[k]) && run[k + 1] == WApply(c, run[k], acts[k]))
  }

  ghost predicate Leads<T(!new)>(c: Shape, w: WState<T>, w': WState<T>) {
    exists run: seq<WState<T>>, acts: seq<Action<T>> :: IsPath(c, run, acts, w, w')
  }

  lemma OneAction<T(!new)>(c: Shape, w: WState<T>, w1: WState<T>, a: Action<T>)
    requires WellFormed(c, w) && WellFormed(c, w1) && Leads(c, w, w1) && WEnabled(w1, a)
    ensures WellFormed(c, WApply(c, w1, a)) && Leads(c, w, WApply(c, w1, a))
  {
    StaysFormed(c, w1, a);
    hide WApply, WEnabled, WellFormed;
    var run: seq<WState<T>>, acts: seq<Action<T>> :| IsPath(c, run, acts, w, w1);
    assert IsPath(c, run + [WApply(c, w1, a)], acts + [a], w, WApply(c, w1, a));
  }

  lemma StaysFormed<T>(c: Shape, w: WState<T>, a: Action<T>)
    requires WellFormed(c, w)
    ensures WellFormed(c, WApply(c, w, a))
  {
    hide Wrap, BitAnd, Pattern, Pow2, WSlot;
  }

  lemma NoAction<T(!new)>(c: Shape, w: WState<T>)
    requires WellFormed(c, w)
    ensures Leads(c, w, w)
  {
    assert IsPath(c, [w], [], w, w);
  }

  /** The deque is empty, and its indices stand at `n`. */
  ghost predicate EmptyAt<T>(c: Shape, w: WState<T>, n: nat) {
    && WellFormed(c, w) && w.top == c.W(n) && w.bottom == c.W(n) && w.total == n
    && w.owner.OIdle? && |w.thieves| == 2 && w.thieves[1].at.TIdle?
  }

  /** One value in the deque. */
  ghost predicate HoldsOne<T>(c: Shape, w: WState<T>, n: nat, v: T) {
    && WellFormed(c, w) && w.top == c.W(n) && w.bottom == c.W(n + 1) && w.total == n
    && w.owner.OIdle? && |w.thieves| == 2 && w.thieves[1].at.TIdle? && WSlot(c, w, c.W(n)) == v
  }

  /** A push onto an empty deque. */
  lemma PushOne<T(!new)>(c: Shape, start: WState<T>, w: WState<T>, n: nat, v: T) returns (w': WState<T>)
    requires WellFormed(c, start) && Leads(c, start, w) && EmptyAt(c, w, n)
    ensures Leads(c, start, w') && HoldsOne(c, w', n, v)
    ensures w'.thieves == w.thieves && w'.taken == w.taken && w'.pushed == w.pushed + [v]
  {
    hide Wrap, BitAnd, Pattern, Pow2, Leads;
    CapIsSmall(c);
    SameDifference(c, n, n);
    Successor(c, n);
    OneAction(c, start, w, StartPush(v));
    var w1 := WApply(c, w, StartPush(v));
    OneAction(c, start, w1, OwnerStep);
    var w2 := WApply(c, w1, OwnerStep);
    OneAction(c, start, w2, OwnerStep);
    var w3 := WApply(c, w2, OwnerStep);
    assert w3.owner == PushWrite(v, c.W(n));
    OneAction(c, start, w3, OwnerStep);
    var w4 := WApply(c, w3, OwnerStep);
    OneAction(c, start, w4, OwnerStep);
    w' := WApply(c, w4, OwnerStep);
  }

  /** Thief `i` gets as far as its claim. */
  lemma AboutToClaim<T(!new)>(c: Shape, start: WState<T>, w: WState<T>, n: nat, v: T, i: nat) returns (w': WState<T>)
    requires WellFormed(c, start) && Leads(c, start, w) && HoldsOne(c, w, n, v) && i < 2 && w.thieves[i].at.TIdle?
    ensures Leads(c, start, w') && w' == w.(thieves := w.thieves[i := WThief(TCas(c.W(n), v), n)])
  {
    hide Wrap, BitAnd, Pattern, Pow2, Leads, WSlot;
    CapIsSmall(c);
    SameDifference(c, n + 1, n);
    OneAction(c, start, w, StartSteal(i));
    var w1 := WApply(c, w, StartSteal(i));
    OneAction(c, start, w1, ThiefStep(i));
    var w2 := WApply(c, w1, ThiefStep(i));
    OneAction(c, start, w2, ThiefStep(i));
    var w3 := WApply(c, w2, ThiefStep(i));
    assert w3.thieves[i].at == TRead(c.W(n));
    SameSlots(c, w, w3, n);
    OneAction(c, start, w3, ThiefStep(i));
    w' := WApply(c, w3, ThiefStep(i));
  }

  lemma SameSlots<T>(c: Shape, w: WState<T>, w': WState<T>, n: nat)
    requires WellFormed(c, w) && WellFormed(c, w') && w.buf == w'.buf
    ensures WSlot(c, w, c.W(n)) == WSlot(c, w', c.W(n))
  {
  }

  /** Thief 1 takes the one value there is. */
  lemma TakeOne<T(!new)>(c: Shape, start: WState<T>, w: WState<T>, n: nat, v: T) returns (w': WState<T>)
    requires WellFormed(c, start) && Leads(c, start, w) && HoldsOne(c, w, n, v)
    ensures Leads(c, start, w') && EmptyAt(c, w', n + 1)
    ensures w'.thieves[0] == w.thieves[0] && w'.taken == w.taken + [v] && w'.pushed == w.pushed
  {
    hide Wrap, BitAnd, Pattern, Pow2, Leads, WSlot;
    var w1 := AboutToClaim(c, start, w, n, v, 1);
    Successor(c, n);
    OneAction(c, start, w1, ThiefStep(1));
    w' := WApply(c, w1, ThiefStep(1));
  }

  /** Value 1 has been pushed and taken once; thief 0 is about to claim it by the index 0. */
  ghost predicate OneIsStale(c: Shape, w: WState<nat>, n: nat) {
    && EmptyAt(c, w, n) && w.thieves[0] == WThief(TCas(c.W(0), 1), 0)
    && multiset(w.pushed)[1] == 1 && multiset(w.taken)[1] == 1
  }

  function Beginning(c: Shape): WState<nat>
    requires c.Valid()
  {
    var n: nat := c.Cap();
    WState(0, 0, seq(n, _ => 0), OIdle, [WThief(TIdle, 0), WThief(TIdle, 0)], [], [], 0)
  }

  lemma FirstValue(c: Shape) returns (w: WState<nat>)
    requires c.Valid()
    ensures WInit(c, Beginning(c)) && Leads(c, Beginning(c), w) && OneIsStale(c, w, 1)
  {
    hide Wrap, BitAnd, Pattern, Leads, WSlot, HoldsOne;
    var start := Beginning(c);
    WrapOfSmall(c.bits, 0);
    NoAction(c, start);
    var w1 := PushOne(c, start, start, 0, 1);
    HoldsFacts(c, w1, 0, 1);
    var w2 := AboutToClaim(c, start, w1, 0, 1, 0);
    ThiefApart(c, w1, w2, 0, 1);
    w := TakeOne(c, start, w2, 0, 1);
    assert w.pushed == [1] && w.taken == [1];
  }

  lemma HoldsFacts<T>(c: Shape, w: WState<T>, n: nat, v: T)
    requires HoldsOne(c, w, n, v)
    ensures |w.thieves| == 2
  {
  }

  lemma ThiefApart<T>(c: Shape, w: WState<T>, w': WState<T>, n: nat, v: T)
    requires HoldsOne(c, w, n, v) && w' == w.(thieves := w'.thieves) && |w'.thieves| == 2
             && w'.thieves[1] == w.thieves[1]
    ensures HoldsOne(c, w', n, v)
  {
  }

  /** While thief 0 sleeps, any number of values may come and go. */
  lemma {:induction false} OthersComeAndGo(c: Shape, n: nat) returns (w: WState<nat>)
    requires c.Valid() && n >= 1
    ensures WInit(c, Beginning(c)) && Leads(c, Beginning(c), w) && OneIsStale(c, w, n)
  {
    hide Leads, WSlot, HoldsOne, WInit;
    if n == 1 {
      w := FirstValue(c);
    } else {
      var w0 := OthersComeAndGo(c, n - 1);
      InitIsFormed(c, Beginning(c));
      var w1 := PushOne(c, Beginning(c), w0, n - 1, 0);
      w := TakeOne(c, Beginning(c), w1, n - 1, 0);
      assert multiset(w.pushed) == multiset(w0.pushed) + multiset{0}
             && multiset(w.taken) == multiset(w0.taken) + multiset{0};
    }
  }

  lemma InitIsFormed<T>(c: Shape, w: WState<T>)
    requires WInit(c, w)
    ensures WellFormed(c, w)
  {
  }

  /** The proviso is needed, whatever the width and the capacity: in this run a steal claims a
      whole turn late, and a value pushed once is handed out twice. */
  lemma LateClaimDuplicates(c: Shape) returns (run: seq<WState<nat>>, acts: seq<Action<nat>>)
    requires c.Valid()
    ensures IsWRun(c, run, acts)
    ensures multiset(run[|acts|].pushed)[1] == 1 && multiset(run[|acts|].taken)[1] == 2
    ensures exists k :: 0 <= k < |acts| && !InTime(c, run[k], acts[k])
  {
    var turn: nat := Pow2(c.bits);
    hide Leads, WSlot, Pow2, Wrap, BitAnd, Pattern;
    var w := OthersComeAndGo(c, turn);
    var start := Beginning(c);
    InitIsFormed(c, start);
    WholeTurn(c, turn);
    var last := WApply(c, w, ThiefStep(0));
    assert last.taken == w.taken + [1];
    run, acts := PathTo(c, start, w);
    assert TurnsLate(c, w, w.thieves[0]);
    assert !InTime(c, w, ThiefStep(0));
    var n := |acts|;
    assert run[n] == w;
    StaysFormed(c, w, ThiefStep(0));
    run, acts := run + [last], acts + [ThiefStep(0)];
    hide WApply, WInit, WellFormed;
    assert run[n] == w && acts[n] == ThiefStep(0);
  }

  lemma WholeTurn(c: Shape, turn: nat)
    requires c.Valid() && turn == Pow2(c.bits)
    ensures c.W(turn) == c.W(0) && turn % Pow2(c.bits) == 0
  {
    ModUnique(turn, 1, 0, Pow2(c.bits));
    SameWordIff(c.bits, turn, 0);
  }

  lemma PathTo<T(!new)>(c: Shape, w: WState<T>, w': WState<T>) returns (run: seq<WState<T>>, acts: seq<Action<T>>)
    requires WInit(c, w) && Leads(c, w, w')
    ensures IsWRun(c, run, acts) && run[|acts|] == w'
  {
    run, acts :| IsPath(c, run, acts, w, w');
  }
}
