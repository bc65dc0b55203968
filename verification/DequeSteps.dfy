/** The bounded deque, access by access. */
module DequeSteps {
  // The bounded Chase–Lev deque of krio-parallel as a machine of atomic steps.
  //
  // One owner pushes and pops the bottom, any number of thieves steal from the top.
  // Every load, store and compare-and-swap of `push`, `pop` and `steal` is one step of
  // one agent, under sequential consistency. Indices are unbounded here; the module
  // DequeWords shows that the fixed-width, wrapping indices of the code run the same way.

  import opened Options

  /** Where the owner stands: between two of its atomic accesses. */
  datatype Owner<T> =
    | OIdle
    | PushBegin(v: T)                         // about to load bottom
    | PushTop(v: T, b: int)                   // about to load top
    | PushWrite(v: T, b: int)                 // passed the capacity check
    | PushPublish(v: T, b: int)               // slot written, bottom not yet stored
    | PopBegin                                // about to load bottom
    | PopStore(b: int)                        // about to store bottom := b
    | PopTop(b: int)                          // about to load top
    | PopEmpty(b: int)                        // saw nothing, about to restore bottom
    | PopCas(b: int, t: int)                  // one item left, about to CAS top
    | PopRestore(b: int, won: Option<T>)    // CAS over, about to restore bottom
    | PopTake(b: int, claim: T)               // owns index b, about to read the slot

  /** Where a thief stands. */
  datatype Thief<T> =
    | TIdle
    | TTop                                    // about to load top
    | TBottom(t: int)                         // about to load bottom
    | TRead(t: int)                           // saw surplus, about to read the slot
    | TCas(t: int, v: T)                      // about to CAS top

  /** `pushed` and `taken` are history: every value published by a push, and every
      value handed to a caller, in order. `claim` in the owner's state is history too:
      the value the deque held at the claimed index when it was claimed. */
  datatype State<T> = State(
    top: int, bottom: int, buf: seq<T>,
    owner: Owner<T>, thieves: seq<Thief<T>>,
    pushed: seq<T>, taken: seq<T>)
  {
    function Cap(): nat { |buf| }

    function Slot(i: int): T
      requires |buf| > 0
    {
      Ring(buf, i)
    }
  }

  /** The slot of index `i`: its residue modulo the capacity. */
  function Ring<T>(buf: seq<T>, i: int): T
    requires |buf| > 0
  {
    buf[i % |buf|]
  }

  datatype Action<T> =
    | StartPush(v: T)
    | StartPop
    | OwnerStep
    | StartSteal(i: nat)
    | ThiefStep(i: nat)
    | GiveUp(i: nat)

  // ── The steps ────────────────────────────────────────────────────────

  ghost predicate Enabled<T>(s: State<T>, a: Action<T>) {
    match a
    case StartPush(_) => s.owner.OIdle?
    case StartPop => s.owner.OIdle?
    case OwnerStep => !s.owner.OIdle?
    case StartSteal(i) => i < |s.thieves| && s.thieves[i].TIdle?
    case ThiefStep(i) => i < |s.thieves| && !s.thieves[i].TIdle?
    // A thief whose `top` is out of date may return empty-handed. The wrapped
    // comparison of a very late thief behaves this way.
    case GiveUp(i) => i < |s.thieves| && s.thieves[i].TBottom? && s.thieves[i].t < s.top
  }

  /** One atomic access of the owner. */
  function OwnerNext<T>(s: State<T>): State<T>
    requires |s.buf| > 0
  {
    match s.owner
    case OIdle => s
    case PushBegin(v) => s.(owner := PushTop(v, s.bottom))
    case PushTop(v, b) =>
      if b - s.top >= s.Cap() then s.(owner := OIdle) // handed back as Err
      else s.(owner := PushWrite(v, b))
    case PushWrite(v, b) => s.(buf := s.buf[b % s.Cap() := v], owner := PushPublish(v, b))
    case PushPublish(v, b) => s.(bottom := b + 1, owner := OIdle, pushed := s.pushed + [v])
    case PopBegin => s.(owner := PopStore(s.bottom - 1))
    case PopStore(b) => s.(bottom := b, owner := PopTop(b))
    case PopTop(b) =>
      if b - s.top < 0 then s.(owner := PopEmpty(b))
      else if b - s.top == 0 then s.(owner := PopCas(b, s.top))
      else s.(owner := PopTake(b, s.Slot(b)))
    case PopEmpty(b) => s.(bottom := b + 1, owner := OIdle)
    case PopCas(b, t) =>
      if s.top == t then s.(top := t + 1, owner := PopRestore(b, Some(s.Slot(b))))
      else s.(owner := PopRestore(b, None))
    case PopRestore(b, won) =>
      s.(bottom := b + 1, owner := if won.Some? then PopTake(b, won.value) else OIdle)
    case PopTake(b, _) => s.(owner := OIdle, taken := s.taken + [s.Slot(b)])
  }

  /** One atomic access of thief `i`. */
  function ThiefNext<T>(s: State<T>, i: nat): State<T>
    requires |s.buf| > 0 && i < |s.thieves|
  {
    match s.thieves[i]
    case TIdle => s
    case TTop => s.(thieves := s.thieves[i := TBottom(s.top)])
    case TBottom(t) =>
      s.(thieves := s.thieves[i := if s.bottom - t <= 0 then TIdle else TRead(t)])
    case TRead(t) => s.(thieves := s.thieves[i := TCas(t, s.Slot(t))])
    case TCas(t, v) =>
      if s.top == t then s.(top := t + 1, thieves := s.thieves[i := TIdle], taken := s.taken + [v])
      else s.(thieves := s.thieves[i := TIdle])
  }

  function Apply<T>(s: State<T>, a: Action<T>): State<T>
    requires |s.buf| > 0
  {
    match a
    case StartPush(v) => s.(owner := PushBegin(v))
    case StartPop => s.(owner := PopBegin)
    case OwnerStep => OwnerNext(s)
    case StartSteal(i) => if i < |s.thieves| then s.(thieves := s.thieves[i := TTop]) else s
    case ThiefStep(i) => if i < |s.thieves| then ThiefNext(s, i) else s
    case GiveUp(i) => if i < |s.thieves| then s.(thieves := s.thieves[i := TIdle]) else s
  }

  ghost predicate Init<T>(s: State<T>) {
    && |s.buf| > 0
    && s.top == s.bottom
    && s.owner.OIdle?
    && (forall i :: 0 <= i < |s.thieves| ==> s.thieves[i].TIdle?)
    && s.pushed == [] && s.taken == []
  }

  // ── What the deque holds ─────────────────────────────────────────────

  /** One past the last index still in the deque. While the owner is deciding whether
      index `bottom` is its own, that index still belongs to the deque. */
  function LogicalBottom<T>(s: State<T>): int {
    match s.owner
    case PopTop(_) => s.bottom + 1
    case PopEmpty(_) => s.bottom + 1
    case PopCas(_, _) => s.bottom + 1
    case PopRestore(_, _) => s.bottom + 1
    case _ => s.bottom
  }

  /** The abstract contents, oldest first. */
  function Contents<T>(s: State<T>): (q: seq<T>)
    requires |s.buf| > 0 && s.top <= LogicalBottom(s)
    ensures |q| == LogicalBottom(s) - s.top
    ensures forall k :: 0 <= k < |q| ==> q[k] == s.Slot(s.top + k)
  {
    seq(LogicalBottom(s) - s.top, k requires 0 <= k => s.Slot(s.top + k))
  }

  /** A value that has left the deque and is on its way to the owner's caller. */
  function InFlight<T>(s: State<T>): seq<T> {
    match s.owner
    case PopRestore(_, won) => if won.Some? then [won.value] else []
    case PopTake(_, claim) => [claim]
    case _ => []
  }

  /** The operation of the sequential deque that a step performs, if any. */
  datatype Event<T> = Silent | PushBack(v: T) | PopBack(v: T) | PopFront(v: T)

  function EventOf<T>(s: State<T>, a: Action<T>): Event<T>
    requires |s.buf| > 0
  {
    match a
    case OwnerStep =>
      (match s.owner
       case PushPublish(v, _) => PushBack(v)
       case PopTop(b) => if b - s.top > 0 then PopBack(s.Slot(b)) else Silent
       case PopCas(b, t) => if s.top == t then PopBack(s.Slot(b)) else Silent
       case _ => Silent)
    case ThiefStep(i) =>
      if i < |s.thieves| && s.thieves[i].TCas? && s.top == s.thieves[i].t
      then PopFront(s.thieves[i].v) else Silent
    case _ => Silent
  }

  /** The sequential deque of at most `cap` values. */
  ghost predicate SpecStep<T>(cap: nat, q: seq<T>, e: Event<T>, q': seq<T>) {
    match e
    case Silent => q' == q
    case PushBack(v) => |q| < cap && q' == q + [v]
    case PopBack(v) => |q| > 0 && v == q[|q| - 1] && q' == q[..|q| - 1]
    case PopFront(v) => |q| > 0 && v == q[0] && q' == q[1..]
  }

  // ── The inductive invariant ──────────────────────────────────────────

  ghost predicate OwnerOk<T>(s: State<T>)
    requires |s.buf| > 0
  {
    match s.owner
    case OIdle => true
    case PushBegin(_) => true
    case PushTop(_, b) => b == s.bottom
    case PushWrite(_, b) => b == s.bottom && b - s.top < s.Cap()
    case PushPublish(v, b) => b == s.bottom && b - s.top < s.Cap() && s.Slot(b) == v
    case PopBegin => true
    case PopStore(b) => b == s.bottom - 1
    case PopTop(b) => b == s.bottom
    case PopEmpty(b) => b == s.bottom && s.top == b + 1
    case PopCas(b, t) => b == s.bottom && t == b && (s.top == b || s.top == b + 1)
    case PopRestore(b, won) =>
      b == s.bottom && s.top == b + 1 && (won.Some? ==> s.Slot(b) == won.value)
    case PopTake(b, claim) =>
      && (b == s.bottom || (b == s.bottom - 1 && s.top == s.bottom))
      && s.Slot(b) == claim
  }

  /** A thief that still holds the current `top` has read the value it will claim. */
  ghost predicate ThiefOk<T>(s: State<T>, th: Thief<T>)
    requires |s.buf| > 0
  {
    match th
    case TIdle => true
    case TTop => true
    case TBottom(t) => t <= s.top
    case TRead(t) => t <= s.top && (t == s.top ==> t < LogicalBottom(s))
    case TCas(t, v) => t <= s.top && (t == s.top ==> t < LogicalBottom(s) && v == s.Slot(t))
  }

  ghost predicate Inv<T>(s: State<T>) {
    && |s.buf| > 0
    && 0 <= LogicalBottom(s) - s.top <= s.Cap()
    && OwnerOk(s)
    && (forall i :: 0 <= i < |s.thieves| ==> ThiefOk(s, s.thieves[i]))
    && multiset(s.pushed) == multiset(Contents(s)) + multiset(InFlight(s)) + multiset(s.taken)
  }

  lemma MultipleInRange(d: int, cap: int)
    requires cap > 0
    ensures cap * d <= 0 || cap * d >= cap
  {
    if d <= 0 {
      assert cap * d <= 0;
    } else {
      assert cap * (d - 1) >= 0;
    }
  }

  lemma SlotsDiffer(i: int, j: int, cap: int)
    requires cap > 0 && 0 < i - j < cap
    ensures i % cap != j % cap
  {
    if i % cap == j % cap {
      MultipleInRange(i / cap - j / cap, cap);
    }
  }

  lemma ContentsMatch<T>(s: State<T>, q: seq<T>)
    requires |s.buf| > 0 && s.top <= LogicalBottom(s)
    requires |q| == LogicalBottom(s) - s.top
    requires forall k :: 0 <= k < |q| ==> q[k] == s.Slot(s.top + k)
    ensures Contents(s) == q
  {
    hide Ring;
  }

  lemma InitInv<T>(s: State<T>)
    requires Init(s)
    ensures Inv(s) && Contents(s) == []
  {
  }

  // ── Owner steps ──────────────────────────────────────────────────────

  lemma WriteKeepsOthers<T>(s: State<T>, i: int)
    requires Inv(s) && s.owner.PushWrite?
    requires s.top <= i < s.bottom
    ensures OwnerNext(s).Slot(i) == s.Slot(i)
  {
    SlotsDiffer(s.bottom, i, s.Cap());
  }

  lemma PushWriteStep<T>(s: State<T>)
    requires Inv(s) && s.owner.PushWrite?
    ensures Inv(OwnerNext(s))
    ensures SpecStep(s.Cap(), Contents(s), EventOf(s, OwnerStep), Contents(OwnerNext(s)))
  {
    var s' := OwnerNext(s);
    forall k | 0 <= k < |Contents(s)|
      ensures Contents(s)[k] == s'.Slot(s'.top + k)
    {
      WriteKeepsOthers(s, s.top + k);
    }
    ContentsMatch(s', Contents(s));
    forall i | 0 <= i < |s'.thieves|
      ensures ThiefOk(s', s'.thieves[i])
    {
      assert ThiefOk(s, s.thieves[i]);
      if s.top < s.bottom {
        WriteKeepsOthers(s, s.top);
      }
    }
  }

  lemma PushPublishStep<T>(s: State<T>)
    requires Inv(s) && s.owner.PushPublish?
    ensures Inv(OwnerNext(s))
    ensures SpecStep(s.Cap(), Contents(s), EventOf(s, OwnerStep), Contents(OwnerNext(s)))
  {
    hide Ring;
    var s' := OwnerNext(s);
    ContentsMatch(s', Contents(s) + [s.owner.v]);
    forall i | 0 <= i < |s'.thieves|
      ensures ThiefOk(s', s'.thieves[i])
    {
      assert ThiefOk(s, s.thieves[i]);
    }
  }

  lemma SplitLast<T>(q: seq<T>)
    requires |q| > 0
    ensures multiset(q) == multiset(q[..|q| - 1]) + multiset([q[|q| - 1]])
  {
    assert q == q[..|q| - 1] + [q[|q| - 1]];
  }

  lemma SplitFirst<T>(q: seq<T>)
    requires |q| > 0
    ensures multiset(q) == multiset(q[1..]) + multiset([q[0]])
  {
    assert q == [q[0]] + q[1..];
  }

  lemma PopTopThieves<T>(s: State<T>)
    requires Inv(s) && s.owner.PopTop?
    ensures var s' := OwnerNext(s); forall i :: 0 <= i < |s'.thieves| ==> ThiefOk(s', s'.thieves[i])
  {
    hide Ring;
    var s' := OwnerNext(s);
    forall i | 0 <= i < |s'.thieves|
      ensures ThiefOk(s', s'.thieves[i])
    {
      assert ThiefOk(s, s.thieves[i]);
    }
  }

  lemma PopTopStep<T>(s: State<T>)
    requires Inv(s) && s.owner.PopTop?
    ensures Inv(OwnerNext(s))
    ensures SpecStep(s.Cap(), Contents(s), EventOf(s, OwnerStep), Contents(OwnerNext(s)))
  {
    hide Ring;
    var s' := OwnerNext(s);
    var b := s.owner.b;
    var q := Contents(s);
    if b - s.top > 0 {
      assert q[|q| - 1] == s.Slot(b);
      ContentsMatch(s', q[..|q| - 1]);
      SplitLast(q);
    } else {
      ContentsMatch(s', q);
    }
    PopTopThieves(s);
  }

  lemma PopCasStep<T>(s: State<T>)
    requires Inv(s) && s.owner.PopCas?
    ensures Inv(OwnerNext(s))
    ensures SpecStep(s.Cap(), Contents(s), EventOf(s, OwnerStep), Contents(OwnerNext(s)))
  {
    hide Ring;
    var s' := OwnerNext(s);
    var q := Contents(s);
    if s.top == s.owner.t {
      assert q == [s.Slot(s.owner.b)];
      ContentsMatch(s', []);
    } else {
      ContentsMatch(s', q);
    }
    forall i | 0 <= i < |s'.thieves|
      ensures ThiefOk(s', s'.thieves[i])
    {
      assert ThiefOk(s, s.thieves[i]);
    }
  }

  lemma SameDeque<T>(s: State<T>, s': State<T>)
    requires Inv(s)
    requires s'.buf == s.buf && s'.top == s.top && LogicalBottom(s') == LogicalBottom(s)
    ensures Contents(s') == Contents(s)
    ensures forall th :: ThiefOk(s, th) ==> ThiefOk(s', th)
  {
    hide Ring;
    ContentsMatch(s', Contents(s));
  }

  ghost predicate Quiet<T>(o: Owner<T>) {
    !o.OIdle? && !o.PushWrite? && !o.PushPublish? && !o.PopTop? && !o.PopCas?
  }

  lemma QuietOwnerFacts<T>(s: State<T>)
    requires Inv(s) && Quiet(s.owner)
    ensures var s' := OwnerNext(s);
            && s'.buf == s.buf && s'.top == s.top && s'.thieves == s.thieves && s'.pushed == s.pushed
            && LogicalBottom(s') == LogicalBottom(s)
            && OwnerOk(s') && EventOf(s, OwnerStep) == Silent
            && multiset(InFlight(s')) + multiset(s'.taken) == multiset(InFlight(s)) + multiset(s.taken)
  {
    hide Ring;
    hide Contents;
  }

  lemma QuietOwnerStep<T>(s: State<T>)
    requires Inv(s) && Quiet(s.owner)
    ensures Inv(OwnerNext(s))
    ensures SpecStep(s.Cap(), Contents(s), EventOf(s, OwnerStep), Contents(OwnerNext(s)))
  {
    hide Ring;
    hide OwnerNext;
    hide OwnerOk;
    var s' := OwnerNext(s);
    QuietOwnerFacts(s);
    SameDeque(s, s');
    assert forall i :: 0 <= i < |s'.thieves| ==> ThiefOk(s, s'.thieves[i]);
    assert multiset(s'.pushed) == multiset(Contents(s')) + (multiset(InFlight(s')) + multiset(s'.taken));
  }

  lemma OwnerStepOk<T>(s: State<T>)
    requires Inv(s) && !s.owner.OIdle?
    ensures Inv(OwnerNext(s))
    ensures SpecStep(s.Cap(), Contents(s), EventOf(s, OwnerStep), Contents(OwnerNext(s)))
  {
    hide Inv;
    hide Contents;
    hide OwnerNext;
    hide SpecStep;
    hide EventOf;
    match s.owner
    case PushWrite(_, _) => PushWriteStep(s);
    case PushPublish(_, _) => PushPublishStep(s);
    case PopTop(_) => PopTopStep(s);
    case PopCas(_, _) => PopCasStep(s);
    case _ =>
      QuietOwnerStep(s);
  }

  lemma OwnerBegins<T>(s: State<T>, o: Owner<T>)
    requires Inv(s) && s.owner.OIdle? && (o.PushBegin? || o.PopBegin?)
    ensures var s' := s.(owner := o);
            Inv(s') && s'.Cap() == s.Cap() && Contents(s') == Contents(s)
  {
    hide Ring;
    SameDeque(s, s.(owner := o));
    assert OwnerOk(s.(owner := o));
  }

  // ── Thief steps ──────────────────────────────────────────────────────

  lemma ThiefTakes<T>(s: State<T>, i: nat)
    requires Inv(s) && i < |s.thieves| && s.thieves[i].TCas? && s.thieves[i].t == s.top
    ensures Inv(ThiefNext(s, i))
    ensures SpecStep(s.Cap(), Contents(s), PopFront(s.thieves[i].v), Contents(ThiefNext(s, i)))
  {
    hide Ring;
    var s' := ThiefNext(s, i);
    var q := Contents(s);
    assert ThiefOk(s, s.thieves[i]);
    assert q[0] == s.Slot(s.top + 0);
    ContentsMatch(s', q[1..]);
    SplitFirst(q);
    forall j | 0 <= j < |s'.thieves|
      ensures ThiefOk(s', s'.thieves[j])
    {
      assert ThiefOk(s, s.thieves[j]);
    }
  }

  lemma ThiefMoves<T>(s: State<T>, i: nat, th: Thief<T>)
    requires Inv(s) && i < |s.thieves| && ThiefOk(s, th)
    ensures var s' := s.(thieves := s.thieves[i := th]);
            Inv(s') && s'.Cap() == s.Cap() && Contents(s') == Contents(s)
  {
    hide Ring;
    var s' := s.(thieves := s.thieves[i := th]);
    SameDeque(s, s');
    assert forall j :: 0 <= j < |s'.thieves| ==> ThiefOk(s, s'.thieves[j]);
    assert OwnerOk(s');
  }

  lemma ThiefStepOk<T>(s: State<T>, i: nat)
    requires Inv(s) && i < |s.thieves| && !s.thieves[i].TIdle?
    ensures Inv(ThiefNext(s, i))
    ensures SpecStep(s.Cap(), Contents(s), EventOf(s, ThiefStep(i)), Contents(ThiefNext(s, i)))
  {
    hide Ring;
    if s.thieves[i].TCas? && s.thieves[i].t == s.top {
      ThiefTakes(s, i);
    } else {
      assert ThiefOk(s, s.thieves[i]);
      ThiefMoves(s, i, ThiefNext(s, i).thieves[i]);
    }
  }

  // ── Every step, every run ────────────────────────────────────────────

  lemma CapConstant<T>(s: State<T>, a: Action<T>)
    requires |s.buf| > 0
    ensures Apply(s, a).Cap() == s.Cap()
  {
  }

  /** Each atomic step is one operation of the sequential deque, or none. */
  lemma StepLinearizes<T>(s: State<T>, a: Action<T>)
    requires Inv(s) && Enabled(s, a)
    ensures Inv(Apply(s, a)) && Apply(s, a).Cap() == s.Cap()
    ensures SpecStep(s.Cap(), Contents(s), EventOf(s, a), Contents(Apply(s, a)))
  {
    CapConstant(s, a);
    hide Ring;
    hide Inv;
    hide Contents;
    hide LogicalBottom;
    match a
    case OwnerStep => OwnerStepOk(s);
    case ThiefStep(i) => ThiefStepOk(s, i);
    case StartPush(v) => OwnerBegins(s, PushBegin(v));
    case StartPop => OwnerBegins(s, PopBegin);
    case StartSteal(i) => ThiefMoves(s, i, TTop);
    case GiveUp(i) => ThiefMoves(s, i, TIdle);
  }

  /** `run` is an interleaving of the owner and the thieves, taking actions `acts`. */
  ghost predicate IsRun<T>(run: seq<State<T>>, acts: seq<Action<T>>) {
    && |run| == |acts| + 1
    && Init(run[0])
    && (forall k :: 0 <= k < |run| ==> |run[k].buf| > 0)
    && (forall k :: 0 <= k < |acts| ==> Enabled(run[k], acts[k]) && run[k + 1] == Apply(run[k], acts[k]))
  }

  /** The sequential operations performed by a run, in order. */
  ghost function History<T>(run: seq<State<T>>, acts: seq<Action<T>>): seq<Event<T>>
    requires |run| == |acts| + 1 && forall k :: 0 <= k < |run| ==> |run[k].buf| > 0
  {
    seq(|acts|, k requires 0 <= k < |acts| => EventOf(run[k], acts[k]))
  }

  /** `qs` is an execution of the sequential deque performing `events` from empty. */
  ghost predicate SpecRun<T>(cap: nat, qs: seq<seq<T>>, events: seq<Event<T>>) {
    && |qs| == |events| + 1
    && qs[0] == []
    && (forall k :: 0 <= k < |events| ==> SpecStep(cap, qs[k], events[k], qs[k + 1]))
  }

  lemma {:induction false} RunInv<T>(run: seq<State<T>>, acts: seq<Action<T>>, k: nat)
    requires IsRun(run, acts) && k < |run|
    ensures Inv(run[k]) && run[k].Cap() == run[0].Cap()
  {
    if k == 0 {
      InitInv(run[0]);
    } else {
      RunInv(run, acts, k - 1);
      StepLinearizes(run[k - 1], acts[k - 1]);
    }
  }

  /** Linearizability: whatever the interleaving, the contents go through an execution
      of the sequential deque, never longer than the capacity. */
  lemma Linearizable<T>(run: seq<State<T>>, acts: seq<Action<T>>) returns (qs: seq<seq<T>>)
    requires IsRun(run, acts)
    ensures SpecRun(run[0].Cap(), qs, History(run, acts))
    ensures forall k :: 0 <= k < |run| ==> Inv(run[k]) && qs[k] == Contents(run[k]) && |qs[k]| <= run[0].Cap()
  {
    forall k | 0 <= k < |run|
      ensures Inv(run[k]) && run[k].Cap() == run[0].Cap()
    {
      RunInv(run, acts, k);
    }
    qs := seq(|run|, k requires 0 <= k < |run| => Contents(run[k]));
    forall k | 0 <= k < |acts|
      ensures SpecStep(run[0].Cap(), qs[k], EventOf(run[k], acts[k]), qs[k + 1])
    {
      StepLinearizes(run[k], acts[k]);
    }
    InitInv(run[0]);
  }

  /** No value is lost and none comes out twice: at every point of every run, what was
      pushed is what the deque holds, plus what was handed out, plus the one value the
      owner may be carrying to its caller. */
  lemma NothingLostNothingDuplicated<T>(run: seq<State<T>>, acts: seq<Action<T>>, k: nat, v: T)
    requires IsRun(run, acts) && k < |run|
    ensures Inv(run[k])
    ensures multiset(run[k].pushed)[v]
         == multiset(Contents(run[k]))[v] + multiset(InFlight(run[k]))[v] + multiset(run[k].taken)[v]
    ensures multiset(run[k].taken)[v] <= multiset(run[k].pushed)[v]
  {
    RunInv(run, acts, k);
  }

  // ── What the results mean ────────────────────────────────────────────

  /** `push` gives the value back only when the deque is full, and `pop` returns nothing
      only when it is empty, both at the access that decides it. */
  lemma FailuresAreHonest<T>(s: State<T>)
    requires Inv(s)
    ensures s.owner.PushTop? && OwnerNext(s).owner.OIdle? ==> |Contents(s)| == s.Cap()
    ensures s.owner.PopTop? && OwnerNext(s).owner.PopEmpty? ==> Contents(s) == []
    ensures s.owner.PopCas? && OwnerNext(s).owner == PopRestore(s.owner.b, None) ==> Contents(s) == []
  {
  }

  /** The value the owner reads after winning an index is the value that left the deque
      when it won it, however many thieves ran in between. */
  lemma OwnerGetsWhatItClaimed<T>(s: State<T>)
    requires Inv(s) && s.owner.PopTake?
    ensures OwnerNext(s).taken == s.taken + [s.owner.claim]
  {
  }

  /** A thief that loses its race hands out nothing and changes nothing. */
  lemma LostRaceIsHarmless<T>(s: State<T>, i: nat)
    requires Inv(s) && i < |s.thieves| && s.thieves[i].TCas? && s.thieves[i].t != s.top
    ensures s.thieves[i].t < s.top
    ensures ThiefNext(s, i) == s.(thieves := s.thieves[i := TIdle])
  {
    assert ThiefOk(s, s.thieves[i]);
  }
}
