/** How deque operations end. */
module Outcomes {
  // Over runs of any interleaving: a completed pop has taken the newest value or met an empty
  // deque, a completed push has appended its value or met a full one, a completed steal has taken
  // the oldest value, or met a deque with nothing to steal, or lost a race. And each is over after
  // a few accesses of its own, whatever the others do.

  import opened Options
  import opened Words
  import opened DequeSteps
  import opened DequeWords

  // ── Operations of a run ──────────────────────────────────────────────

  /** The owner begins an operation in step `j` and is still at it before step `m`. */
  ghost predicate OwnerBusy<T>(run: seq<State<T>>, j: nat, m: nat) {
    j < m < |run| && forall k :: j < k < m ==> !run[k].owner.OIdle?
  }

  ghost predicate ThiefBusy<T>(run: seq<State<T>>, i: nat, j: nat, m: nat) {
    j < m < |run| && forall k :: j < k < m ==> i < |run[k].thieves| && !run[k].thieves[i].TIdle?
  }

  /** What the steps `a` among `lo..hi` do to the sequential deque: nothing. */
  ghost predicate Silence<T>(run: seq<State<T>>, acts: seq<Action<T>>, a: Action<T>, lo: nat, hi: nat)
    requires IsRun(run, acts)
  {
    forall k :: lo <= k < hi && k < |acts| && acts[k] == a ==>
      EventOf(run[k], acts[k]) == Silent && run[k + 1].taken == run[k].taken && run[k + 1].pushed == run[k].pushed
  }

  /** Among the owner's accesses from `j` to `m` one pops `v` at the back; no other does anything. */
  ghost predicate Claims<T>(run: seq<State<T>>, acts: seq<Action<T>>, j: nat, e: nat, m: nat, v: T)
    requires IsRun(run, acts)
  {
    && j < e < m <= |acts| && acts[e] == OwnerStep && EventOf(run[e], acts[e]) == PopBack(v)
    && run[e + 1].taken == run[e].taken && run[e + 1].pushed == run[e].pushed
    && Silence(run, acts, OwnerStep, j, e) && Silence(run, acts, OwnerStep, e + 1, m)
  }

  ghost predicate IsEmpty<T>(s: State<T>) {
    Inv(s) && Contents(s) == []
  }

  ghost predicate IsFull<T>(s: State<T>) {
    Inv(s) && |Contents(s)| == s.Cap()
  }

  ghost predicate EmptyAtSome<T>(run: seq<State<T>>, j: nat, m: nat) {
    exists e :: j < e < m && e < |run| && IsEmpty(run[e])
  }

  ghost predicate FullAtSome<T>(run: seq<State<T>>, j: nat, m: nat) {
    exists e :: j < e < m && e < |run| && IsFull(run[e])
  }

  /** Nothing is in the deque but, perhaps, one value that the owner is in the middle of popping. */
  ghost predicate NothingToSteal<T>(s: State<T>) {
    Inv(s) && (Contents(s) == [] || (|Contents(s)| == 1 && (s.owner.PopTop? || s.owner.PopCas?)))
  }

  // ── Pops ─────────────────────────────────────────────────────────────

  /** How a pop begun in step `j` stands before step `m`. */
  ghost predicate Popping<T(!new)>(run: seq<State<T>>, acts: seq<Action<T>>, j: nat, m: nat)
    requires IsRun(run, acts) && m < |run|
  {
    match run[m].owner
    case PopBegin => Silence(run, acts, OwnerStep, j, m)
    case PopStore(_) => Silence(run, acts, OwnerStep, j, m)
    case PopTop(_) => Silence(run, acts, OwnerStep, j, m)
    case PopCas(_, _) => Silence(run, acts, OwnerStep, j, m)
    case PopEmpty(_) => Silence(run, acts, OwnerStep, j, m) && EmptyAtSome(run, j, m)
    case PopRestore(_, won) =>
      if won.None? then Silence(run, acts, OwnerStep, j, m) && EmptyAtSome(run, j, m)
      else exists e :: Claims(run, acts, j, e, m, won.value)
    case PopTake(_, claim) => exists e :: Claims(run, acts, j, e, m, claim)
    case OIdle =>
      (exists e, v :: PopReturns(run, acts, j, e, m, v))
        || (Silence(run, acts, OwnerStep, j, m) && EmptyAtSome(run, j, m))
    case _ => false
  }

  /** The pop took `v` at the back in step `e`, and hands it out in its last step. */
  ghost predicate PopReturns<T>(run: seq<State<T>>, acts: seq<Action<T>>, j: nat, e: nat, m: nat, v: T)
    requires IsRun(run, acts)
  {
    && 0 < m < |run| && acts[m - 1] == OwnerStep && Claims(run, acts, j, e, m - 1, v)
    && run[m].taken == run[m - 1].taken + [v]
  }

  lemma LongerSilence<T>(run: seq<State<T>>, acts: seq<Action<T>>, a: Action<T>, j: nat, m: nat)
    requires IsRun(run, acts) && m < |acts| && Silence(run, acts, a, j, m)
    requires acts[m] == a ==>
               EventOf(run[m], a) == Silent && run[m + 1].taken == run[m].taken && run[m + 1].pushed == run[m].pushed
    ensures Silence(run, acts, a, j, m + 1)
  {
    hide EventOf, IsRun;
  }

  lemma LongerClaims<T>(run: seq<State<T>>, acts: seq<Action<T>>, j: nat, e: nat, m: nat, v: T)
    requires IsRun(run, acts) && m < |acts| && Claims(run, acts, j, e, m, v)
    requires acts[m] == OwnerStep ==>
               && EventOf(run[m], OwnerStep) == Silent
               && run[m + 1].taken == run[m].taken && run[m + 1].pushed == run[m].pushed
    ensures Claims(run, acts, j, e, m + 1, v)
  {
    hide EventOf, IsRun;
    LongerSilence(run, acts, OwnerStep, e + 1, m);
  }

  /** Only the owner moves the owner. */
  lemma OthersLeaveOwner<T>(s: State<T>, a: Action<T>)
    requires |s.buf| > 0 && Enabled(s, a) && a != OwnerStep && !s.owner.OIdle?
    ensures Apply(s, a).owner == s.owner
  {
  }

  /** What an access of the owner in the middle of a pop does. */
  lemma PopAccess<T>(s: State<T>)
    requires Inv(s) && Popper(s.owner)
    ensures var s' := OwnerNext(s); var e := EventOf(s, OwnerStep);
            match s'.owner
            case PopStore(_) => s.owner.PopBegin? && Quietly(s, s')
            case PopTop(_) => s.owner.PopStore? && Quietly(s, s')
            case PopCas(_, _) => s.owner.PopTop? && Quietly(s, s')
            case PopEmpty(_) => s.owner.PopTop? && Quietly(s, s') && Contents(s) == []
            case PopRestore(_, won) =>
              && s.owner.PopCas? && s'.taken == s.taken && s'.pushed == s.pushed
              && (if won.Some? then e == PopBack(won.value) else e == Silent && Contents(s) == [])
            case PopTake(_, v) =>
              && s'.taken == s.taken && s'.pushed == s.pushed
              && ((s.owner.PopTop? && e == PopBack(v))
                  || (s.owner.PopRestore? && s.owner.won == Some(v) && e == Silent))
            case OIdle =>
              && e == Silent
              && ((s.owner.PopEmpty? && Quietly(s, s')) || (s.owner.PopRestore? && s.owner.won.None? && Quietly(s, s'))
                  || (s.owner.PopTake? && s'.taken == s.taken + [s.owner.claim]))
            case _ => false
  {
  }

  predicate Popper<T>(o: Owner<T>) {
    o.PopBegin? || o.PopStore? || o.PopTop? || o.PopEmpty? || o.PopCas? || o.PopRestore? || o.PopTake?
  }

  ghost predicate Quietly<T>(s: State<T>, s': State<T>)
    requires |s.buf| > 0
  {
    EventOf(s, OwnerStep) == Silent && s'.taken == s.taken && s'.pushed == s.pushed
  }

  lemma SameOwnerPopping<T(!new)>(run: seq<State<T>>, acts: seq<Action<T>>, j: nat, m: nat)
    requires IsRun(run, acts) && j < m < |acts| && m + 1 < |run|
    requires Popping(run, acts, j, m) && !run[m].owner.OIdle? && acts[m] != OwnerStep
             && run[m + 1].owner == run[m].owner
    ensures Popping(run, acts, j, m + 1)
  {
    hide EventOf, IsRun, Inv, Silence;
    match run[m].owner
    case PopRestore(_, won) =>
      if won.None? {
        LongerSilence(run, acts, OwnerStep, j, m);
        StillEmpty(run, j, m);
      } else {
        var e :| Claims(run, acts, j, e, m, won.value);
        LongerClaims(run, acts, j, e, m, won.value);
      }
    case PopTake(_, claim) =>
      var e :| Claims(run, acts, j, e, m, claim);
      LongerClaims(run, acts, j, e, m, claim);
    case PopEmpty(_) =>
      LongerSilence(run, acts, OwnerStep, j, m);
      StillEmpty(run, j, m);
    case _ =>
      LongerSilence(run, acts, OwnerStep, j, m);
  }

  lemma StillEmpty<T>(run: seq<State<T>>, j: nat, m: nat)
    requires EmptyAtSome(run, j, m)
    ensures EmptyAtSome(run, j, m + 1)
  {
    hide IsEmpty;
    var e :| j < e < m && e < |run| && IsEmpty(run[e]);
    assert j < e < m + 1;
  }

  lemma NewlyEmpty<T>(run: seq<State<T>>, j: nat, m: nat)
    requires j < m < |run| && IsEmpty(run[m])
    ensures EmptyAtSome(run, j, m + 1)
  {
    hide IsEmpty;
    assert j < m < m + 1;
  }

  lemma OwnerMovesPopping<T(!new)>(run: seq<State<T>>, acts: seq<Action<T>>, j: nat, m: nat)
    requires IsRun(run, acts) && j < m < |acts| && Popping(run, acts, j, m) && !run[m].owner.OIdle?
    requires acts[m] == OwnerStep && Inv(run[m])
    ensures Popping(run, acts, j, m + 1)
  {
    hide EventOf, Inv, Silence;
    var s, s' := run[m], run[m + 1];
    assert s' == OwnerNext(s);
    assert Popper(s.owner);
    PopAccess(s);
    hide IsRun, OwnerNext;
    if s.owner.PopTake? || (s.owner.PopRestore? && s.owner.won.Some?) {
      var v := if s.owner.PopTake? then s.owner.claim else s.owner.won.value;
      var e :| Claims(run, acts, j, e, m, v);
      if s.owner.PopTake? {
        assert PopReturns(run, acts, j, e, m + 1, v);
      } else {
        LongerClaims(run, acts, j, e, m, v);
      }
    } else if s'.owner.PopTake? || (s'.owner.PopRestore? && s'.owner.won.Some?) {
      var v := if s'.owner.PopTake? then s'.owner.claim else s'.owner.won.value;
      NoneBetween(run, acts, m + 1);
      assert Claims(run, acts, j, m, m + 1, v);
    } else {
      LongerSilence(run, acts, OwnerStep, j, m);
      if s.owner.PopEmpty? || s.owner.PopRestore? {
        StillEmpty(run, j, m);
      } else if s'.owner.PopEmpty? || s'.owner.PopRestore? {
        NewlyEmpty(run, j, m);
      }
    }
  }

  lemma NoneBetween<T>(run: seq<State<T>>, acts: seq<Action<T>>, m: nat)
    requires IsRun(run, acts)
    ensures Silence(run, acts, OwnerStep, m, m)
  {
  }

  lemma {:induction false} PopPhase<T(!new)>(run: seq<State<T>>, acts: seq<Action<T>>, j: nat, m: nat)
    requires IsRun(run, acts) && j < |acts| && acts[j] == StartPop && OwnerBusy(run, j, m)
    ensures Popping(run, acts, j, m)
    decreases m
  {
    hide Popping, Inv;
    if m == j + 1 {
      PopBegins(run, acts, j);
    } else {
      PopPhase(run, acts, j, m - 1);
      RunInv(run, acts, m - 1);
      if acts[m - 1] == OwnerStep {
        OwnerMovesPopping(run, acts, j, m - 1);
      } else {
        OthersLeaveOwner(run[m - 1], acts[m - 1]);
        assert run[m - 1 + 1] == Apply(run[m - 1], acts[m - 1]);
        SameOwnerPopping(run, acts, j, m - 1);
      }
    }
  }

  lemma PopBegins<T(!new)>(run: seq<State<T>>, acts: seq<Action<T>>, j: nat)
    requires IsRun(run, acts) && j < |acts| && acts[j] == StartPop
    ensures Popping(run, acts, j, j + 1)
  {
    assert run[j + 1] == Apply(run[j], acts[j]);
  }

  /** A pop that is over has taken the value at the back, exactly once, and handed it out in its
      last access; or it has done nothing, and the deque was empty on the way. */
  lemma PopOutcome<T(!new)>(run: seq<State<T>>, acts: seq<Action<T>>, j: nat, m: nat)
    requires IsRun(run, acts) && j < |acts| && acts[j] == StartPop && OwnerBusy(run, j, m) && run[m].owner.OIdle?
    ensures || (exists e, v :: PopReturns(run, acts, j, e, m, v))
            || (Silence(run, acts, OwnerStep, j, m) && EmptyAtSome(run, j, m))
  {
    hide Silence;
    PopPhase(run, acts, j, m);
  }

  // ── Pushes ───────────────────────────────────────────────────────────

  /** The push appends `v` in its last step, and does nothing before. */
  ghost predicate PushAppends<T>(run: seq<State<T>>, acts: seq<Action<T>>, j: nat, m: nat, v: T)
    requires IsRun(run, acts)
  {
    && 0 < m < |run| && acts[m - 1] == OwnerStep && Silence(run, acts, OwnerStep, j, m - 1)
    && EventOf(run[m - 1], OwnerStep) == PushBack(v)
    && run[m].pushed == run[m - 1].pushed + [v] && run[m].taken == run[m - 1].taken
  }

  /** How a push begun in step `j` stands before step `m`. */
  ghost predicate Pushing<T>(run: seq<State<T>>, acts: seq<Action<T>>, j: nat, m: nat, v: T)
    requires IsRun(run, acts) && m < |run|
  {
    match run[m].owner
    case PushBegin(x) => x == v && Silence(run, acts, OwnerStep, j, m)
    case PushTop(x, _) => x == v && Silence(run, acts, OwnerStep, j, m)
    case PushWrite(x, _) => x == v && Silence(run, acts, OwnerStep, j, m)
    case PushPublish(x, _) => x == v && Silence(run, acts, OwnerStep, j, m)
    case OIdle => PushAppends(run, acts, j, m, v) || (Silence(run, acts, OwnerStep, j, m) && FullAtSome(run, j, m))
    case _ => false
  }

  lemma PushMoves<T>(run: seq<State<T>>, acts: seq<Action<T>>, j: nat, m: nat, v: T)
    requires IsRun(run, acts) && j < m < |acts| && Pushing(run, acts, j, m, v) && !run[m].owner.OIdle?
    requires Inv(run[m])
    ensures Pushing(run, acts, j, m + 1, v)
  {
    hide Silence, Ring;
    assert run[m + 1] == Apply(run[m], acts[m]) && Enabled(run[m], acts[m]);
    if acts[m] != OwnerStep {
      OthersLeaveOwner(run[m], acts[m]);
      LongerSilence(run, acts, OwnerStep, j, m);
    } else if !run[m].owner.PushPublish? {
      LongerSilence(run, acts, OwnerStep, j, m);
      if run[m].owner.PushTop? && run[m + 1].owner.OIdle? {
        FailuresAreHonest(run[m]);
        assert IsFull(run[m]);
      }
    }
  }

  lemma {:induction false} PushPhase<T>(run: seq<State<T>>, acts: seq<Action<T>>, j: nat, m: nat, v: T)
    requires IsRun(run, acts) && j < |acts| && acts[j] == StartPush(v) && OwnerBusy(run, j, m)
    ensures Pushing(run, acts, j, m, v)
    decreases m
  {
    hide Pushing, Inv;
    if m == j + 1 {
      PushBegins(run, acts, j, v);
    } else {
      PushPhase(run, acts, j, m - 1, v);
      RunInv(run, acts, m - 1);
      PushMoves(run, acts, j, m - 1, v);
    }
  }

  lemma PushBegins<T>(run: seq<State<T>>, acts: seq<Action<T>>, j: nat, v: T)
    requires IsRun(run, acts) && j < |acts| && acts[j] == StartPush(v)
    ensures Pushing(run, acts, j, j + 1, v)
  {
    assert run[j + 1] == Apply(run[j], acts[j]);
  }

  /** A push that is over has appended its value at the back, in its last access; or it has done
      nothing, and the deque was full on the way. */
  lemma PushOutcome<T>(run: seq<State<T>>, acts: seq<Action<T>>, j: nat, m: nat, v: T)
    requires IsRun(run, acts) && j < |acts| && acts[j] == StartPush(v) && OwnerBusy(run, j, m) && run[m].owner.OIdle?
    ensures PushAppends(run, acts, j, m, v) || (Silence(run, acts, OwnerStep, j, m) && FullAtSome(run, j, m))
  {
    hide Silence;
    PushPhase(run, acts, j, m, v);
  }

  // ── Steals ───────────────────────────────────────────────────────────

  /** The steal takes `v` at the front and hands it out in its last step, and does nothing before. */
  ghost predicate StealTakes<T>(run: seq<State<T>>, acts: seq<Action<T>>, i: nat, j: nat, m: nat, v: T)
    requires IsRun(run, acts)
  {
    && 0 < m < |run| && acts[m - 1] == ThiefStep(i) && Silence(run, acts, ThiefStep(i), j, m - 1)
    && EventOf(run[m - 1], ThiefStep(i)) == PopFront(v) && run[m].taken == run[m - 1].taken + [v]
  }

  /** Thief `i` loads `top` in step `e`. */
  ghost predicate LoadsTop<T>(run: seq<State<T>>, acts: seq<Action<T>>, i: nat, j: nat, e: nat, m: nat) {
    && j < e < m <= |acts| < |run| && acts[e] == ThiefStep(i) && i < |run[e].thieves| && run[e].thieves[i].TTop?
  }

  /** There was nothing to steal on the way, or `top` has moved since the thief loaded it. */
  ghost predicate StealExcuse<T>(run: seq<State<T>>, acts: seq<Action<T>>, i: nat, j: nat, m: nat) {
    || (exists e :: j < e < m && e < |run| && NothingToSteal(run[e]))
    || (exists e: nat, d :: LoadsTop(run, acts, i, j, e, m) && e < d <= m && d < |run| && run[d].top != run[e].top)
  }

  ghost predicate Loaded<T>(run: seq<State<T>>, acts: seq<Action<T>>, i: nat, j: nat, m: nat, t: int) {
    exists e: nat :: LoadsTop(run, acts, i, j, e, m) && run[e].top == t
  }

  /** How a steal begun in step `j` stands before step `m`. */
  ghost predicate Stealing<T(!new)>(run: seq<State<T>>, acts: seq<Action<T>>, i: nat, j: nat, m: nat)
    requires IsRun(run, acts) && m < |run| && i < |run[m].thieves|
  {
    match run[m].thieves[i]
    case TTop => Silence(run, acts, ThiefStep(i), j, m)
    case TBottom(t) => Silence(run, acts, ThiefStep(i), j, m) && Loaded(run, acts, i, j, m, t)
    case TRead(t) => Silence(run, acts, ThiefStep(i), j, m) && Loaded(run, acts, i, j, m, t)
    case TCas(t, _) => Silence(run, acts, ThiefStep(i), j, m) && Loaded(run, acts, i, j, m, t)
    case TIdle =>
      || (exists v :: StealTakes(run, acts, i, j, m, v))
      || (Silence(run, acts, ThiefStep(i), j, m) && StealExcuse(run, acts, i, j, m))
  }

  lemma LoadedStill<T>(run: seq<State<T>>, acts: seq<Action<T>>, i: nat, j: nat, m: nat, t: int)
    requires Loaded(run, acts, i, j, m, t) && m < |acts|
    ensures Loaded(run, acts, i, j, m + 1, t)
  {
    var e: nat :| LoadsTop(run, acts, i, j, e, m) && run[e].top == t;
    assert LoadsTop(run, acts, i, j, e, m + 1);
  }

  /** An access of the thief that is not its claim is silent. */
  lemma ThiefAccess<T>(s: State<T>, i: nat)
    requires Inv(s) && i < |s.thieves| && !s.thieves[i].TIdle?
    ensures var s' := ThiefNext(s, i); var th := s.thieves[i];
            && (s'.thieves[i].TIdle? && !(th.TCas? && th.t == s.top) ==>
                  NothingToSteal(s) || (!th.TTop? && th.t != s.top))
            && (!(th.TCas? && th.t == s.top) ==>
                  EventOf(s, ThiefStep(i)) == Silent && s'.taken == s.taken && s'.pushed == s.pushed)
            && (th.TCas? && th.t == s.top ==>
                  s'.thieves[i].TIdle? && EventOf(s, ThiefStep(i)) == PopFront(th.v) && s'.taken == s.taken + [th.v])
            && (match s'.thieves[i]
                case TTop => false
                case TBottom(t) => th.TTop? && t == s.top
                case TRead(t) => th == TBottom(t)
                case TCas(t, _) => th == TRead(t)
                case TIdle => true)
  {
    hide Ring;
    assert ThiefOk(s, s.thieves[i]);
  }

  lemma OthersLeaveThief<T>(s: State<T>, a: Action<T>, i: nat)
    requires |s.buf| > 0 && Enabled(s, a) && a != ThiefStep(i) && a != GiveUp(i)
    requires i < |s.thieves| && !s.thieves[i].TIdle?
    ensures i < |Apply(s, a).thieves| && Apply(s, a).thieves[i] == s.thieves[i]
  {
  }

  lemma MovedSince<T>(run: seq<State<T>>, acts: seq<Action<T>>, i: nat, j: nat, m: nat, t: int)
    requires Loaded(run, acts, i, j, m, t) && m < |acts| && run[m].top != t
    ensures StealExcuse(run, acts, i, j, m + 1)
  {
    var e: nat :| LoadsTop(run, acts, i, j, e, m) && run[e].top == t;
    assert LoadsTop(run, acts, i, j, e, m + 1) && e < m <= m + 1;
  }

  lemma ThiefMovesStealing<T(!new)>(run: seq<State<T>>, acts: seq<Action<T>>, i: nat, j: nat, m: nat)
    requires IsRun(run, acts) && j < m < |acts| && i < |run[m].thieves| && !run[m].thieves[i].TIdle?
    requires Stealing(run, acts, i, j, m) && Inv(run[m])
    ensures i < |run[m + 1].thieves| && Stealing(run, acts, i, j, m + 1)
  {
    hide Silence, Ring, Inv, NothingToSteal, EventOf, Loaded, StealExcuse;
    var s, a, s' := run[m], acts[m], run[m + 1];
    assert s' == Apply(s, a) && Enabled(s, a);
    if s.thieves[i].TIdle? || s.thieves[i].TTop? {
    } else if m < |acts| {
      LoadedStill(run, acts, i, j, m, s.thieves[i].t);
    }
    if a == ThiefStep(i) {
      ThiefAccess(s, i);
      hide ThiefNext;
      if s.thieves[i].TCas? && s.thieves[i].t == s.top {
        assert StealTakes(run, acts, i, j, m + 1, s.thieves[i].v);
      } else {
        LongerSilence(run, acts, ThiefStep(i), j, m);
        if s'.thieves[i].TIdle? {
          if NothingToSteal(s) {
            NothingNow(run, acts, i, j, m);
          } else {
            MovedSince(run, acts, i, j, m, s.thieves[i].t);
          }
        } else if s'.thieves[i].TBottom? {
          assert LoadsTop(run, acts, i, j, m, m + 1);
          LoadedNow(run, acts, i, j, m);
        }
      }
    } else {
      LongerSilence(run, acts, ThiefStep(i), j, m);
      if a == GiveUp(i) {
        MovedSince(run, acts, i, j, m, s.thieves[i].t);
      } else {
        OthersLeaveThief(s, a, i);
      }
    }
  }

  lemma NothingNow<T>(run: seq<State<T>>, acts: seq<Action<T>>, i: nat, j: nat, m: nat)
    requires j < m < |run| && NothingToSteal(run[m])
    ensures StealExcuse(run, acts, i, j, m + 1)
  {
    assert j < m < m + 1;
  }

  lemma LoadedNow<T>(run: seq<State<T>>, acts: seq<Action<T>>, i: nat, j: nat, m: nat)
    requires LoadsTop(run, acts, i, j, m, m + 1)
    ensures Loaded(run, acts, i, j, m + 1, run[m].top)
  {
  }

  lemma {:induction false} StealPhase<T(!new)>(run: seq<State<T>>, acts: seq<Action<T>>, i: nat, j: nat, m: nat)
    requires IsRun(run, acts) && j < |acts| && acts[j] == StartSteal(i) && ThiefBusy(run, i, j, m)
    ensures i < |run[m].thieves| && Stealing(run, acts, i, j, m)
    decreases m
  {
    hide Stealing, Inv;
    if m == j + 1 {
      StealBegins(run, acts, i, j);
    } else {
      StealPhase(run, acts, i, j, m - 1);
      RunInv(run, acts, m - 1);
      ThiefMovesStealing(run, acts, i, j, m - 1);
    }
  }

  lemma StealBegins<T(!new)>(run: seq<State<T>>, acts: seq<Action<T>>, i: nat, j: nat)
    requires IsRun(run, acts) && j < |acts| && acts[j] == StartSteal(i)
    ensures i < |run[j + 1].thieves| && Stealing(run, acts, i, j, j + 1)
  {
    assert run[j + 1] == Apply(run[j], acts[j]) && Enabled(run[j], acts[j]);
  }

  /** A steal that is over has taken the value at the front, in its last access; or it has done
      nothing, and on the way there was nothing to steal, or `top` moved after it loaded it. */
  lemma StealOutcome<T(!new)>(run: seq<State<T>>, acts: seq<Action<T>>, i: nat, j: nat, m: nat)
    requires IsRun(run, acts) && j < |acts| && acts[j] == StartSteal(i) && ThiefBusy(run, i, j, m)
    requires i < |run[m].thieves| && run[m].thieves[i].TIdle?
    ensures || (exists v :: StealTakes(run, acts, i, j, m, v))
            || (Silence(run, acts, ThiefStep(i), j, m) && StealExcuse(run, acts, i, j, m))
  {
    hide Silence;
    StealPhase(run, acts, i, j, m);
  }

  /** One value, which the owner is about to pop. */
  const LAST: State<nat> := State(0, 0, [7, 0], PopTop(0), [TIdle], [7], [])

  lemma OneMoreAction(run: seq<State<nat>>, acts: seq<Action<nat>>, s: State<nat>, a: Action<nat>, s': State<nat>)
    returns (run': seq<State<nat>>, acts': seq<Action<nat>>)
    requires IsRun(run, acts) && run[|acts|] == s && Enabled(s, a) && |s.buf| > 0 && |s'.buf| > 0 && s' == Apply(s, a)
    ensures IsRun(run', acts') && run' == run + [s'] && acts' == acts + [a]
  {
    hide Apply, Enabled;
    RunExtends(run, acts, a);
    run', acts' := run + [s'], acts + [a];
  }

  lemma AboutToPopTheLast() returns (run: seq<State<nat>>, acts: seq<Action<nat>>)
    ensures IsRun(run, acts) && |acts| == 8 && |run| == 9 && run[8] == LAST
  {
    hide IsRun;
    var s := State(0, 0, [0, 0], OIdle, [TIdle], [], []);
    var s4 := s.(owner := PushPublish(7, 0), buf := [7, 0]);
    var s5 := s4.(owner := OIdle, bottom := 1, pushed := [7]);
    run, acts := [s], [];
    assert IsRun(run, acts) by {
      JustBegun(s);
    }
    run, acts := OneMoreAction(run, acts, s, StartPush(7), s.(owner := PushBegin(7)));
    run, acts := OneMoreAction(run, acts, s.(owner := PushBegin(7)), OwnerStep, s.(owner := PushTop(7, 0)));
    run, acts := OneMoreAction(run, acts, s.(owner := PushTop(7, 0)), OwnerStep, s.(owner := PushWrite(7, 0)));
    run, acts := OneMoreAction(run, acts, s.(owner := PushWrite(7, 0)), OwnerStep, s4);
    run, acts := OneMoreAction(run, acts, s4, OwnerStep, s5);
    run, acts := OneMoreAction(run, acts, s5, StartPop, s5.(owner := PopBegin));
    run, acts := OneMoreAction(run, acts, s5.(owner := PopBegin), OwnerStep, s5.(owner := PopStore(0)));
    run, acts := OneMoreAction(run, acts, s5.(owner := PopStore(0)), OwnerStep, LAST);
  }

  lemma JustBegun(s: State<nat>)
    requires Init(s)
    ensures IsRun([s], [])
  {
  }

  ghost predicate HoldsLast(s: State<nat>) {
    Inv(s) && Contents(s) == [7]
  }

  /** A steal may come home empty-handed though the deque is never empty and `top` never moves:
      the owner is about to pop the only value. */
  lemma StealMissesTheLast() returns (run: seq<State<nat>>, acts: seq<Action<nat>>)
    ensures IsRun(run, acts) && |acts| == 11 && acts[8] == StartSteal(0)
    ensures ThiefBusy(run, 0, 8, 11) && |run[11].thieves| > 0 && run[11].thieves[0].TIdle?
    ensures forall k :: 8 <= k <= 11 ==> HoldsLast(run[k]) && run[k].top == run[8].top
    ensures run[11] == run[8]
  {
    hide IsRun, Inv, HoldsLast;
    run, acts := AboutToPopTheLast();
    run, acts := OneMoreAction(run, acts, LAST, StartSteal(0), LAST.(thieves := [TTop]));
    run, acts := OneMoreAction(run, acts, LAST.(thieves := [TTop]), ThiefStep(0), LAST.(thieves := [TBottom(0)]));
    run, acts := OneMoreAction(run, acts, LAST.(thieves := [TBottom(0)]), ThiefStep(0), LAST);
    forall k | 8 <= k <= 11
      ensures HoldsLast(run[k])
    {
      RunInv(run, acts, k);
      assert run[k] == LAST.(thieves := run[k].thieves);
      HoldsTheLast(run[k]);
    }
  }

  lemma HoldsTheLast(s: State<nat>)
    requires s == LAST.(thieves := s.thieves) && Inv(s)
    ensures HoldsLast(s)
  {
  }

  // ── How long they take ───────────────────────────────────────────────

  /** How often `a` is taken in steps `lo..hi`. */
  ghost function Count<T>(acts: seq<Action<T>>, a: Action<T>, lo: nat, hi: nat): nat
    requires lo <= hi <= |acts|
  {
    if lo == hi then 0 else Count(acts, a, lo, hi - 1) + if acts[hi - 1] == a then 1 else 0
  }

  /** How many accesses the owner still makes, at most. */
  function ToGo<T>(o: Owner<T>): nat {
    match o
    case OIdle => 0
    case PushBegin(_) => 4
    case PushTop(_, _) => 3
    case PushWrite(_, _) => 2
    case PushPublish(_, _) => 1
    case PopBegin => 6
    case PopStore(_) => 5
    case PopTop(_) => 4
    case PopCas(_, _) => 3
    case PopRestore(_, _) => 2
    case PopEmpty(_) => 1
    case PopTake(_, _) => 1
  }

  function ThiefToGo<T>(th: Thief<T>): nat {
    match th
    case TIdle => 0
    case TTop => 4
    case TBottom(_) => 3
    case TRead(_) => 2
    case TCas(_, _) => 1
  }

  lemma OwnerGoesOn<T>(c: Shape, w: WState<T>, a: Action<T>)
    requires WellFormed(c, w) && WEnabled(w, a) && !w.owner.OIdle?
    ensures ToGo(WApply(c, w, a).owner) + (if a == OwnerStep then 1 else 0) <= ToGo(w.owner)
  {
    hide Wrap, BitAnd, Pattern, Pow2, WSlot;
  }

  lemma ThiefGoesOn<T>(c: Shape, w: WState<T>, a: Action<T>, i: nat)
    requires WellFormed(c, w) && WEnabled(w, a) && i < |w.thieves| && !w.thieves[i].at.TIdle?
    ensures i < |WApply(c, w, a).thieves|
    ensures ThiefToGo(WApply(c, w, a).thieves[i].at) + (if a == ThiefStep(i) then 1 else 0)
         <= ThiefToGo(w.thieves[i].at)
  {
    hide Wrap, BitAnd, Pattern, Pow2, WSlot;
  }

  lemma WStepAt<T>(c: Shape, run: seq<WState<T>>, acts: seq<Action<T>>, k: nat)
    requires IsWRun(c, run, acts) && k < |acts|
    ensures |run| == |acts| + 1 && WellFormed(c, run[k]) && WEnabled(run[k], acts[k])
            && run[k + 1] == WApply(c, run[k], acts[k])
  {
    hide WellFormed, WEnabled, WApply, WInit;
  }

  /** Pops and pushes are wait-free: one that is not over has made fewer than six of its own
      accesses, or fewer than four, whatever thieves did in between. */
  lemma {:induction false} OwnerIsWaitFree<T>(c: Shape, run: seq<WState<T>>, acts: seq<Action<T>>, j: nat, m: nat)
    requires IsWRun(c, run, acts) && j < m <= |acts| < |run| && (acts[j].StartPop? || acts[j].StartPush?)
    requires forall k :: j < k <= m ==> !run[k].owner.OIdle?
    ensures Count(acts, OwnerStep, j, m) + ToGo(run[m].owner) <= if acts[j].StartPop? then 6 else 4
    ensures Count(acts, OwnerStep, j, m) < if acts[j].StartPop? then 6 else 4
    decreases m
  {
    hide IsWRun, WEnabled, WellFormed;
    WStepAt(c, run, acts, m - 1);
    if m > j + 1 {
      hide WApply;
      OwnerIsWaitFree(c, run, acts, j, m - 1);
      OwnerGoesOn(c, run[m - 1], acts[m - 1]);
    } else {
      assert Count(acts, OwnerStep, j, j) == 0;
    }
  }

  /** So are steals, with four. */
  lemma {:induction false} ThievesAreWaitFree<T>(c: Shape, run: seq<WState<T>>, acts: seq<Action<T>>, i: nat, j: nat,
                                                 m: nat)
    requires IsWRun(c, run, acts) && j < m <= |acts| < |run| && acts[j] == StartSteal(i)
    requires forall k :: j < k <= m ==> i < |run[k].thieves| && !run[k].thieves[i].at.TIdle?
    ensures Count(acts, ThiefStep(i), j, m) + ThiefToGo(run[m].thieves[i].at) <= 4
    ensures Count(acts, ThiefStep(i), j, m) < 4
    decreases m
  {
    hide IsWRun, WEnabled, WellFormed;
    WStepAt(c, run, acts, m - 1);
    if m > j + 1 {
      hide WApply;
      ThievesAreWaitFree(c, run, acts, i, j, m - 1);
      ThiefGoesOn(c, run[m - 1], acts[m - 1], i);
    } else {
      assert Count(acts, ThiefStep(i), j, j) == 0;
    }
  }

  // ── On words ─────────────────────────────────────────────────────────

  /** The two runs are the same run, on words and on counters. */
  ghost predicate SameRun<T>(c: Shape, run: seq<WState<T>>, acts: seq<Action<T>>, srun: seq<State<T>>,
                             sacts: seq<Action<T>>) {
    && IsWRun(c, run, acts) && IsRun(srun, sacts) && |srun| == |run| && |sacts| == |acts|
    && (forall k :: 0 <= k < |run| ==> Rel(c, run[k], srun[k]))
    && (forall k :: 0 <= k < |acts| ==>
          && sacts[k] == TrueAction(c, run[k], srun[k], acts[k])
          && WEventOf(c, run[k], acts[k]) == EventOf(srun[k], sacts[k]))
  }

  lemma HasSameRun<T>(c: Shape, run: seq<WState<T>>, acts: seq<Action<T>>)
    returns (srun: seq<State<T>>, sacts: seq<Action<T>>)
    requires IsWRun(c, run, acts)
    requires forall k :: 0 <= k < |acts| ==> InTime(c, run[k], acts[k])
    ensures SameRun(c, run, acts, srun, sacts)
  {
    hide Rel, Inv, InTime, WEventOf, EventOf, TrueAction;
    srun, sacts := WordsRefine(c, run, acts);
    forall k | 0 <= k < |acts|
      ensures WEventOf(c, run[k], acts[k]) == EventOf(srun[k], sacts[k])
    {
      RunInv(srun, sacts, k);
      SameEvent(c, run[k], srun[k], acts[k]);
    }
  }

  /** Steps `lo..hi` of this kind do nothing to the sequential deque and hand nothing out. */
  ghost predicate WSilence<T>(c: Shape, run: seq<WState<T>>, acts: seq<Action<T>>, a: Action<T>, lo: nat, hi: nat)
    requires IsWRun(c, run, acts)
  {
    forall k :: lo <= k < hi && k < |acts| && acts[k] == a ==>
      WEventOf(c, run[k], acts[k]) == Silent && run[k + 1].taken == run[k].taken && run[k + 1].pushed == run[k].pushed
  }

  /** As `PopReturns`, on words. */
  ghost predicate WPopReturns<T>(c: Shape, run: seq<WState<T>>, acts: seq<Action<T>>, j: nat, e: nat, m: nat, v: T)
    requires IsWRun(c, run, acts)
  {
    && j < e < m - 1 < |acts| && acts[e] == OwnerStep && WEventOf(c, run[e], acts[e]) == PopBack(v)
    && run[e + 1].taken == run[e].taken && run[e + 1].pushed == run[e].pushed
    && WSilence(c, run, acts, OwnerStep, j, e) && WSilence(c, run, acts, OwnerStep, e + 1, m - 1)
    && acts[m - 1] == OwnerStep && run[m].taken == run[m - 1].taken + [v]
  }

  ghost predicate WPushAppends<T>(c: Shape, run: seq<WState<T>>, acts: seq<Action<T>>, j: nat, m: nat, v: T)
    requires IsWRun(c, run, acts)
  {
    && j < m <= |acts| && acts[m - 1] == OwnerStep && WSilence(c, run, acts, OwnerStep, j, m - 1)
    && WEventOf(c, run[m - 1], OwnerStep) == PushBack(v) && run[m].pushed == run[m - 1].pushed + [v]
  }

  ghost predicate WStealTakes<T>(c: Shape, run: seq<WState<T>>, acts: seq<Action<T>>, i: nat, j: nat, m: nat, v: T)
    requires IsWRun(c, run, acts)
  {
    && j < m <= |acts| && acts[m - 1] == ThiefStep(i) && WSilence(c, run, acts, ThiefStep(i), j, m - 1)
    && WEventOf(c, run[m - 1], ThiefStep(i)) == PopFront(v) && run[m].taken == run[m - 1].taken + [v]
  }

  /** There was nothing to steal on the way, or `top` has moved on since the thief loaded it. */
  ghost predicate WStealExcuse<T>(run: seq<WState<T>>, acts: seq<Action<T>>, srun: seq<State<T>>, i: nat, j: nat,
                                  m: nat)
    requires |srun| == |run| == |acts| + 1
  {
    || (exists e :: j < e < m && e < |srun| && NothingToSteal(srun[e]))
    || (exists e, d :: j < e < d <= m && d < |run| && acts[e] == ThiefStep(i) && i < |run[e].thieves|
                       && run[e].thieves[i].at.TTop? && run[d].total != run[e].total)
  }

  /** What the relation says of two states. */
  ghost predicate Alike<T>(w: WState<T>, s: State<T>) {
    && w.taken == s.taken && w.pushed == s.pushed && w.total == s.top
    && (w.owner.OIdle? <==> s.owner.OIdle?) && |w.thieves| == |s.thieves|
    && forall i :: 0 <= i < |w.thieves| ==>
         && (w.thieves[i].at.TIdle? <==> s.thieves[i].TIdle?) && (w.thieves[i].at.TTop? <==> s.thieves[i].TTop?)
  }

  lemma RelatedAreAlike<T>(c: Shape, w: WState<T>, s: State<T>)
    requires Rel(c, w, s)
    ensures Alike(w, s)
  {
    forall i | 0 <= i < |w.thieves|
      ensures (w.thieves[i].at.TIdle? <==> s.thieves[i].TIdle?) && (w.thieves[i].at.TTop? <==> s.thieves[i].TTop?)
    {
      assert ThiefRel(c, w.thieves[i], s.thieves[i]);
    }
  }

  /** A step on words is the same on counters, or a thief so late that it gives up. */
  lemma SameStep<T>(c: Shape, run: seq<WState<T>>, acts: seq<Action<T>>, srun: seq<State<T>>, sacts: seq<Action<T>>,
                    k: nat)
    requires SameRun(c, run, acts, srun, sacts) && k < |acts|
    ensures Alike(run[k], srun[k]) && Alike(run[k + 1], srun[k + 1])
    ensures sacts[k] == acts[k]
            || (acts[k].ThiefStep? && sacts[k] == GiveUp(acts[k].i)
                && srun[k + 1].taken == srun[k].taken && srun[k + 1].pushed == srun[k].pushed)
    ensures WEventOf(c, run[k], acts[k]) == EventOf(srun[k], sacts[k])
  {
    hide WEventOf, EventOf, Init, WInit, WEnabled, WApply, Alike;
    RelatedAreAlike(c, run[k], srun[k]);
    RelatedAreAlike(c, run[k + 1], srun[k + 1]);
    assert sacts[k] == TrueAction(c, run[k], srun[k], acts[k]) && srun[k + 1] == Apply(srun[k], sacts[k]);
  }

  lemma SameSilence<T>(c: Shape, run: seq<WState<T>>, acts: seq<Action<T>>, srun: seq<State<T>>, sacts: seq<Action<T>>,
                       a: Action<T>, lo: nat, hi: nat)
    requires SameRun(c, run, acts, srun, sacts) && Silence(srun, sacts, a, lo, hi) && !a.GiveUp?
    ensures WSilence(c, run, acts, a, lo, hi)
  {
    hide WEventOf, EventOf, Rel, TrueAction;
    forall k: nat | lo <= k < hi && k < |acts| && acts[k] == a
      ensures WEventOf(c, run[k], acts[k]) == Silent
      ensures run[k + 1].taken == run[k].taken && run[k + 1].pushed == run[k].pushed
    {
      SameStep(c, run, acts, srun, sacts, k);
      if sacts[k] != a {
        GivingUpIsSilent(srun[k], sacts[k]);
      }
    }
  }

  lemma GivingUpIsSilent<T>(s: State<T>, a: Action<T>)
    requires |s.buf| > 0 && a.GiveUp?
    ensures EventOf(s, a) == Silent
  {
  }

  /** The deque as the code runs it: a pop that is over has taken the value at the back, exactly
      once, and handed it out in its last access; or it has done nothing, and the deque was empty
      on the way. */
  lemma WrappedPopOutcome<T(!new)>(c: Shape, run: seq<WState<T>>, acts: seq<Action<T>>, srun: seq<State<T>>,
                                   sacts: seq<Action<T>>, j: nat, m: nat)
    requires SameRun(c, run, acts, srun, sacts) && j < m < |run| && acts[j] == StartPop
    requires run[m].owner.OIdle? && forall k :: j < k < m ==> !run[k].owner.OIdle?
    ensures || (exists e, v :: WPopReturns(c, run, acts, j, e, m, v))
            || (WSilence(c, run, acts, OwnerStep, j, m) && EmptyAtSome(srun, j, m))
  {
    hide WEventOf, EventOf, Rel, TrueAction, IsWRun, IsRun, Silence, WSilence;
    Lengths(c, run, acts, srun, sacts);
    SameStep(c, run, acts, srun, sacts, j);
    SameStep(c, run, acts, srun, sacts, m - 1);
    forall k | j < k < m
      ensures !srun[k].owner.OIdle?
    {
      SameStep(c, run, acts, srun, sacts, k);
    }
    PopOutcome(srun, sacts, j, m);
    if e: nat, v :| PopReturns(srun, sacts, j, e, m, v) {
      SameStep(c, run, acts, srun, sacts, e);
      SameSilence(c, run, acts, srun, sacts, OwnerStep, j, e);
      SameSilence(c, run, acts, srun, sacts, OwnerStep, e + 1, m - 1);
      assert WPopReturns(c, run, acts, j, e, m, v);
    } else {
      SameSilence(c, run, acts, srun, sacts, OwnerStep, j, m);
    }
  }

  lemma Lengths<T>(c: Shape, run: seq<WState<T>>, acts: seq<Action<T>>, srun: seq<State<T>>, sacts: seq<Action<T>>)
    requires SameRun(c, run, acts, srun, sacts)
    ensures |run| == |srun| == |acts| + 1 == |sacts| + 1
  {
  }

  lemma WrappedPushOutcome<T(!new)>(c: Shape, run: seq<WState<T>>, acts: seq<Action<T>>, srun: seq<State<T>>,
                                    sacts: seq<Action<T>>, j: nat, m: nat, v: T)
    requires SameRun(c, run, acts, srun, sacts) && j < m < |run| && acts[j] == StartPush(v)
    requires run[m].owner.OIdle? && forall k :: j < k < m ==> !run[k].owner.OIdle?
    ensures || WPushAppends(c, run, acts, j, m, v)
            || (WSilence(c, run, acts, OwnerStep, j, m) && FullAtSome(srun, j, m))
  {
    hide WEventOf, EventOf, Rel, TrueAction, IsWRun, IsRun, Silence, WSilence;
    Lengths(c, run, acts, srun, sacts);
    SameStep(c, run, acts, srun, sacts, j);
    SameStep(c, run, acts, srun, sacts, m - 1);
    forall k | j < k < m
      ensures !srun[k].owner.OIdle?
    {
      SameStep(c, run, acts, srun, sacts, k);
    }
    PushOutcome(srun, sacts, j, m, v);
    if PushAppends(srun, sacts, j, m, v) {
      SameSilence(c, run, acts, srun, sacts, OwnerStep, j, m - 1);
    } else {
      SameSilence(c, run, acts, srun, sacts, OwnerStep, j, m);
    }
  }

  lemma WrappedStealOutcome<T(!new)>(c: Shape, run: seq<WState<T>>, acts: seq<Action<T>>, srun: seq<State<T>>,
                                     sacts: seq<Action<T>>, i: nat, j: nat, m: nat)
    requires SameRun(c, run, acts, srun, sacts) && j < m < |run| && acts[j] == StartSteal(i)
    requires i < |run[m].thieves| && run[m].thieves[i].at.TIdle?
    requires forall k :: j < k < m ==> i < |run[k].thieves| && !run[k].thieves[i].at.TIdle?
    ensures |srun| == |run| == |acts| + 1
    ensures || (exists v :: WStealTakes(c, run, acts, i, j, m, v))
            || (WSilence(c, run, acts, ThiefStep(i), j, m) && WStealExcuse(run, acts, srun, i, j, m))
  {
    hide WEventOf, EventOf, Rel, TrueAction, IsWRun, IsRun, Silence, WSilence, NothingToSteal;
    Lengths(c, run, acts, srun, sacts);
    SameStep(c, run, acts, srun, sacts, j);
    SameStep(c, run, acts, srun, sacts, m - 1);
    forall k | j < k < m
      ensures i < |srun[k].thieves| && !srun[k].thieves[i].TIdle?
    {
      SameStep(c, run, acts, srun, sacts, k);
    }
    StealOutcome(srun, sacts, i, j, m);
    if v :| StealTakes(srun, sacts, i, j, m, v) {
      SameSilence(c, run, acts, srun, sacts, ThiefStep(i), j, m - 1);
      assert WStealTakes(c, run, acts, i, j, m, v);
    } else {
      SameSilence(c, run, acts, srun, sacts, ThiefStep(i), j, m);
      if e: nat, d: nat :| LoadsTop(srun, sacts, i, j, e, m) && e < d <= m && d < |srun| && srun[d].top != srun[e].top {
        SameStep(c, run, acts, srun, sacts, e);
        SameStep(c, run, acts, srun, sacts, d - 1);
        assert acts[e] == ThiefStep(i);
      }
    }
  }
}
