/** A collection comes about. */
module Arrivals {
  // Safety alone would be met by a barrier that never lets a collection begin. Here is what each
  // part does when nobody interferes: a request is granted or refused, an agent that finds a stop
  // pending is counted and sleeps, the owner takes the world once all are counted, a release wakes
  // them, each takes itself off the count and goes back to work, and the owner waits for that. Put
  // together, from any state in which the others are about to test for a stop there is a run in
  // which the owner collects while all the others sleep, and after which all are back.

  import opened Barrier

  // ── One agent alone ──────────────────────────────────────────────────

  /** `n` accesses of agent `i` and of nobody else, each with choice `First`. */
  function Alone(s: State, i: nat, n: nat): (s': State)
    requires i < |s.pcs| == |s.roles|
    ensures |s'.pcs| == |s.pcs| == |s'.roles| && s'.roles == s.roles
    decreases n
  {
    if n == 0 then s else Step(Alone(s, i, n - 1), i, First)
  }

  lemma Once(s: State, i: nat)
    requires i < |s.pcs| == |s.roles|
    ensures Alone(s, i, 1) == Step(s, i, First)
  {
    assert Alone(s, i, 0) == s;
  }

  lemma Next(s: State, i: nat, n: nat, was: State, s': State)
    requires i < |s.pcs| == |s.roles| && Alone(s, i, n) == was && Step(was, i, First) == s'
    ensures Alone(s, i, n + 1) == s'
  {
    hide Step;
  }

  /** Accesses that only load. */
  predicate Loads(pc: Pc) {
    || pc.EnterIf? || pc.EnterWhile? || pc.EnterPark? || pc.AwaitPark? || pc.DrainPark? || pc.DrainLoad? || pc.RelLoad?
    || pc.Window?
  }

  lemma JustMoves(s: State, i: nat, pc: Pc)
    requires i < |s.pcs| == |s.roles| && Loads(s.pcs[i]) && pc == Landing(s, i, First)
    ensures Step(s, i, First) == s.(pcs := s.pcs[i := pc])
  {
    hide Landing;
  }

  /** A stop is granted exactly if none is pending: the word moves and the requester waits. */
  lemma RequestIsGranted(s: State, i: nat)
    requires i < |s.pcs| == |s.roles| && s.pcs[i].ReqLoad? && !Pending(s.word)
    ensures Alone(s, i, 3) == s.(word := Bump(s.word), pcs := s.pcs[i := AwaitLoad(s.pcs[i].home)])
  {
    Once(s, i);
    var home := s.pcs[i].home;
    var s1 := s.(pcs := s.pcs[i := ReqCas(home, s.word)]);
    assert Alone(s, i, 1) == s1;
    var s2 := s.(word := Bump(s.word), pcs := s.pcs[i := NotifyIdle(home)]);
    assert s1.pcs[i := NotifyIdle(home)] == s2.pcs;
    assert Alone(s, i, 2) == s2;
    assert s2.pcs[i := AwaitLoad(home)] == s.pcs[i := AwaitLoad(home)];
  }

  lemma RequestIsRefused(s: State, i: nat)
    requires i < |s.pcs| == |s.roles| && s.pcs[i].ReqLoad? && Pending(s.word)
    ensures Alone(s, i, 2) == s.(pcs := s.pcs[i := Back(s.pcs[i].home)])
  {
    Once(s, i);
    var s1 := s.(pcs := s.pcs[i := ReqCas(s.pcs[i].home, s.word)]);
    assert Alone(s, i, 1) == s1;
    assert s1.pcs[i := Back(s.pcs[i].home)] == s.pcs[i := Back(s.pcs[i].home)];
  }

  /** Once all others are counted the owner has the world; until then it sleeps on the count. */
  lemma OwnerLooks(s: State, i: nat)
    requires i < |s.pcs| == |s.roles| && s.pcs[i].AwaitLoad?
    ensures s.stopped >= |s.pcs| - 1 ==> Alone(s, i, 1) == s.(pcs := s.pcs[i := Window(s.pcs[i].home)])
    ensures s.stopped < |s.pcs| - 1 ==>
              Alone(s, i, 2) == s.(pcs := s.pcs[i := AwaitAsleep(s.pcs[i].home, s.stopped)])
  {
    Once(s, i);
    if s.stopped < |s.pcs| - 1 {
      var s1 := s.(pcs := s.pcs[i := AwaitPark(s.pcs[i].home, s.stopped)]);
      assert Alone(s, i, 1) == s1;
      assert s1.pcs[i := AwaitAsleep(s.pcs[i].home, s.stopped)] == s.pcs[i := AwaitAsleep(s.pcs[i].home, s.stopped)];
    }
  }

  lemma MovesWord(s: State, i: nat, home: Home, owned: bool)
    requires i < |s.pcs| == |s.roles| && s.pcs[i] == RelCas(home, owned, s.word) && Pending(s.word)
    ensures Step(s, i, First) == s.(word := Bump(s.word), pcs := s.pcs[i := RelNotify(home)])
  {
  }

  lemma WordNotified(s: State, i: nat, home: Home)
    requires i < |s.pcs| == |s.roles| && s.pcs[i] == RelNotify(home)
    ensures Step(s, i, First) == s.(pcs := WakeOnWord(s.pcs[i := DrainLoad(home)]))
  {
  }

  /** A release moves the word on and wakes everybody who sleeps on it. */
  lemma OwnerReleases(s: State, i: nat)
    requires i < |s.pcs| == |s.roles| && s.pcs[i].Window? && Pending(s.word)
    ensures Alone(s, i, 4) == s.(word := Bump(s.word), pcs := WakeOnWord(s.pcs[i := DrainLoad(s.pcs[i].home)]))
  {
    Once(s, i);
    hide Alone, Step, WakeOnWord;
    var home := s.pcs[i].home;
    JustMoves(s, i, RelLoad(home, true));
    var s1 := s.(pcs := s.pcs[i := RelLoad(home, true)]);
    JustMoves(s1, i, RelCas(home, true, s.word));
    var s2 := s.(pcs := s.pcs[i := RelCas(home, true, s.word)]);
    assert s1.pcs[i := RelCas(home, true, s.word)] == s2.pcs;
    Next(s, i, 1, s1, s2);
    MovesWord(s2, i, home, true);
    var s3 := s.(word := Bump(s.word), pcs := s.pcs[i := RelNotify(home)]);
    assert s2.pcs[i := RelNotify(home)] == s3.pcs;
    Next(s, i, 2, s2, s3);
    WordNotified(s3, i, home);
    assert s3.pcs[i := DrainLoad(home)] == s.pcs[i := DrainLoad(home)];
    Next(s, i, 3, s3, s3.(pcs := WakeOnWord(s.pcs[i := DrainLoad(home)])));
  }

  lemma DrainerNotifies(s: State, i: nat, home: Home, count: int)
    requires i < |s.pcs| == |s.roles| && s.pcs[i] == DrainNotify(home, count)
    ensures Step(s, i, First) == s.(pcs := WakeOnWord(s.pcs)[i := DrainPark(home, count)])
  {
    assert WakeOnWord(s.pcs[i := DrainPark(home, count)]) == WakeOnWord(s.pcs)[i := DrainPark(home, count)];
  }

  lemma DrainerSleeps(s: State, i: nat, home: Home)
    requires i < |s.pcs| == |s.roles| && s.pcs[i] == DrainLoad(home) && s.stopped != 0
    ensures Alone(s, i, 3) == s.(pcs := WakeOnWord(s.pcs)[i := DrainAsleep(home, s.stopped)])
  {
    Once(s, i);
    hide Alone, Step, WakeOnWord;
    var count := s.stopped;
    JustMoves(s, i, DrainNotify(home, count));
    var s1 := s.(pcs := s.pcs[i := DrainNotify(home, count)]);
    DrainerNotifies(s1, i, home, count);
    SameWoken(s.pcs, i, DrainNotify(home, count), DrainPark(home, count));
    var s2 := s.(pcs := WakeOnWord(s.pcs)[i := DrainPark(home, count)]);
    Next(s, i, 1, s1, s2);
    JustMoves(s2, i, DrainAsleep(home, count));
    var s3 := s.(pcs := WakeOnWord(s.pcs)[i := DrainAsleep(home, count)]);
    assert s2.pcs[i := DrainAsleep(home, count)] == s3.pcs;
    Next(s, i, 2, s2, s3);
  }

  lemma SameWoken(pcs: seq<Pc>, i: nat, pc: Pc, pc': Pc)
    requires i < |pcs|
    ensures WakeOnWord(pcs[i := pc])[i := pc'] == WakeOnWord(pcs)[i := pc']
  {
  }

  /** The releaser is through once nobody is counted; until then it wakes whoever sleeps on the word
      and sleeps on the count. */
  lemma OwnerDrains(s: State, i: nat)
    requires i < |s.pcs| == |s.roles| && s.pcs[i].DrainLoad?
    ensures s.stopped == 0 ==> Alone(s, i, 1) == s.(pcs := s.pcs[i := Back(s.pcs[i].home)])
    ensures s.stopped != 0 ==>
              Alone(s, i, 3) == s.(pcs := WakeOnWord(s.pcs)[i := DrainAsleep(s.pcs[i].home, s.stopped)])
  {
    if s.stopped == 0 {
      Once(s, i);
      JustMoves(s, i, Back(s.pcs[i].home));
    } else {
      DrainerSleeps(s, i, s.pcs[i].home);
    }
    hide *;
  }

  /** Where an agent tests for a stop, and where `enter` takes it back to. */
  predicate Tests(pc: Pc) { pc.RunTop? || pc.DriveWhile? || pc.HotPoll? }

  function ReturnOf(pc: Pc): Return
  {
    if pc.RunTop? then ToRun else if pc.DriveWhile? then ToDrive else ToHotLoop
  }

  lemma FindsStop(s: State, i: nat)
    requires i < |s.pcs| == |s.roles| && Tests(s.pcs[i]) && Pending(s.word)
    ensures Step(s, i, First) == s.(pcs := s.pcs[i := EnterLoad(ReturnOf(s.pcs[i]))])
  {
  }

  lemma SnapsRound(s: State, i: nat, ret: Return)
    requires i < |s.pcs| == |s.roles| && s.pcs[i] == EnterLoad(ret) && Pending(s.word)
    ensures Step(s, i, First) == s.(pcs := s.pcs[i := EnterAdd(ret, s.word)])
  {
  }

  lemma IsCounted(s: State, i: nat, ret: Return)
    requires i < |s.pcs| == |s.roles| && s.pcs[i] == EnterAdd(ret, s.word) && 0 <= s.stopped < WORD - 1
    ensures Step(s, i, First) == s.(stopped := s.stopped + 1, pcs := s.pcs[i := EnterNotify(ret, s.word)])
  {
  }

  lemma ComesIn(s: State, i: nat)
    requires i < |s.pcs| == |s.roles| && Tests(s.pcs[i]) && Pending(s.word) && 0 <= s.stopped < WORD - 1
    ensures var ret := ReturnOf(s.pcs[i]);
            Alone(s, i, 3) == s.(stopped := s.stopped + 1, pcs := s.pcs[i := EnterNotify(ret, s.word)])
  {
    Once(s, i);
    hide Alone, Step;
    var ret := ReturnOf(s.pcs[i]);
    FindsStop(s, i);
    var s1 := s.(pcs := s.pcs[i := EnterLoad(ret)]);
    SnapsRound(s1, i, ret);
    var s2 := s.(pcs := s.pcs[i := EnterAdd(ret, s.word)]);
    assert s1.pcs[i := EnterAdd(ret, s.word)] == s2.pcs;
    Next(s, i, 1, s1, s2);
    IsCounted(s2, i, ret);
    var s3 := s.(stopped := s.stopped + 1, pcs := s.pcs[i := EnterNotify(ret, s.word)]);
    assert s2.pcs[i := EnterNotify(ret, s.word)] == s3.pcs;
    Next(s, i, 2, s2, s3);
  }

  lemma CountNotified(s: State, i: nat, ret: Return)
    requires i < |s.pcs| == |s.roles| && s.pcs[i] == EnterNotify(ret, s.word)
    ensures Alone(s, i, 1) == s.(pcs := WakeOnCount(s.pcs)[i := EnterIf(ret, s.word)])
  {
    Once(s, i);
    assert WakeOnCount(s.pcs[i := EnterIf(ret, s.word)]) == WakeOnCount(s.pcs)[i := EnterIf(ret, s.word)];
  }

  lemma FallsAsleep(s: State, i: nat, ret: Return)
    requires i < |s.pcs| == |s.roles| && s.pcs[i] == EnterNotify(ret, s.word)
    ensures Alone(s, i, 4) == s.(pcs := WakeOnCount(s.pcs)[i := EnterAsleep(ret, s.word)])
  {
    hide Alone, Step, WakeOnCount;
    var pcs := WakeOnCount(s.pcs);
    CountNotified(s, i, ret);
    var s1 := s.(pcs := pcs[i := EnterIf(ret, s.word)]);
    JustMoves(s1, i, EnterWhile(ret, s.word));
    var s2 := s.(pcs := pcs[i := EnterWhile(ret, s.word)]);
    assert s1.pcs[i := EnterWhile(ret, s.word)] == s2.pcs;
    Next(s, i, 1, s1, s2);
    JustMoves(s2, i, EnterPark(ret, s.word));
    var s3 := s.(pcs := pcs[i := EnterPark(ret, s.word)]);
    assert s2.pcs[i := EnterPark(ret, s.word)] == s3.pcs;
    Next(s, i, 2, s2, s3);
    JustMoves(s3, i, EnterAsleep(ret, s.word));
    assert s3.pcs[i := EnterAsleep(ret, s.word)] == pcs[i := EnterAsleep(ret, s.word)];
    Next(s, i, 3, s3, s3.(pcs := pcs[i := EnterAsleep(ret, s.word)]));
  }

  lemma AloneAdds(s: State, i: nat, m: nat, n: nat)
    requires i < |s.pcs| == |s.roles|
    ensures Alone(s, i, m + n) == Alone(Alone(s, i, m), i, n)
  {
    hide Step;
  }

  /** An agent that finds a stop pending is counted, wakes whoever waits for the count, and sleeps
      on the round that is pending. */
  lemma AgentArrives(s: State, i: nat)
    requires i < |s.pcs| == |s.roles| && Tests(s.pcs[i]) && Pending(s.word) && 0 <= s.stopped < WORD - 1
    ensures Alone(s, i, 7) == s.(stopped := s.stopped + 1,
                                 pcs := WakeOnCount(s.pcs)[i := EnterAsleep(ReturnOf(s.pcs[i]), s.word)])
  {
    hide Alone, Step;
    var ret := ReturnOf(s.pcs[i]);
    ComesIn(s, i);
    var s3 := s.(stopped := s.stopped + 1, pcs := s.pcs[i := EnterNotify(ret, s.word)]);
    FallsAsleep(s3, i, ret);
    AloneAdds(s, i, 3, 4);
    assert WakeOnCount(s3.pcs)[i := EnterAsleep(ret, s.word)] == WakeOnCount(s.pcs)[i := EnterAsleep(ret, s.word)];
  }

  /** One whose round is over takes itself off the count, wakes whoever waits for that, and goes
      back to where it came from. */
  lemma AgentLeaves(s: State, i: nat)
    requires i < |s.pcs| == |s.roles| && s.pcs[i].EnterWhile? && s.word != s.pcs[i].snap && 0 < s.stopped < WORD
    ensures Alone(s, i, 3) == s.(stopped := s.stopped - 1,
                                 pcs := WakeOnCount(s.pcs)[i := Resume(s.pcs[i].ret, s.rechecks)])
  {
    Once(s, i);
    var ret := s.pcs[i].ret;
    var s1 := s.(pcs := s.pcs[i := EnterSub(ret, s.pcs[i].snap)]);
    assert Alone(s, i, 1) == s1;
    var s2 := s.(stopped := s.stopped - 1, pcs := s.pcs[i := EnterGone(ret)]);
    assert s1.pcs[i := EnterGone(ret)] == s2.pcs;
    assert Alone(s, i, 2) == s2;
    assert WakeOnCount(s2.pcs[i := Resume(ret, s.rechecks)]) == WakeOnCount(s.pcs)[i := Resume(ret, s.rechecks)];
  }

  /** With no stop pending an agent is inside a task, or on its way to the next, after one access. */
  lemma AgentGoesOn(s: State, i: nat)
    requires i < |s.pcs| == |s.roles| && (Tests(s.pcs[i]) || s.pcs[i].AfterStep?) && !Pending(s.word)
    ensures Alone(s, i, 1) == s.(pcs := s.pcs[i := if s.pcs[i].HotPoll? then Stepping else NextJob])
    ensures s.pcs[i].AfterStep? || s.pcs[i].RunTop? ==> Alone(s, i, 2) == s.(pcs := s.pcs[i := Stepping])
  {
    Once(s, i);
    if !s.pcs[i].HotPoll? {
      var s1 := s.(pcs := s.pcs[i := NextJob]);
      assert Alone(s, i, 1) == s1;
      assert s1.pcs[i := Stepping] == s.pcs[i := Stepping];
    }
  }

  /** Going round its loop: looking for a job, inside one, behind one, or out of work. */
  predicate Looping(pc: Pc) {
    Tests(pc) || pc.NextJob? || pc.Stepping? || pc.AfterStep? || pc.Idle?
  }

  lemma LoopMoves(s: State, i: nat)
    requires i < |s.pcs| == |s.roles| && Looping(s.pcs[i]) && !Tests(s.pcs[i]) && Pending(s.word)
    ensures Step(s, i, First) ==
            s.(pcs := s.pcs[i := match s.pcs[i]
                                 case NextJob => Stepping
                                 case Stepping => AfterStep
                                 case AfterStep => if s.roles[i].Worker? then DriveWhile else MainIdle
                                 case _ => RunTop])
  {
  }

  /** How many accesses it is from the next test. */
  function ToTest(pc: Pc): nat {
    match pc
    case NextJob => 3
    case Stepping => 2
    case AfterStep => 1
    case Idle => 1
    case _ => 0
  }

  /** While a stop is pending a worker that goes on by itself is soon at a test, wherever in its loop
      it is, and a main agent is out of its pass, so that neither begins another task. */
  lemma LoopComesToTest(s: State, i: nat) returns (n: nat)
    requires i < |s.pcs| == |s.roles| && Looping(s.pcs[i]) && Pending(s.word)
    ensures n <= ToTest(s.pcs[i]) && Alone(s, i, n) == s.(pcs := s.pcs[i := Alone(s, i, n).pcs[i]])
    ensures Tests(Alone(s, i, n).pcs[i]) || (s.roles[i].Main? && Alone(s, i, n).pcs[i] == MainIdle)
    decreases ToTest(s.pcs[i])
  {
    hide Step, Alone;
    NoAccess(s, i);
    if Tests(s.pcs[i]) {
      n := 0;
      assert s.pcs[i := s.pcs[i]] == s.pcs;
    } else {
      LoopMoves(s, i);
      Next(s, i, 0, s, Step(s, i, First));
      var s1 := Step(s, i, First);
      if Looping(s1.pcs[i]) {
        var m := LoopComesToTest(s1, i);
        AloneAdds(s, i, 1, m);
        assert s1.pcs[i := Alone(s1, i, m).pcs[i]] == s.pcs[i := Alone(s1, i, m).pcs[i]];
        n := 1 + m;
      } else {
        n := 1;
      }
    }
  }

  lemma NoAccess(s: State, i: nat)
    requires i < |s.pcs| == |s.roles|
    ensures Alone(s, i, 0) == s
  {
  }

  /** So a worker anywhere in its loop, left to itself, is counted and asleep before long. */
  lemma WorkerArrives(s: State, i: nat) returns (n: nat)
    requires i < |s.pcs| == |s.roles| && Looping(s.pcs[i]) && s.roles[i].Worker? && Pending(s.word)
    requires 0 <= s.stopped < WORD - 1
    ensures n <= 10 && Alone(s, i, n).stopped == s.stopped + 1 && Alone(s, i, n).word == s.word
    ensures exists ret :: Alone(s, i, n).pcs == WakeOnCount(s.pcs)[i := EnterAsleep(ret, s.word)]
  {
    hide Step, Alone;
    n := LoopComesToTest(s, i);
    var s1 := Alone(s, i, n);
    AgentArrives(s1, i);
    AloneAdds(s, i, n, 7);
    var ret := ReturnOf(s1.pcs[i]);
    assert WakeOnCount(s1.pcs)[i := EnterAsleep(ret, s.word)] == WakeOnCount(s.pcs)[i := EnterAsleep(ret, s.word)];
    n := n + 7;
  }

  // ── All together ─────────────────────────────────────────────────────

  /** A run from `s` to `s'`. */
  ghost predicate Leads(s: State, s': State) {
    exists path :: IsPath(path) && path[0] == s && path[|path| - 1] == s'
  }

  lemma Further(s: State, s': State, i: nat, c: Choice)
    requires Leads(s, s') && i < |s'.pcs| == |s'.roles|
    ensures Leads(s, Step(s', i, c))
  {
    hide Step;
    var path :| IsPath(path) && path[0] == s && path[|path| - 1] == s';
    var path' := Then(path, i, c, Step(s', i, c));
  }

  lemma {:induction false} GoesOnAlone(s: State, s': State, i: nat, n: nat)
    requires Leads(s, s') && i < |s'.pcs| == |s'.roles|
    ensures Leads(s, Alone(s', i, n))
    decreases n
  {
    hide Leads, Step;
    if n > 0 {
      GoesOnAlone(s, s', i, n - 1);
      Further(s, Alone(s', i, n - 1), i, First);
    }
  }

  lemma NoPath(s: State)
    requires |s.pcs| == |s.roles|
    ensures Leads(s, s)
  {
    assert IsPath([s]);
  }

  /** Agent `i` is about to ask for a stop, and all others to test for one. */
  ghost predicate Ready(s: State, i: nat) {
    && i < |s.pcs| == |s.roles| < WORD && s.stopped == 0 && 0 <= s.word < WORD && !Pending(s.word)
    && s.pcs[i].ReqLoad? && forall j :: 0 <= j < |s.pcs| && j != i ==> Tests(s.pcs[j])
  }

  /** How many of the agents before `k` are not `i`. */
  function Before(i: nat, k: nat): nat { if i < k then k - 1 else k }

  /** The owner waits, and the others before `k` have arrived. */
  function Gathered(s: State, i: nat, k: nat): State
    requires i < |s.pcs| && s.pcs[i].ReqLoad?
  {
    var round := Bump(s.word);
    s.(word := round, stopped := Before(i, k),
       pcs := seq(|s.pcs|, j requires 0 <= j < |s.pcs| =>
         if j == i then AwaitLoad(s.pcs[i].home)
         else if j < k then EnterAsleep(ReturnOf(s.pcs[j]), round) else s.pcs[j]))
  }

  /** The owner drains, and the others before `k` have left. */
  function Released(s: State, i: nat, k: nat): State
    requires i < |s.pcs| && s.pcs[i].ReqLoad? && k <= |s.pcs|
  {
    var round := Bump(s.word);
    s.(word := Bump(round), stopped := |s.pcs| - 1 - Before(i, k),
       pcs := seq(|s.pcs|, j requires 0 <= j < |s.pcs| =>
         if j == i then DrainLoad(s.pcs[i].home)
         else if j < k then Resume(ReturnOf(s.pcs[j]), s.rechecks) else EnterWhile(ReturnOf(s.pcs[j]), round)))
  }

  lemma OneMoreArrives(s: State, i: nat, k: nat)
    requires Ready(s, i) && k < |s.pcs|
    ensures k == i ==> Gathered(s, i, k + 1) == Gathered(s, i, k)
    ensures k != i ==> Alone(Gathered(s, i, k), k, 7) == Gathered(s, i, k + 1)
  {
    hide Alone;
    var g, g' := Gathered(s, i, k), Gathered(s, i, k + 1);
    if k == i {
      assert g.pcs == g'.pcs;
    } else {
      AgentArrives(g, k);
      assert WakeOnCount(g.pcs)[k := EnterAsleep(ReturnOf(s.pcs[k]), g.word)] == g'.pcs;
    }
  }

  lemma {:induction false} AllArrive(s: State, i: nat, k: nat)
    requires Ready(s, i) && k <= |s.pcs|
    ensures Leads(s, Gathered(s, i, k))
    decreases k
  {
    hide Leads, Alone, Gathered;
    if k == 0 {
      NoPath(s);
      RequestIsGranted(s, i);
      GoesOnAlone(s, s, i, 3);
      NoneYet(s, i);
    } else {
      AllArrive(s, i, k - 1);
      OneMoreArrives(s, i, k - 1);
      if k - 1 != i {
        SameLengths(s, i, k - 1);
        GoesOnAlone(s, Gathered(s, i, k - 1), k - 1, 7);
      }
    }
  }

  lemma SameLengths(s: State, i: nat, k: nat)
    requires i < |s.pcs| == |s.roles| && s.pcs[i].ReqLoad?
    ensures |Gathered(s, i, k).pcs| == |Gathered(s, i, k).roles| == |s.pcs|
    ensures k <= |s.pcs| ==> |Released(s, i, k).pcs| == |Released(s, i, k).roles| == |s.pcs|
  {
  }

  lemma NoneYet(s: State, i: nat)
    requires Ready(s, i)
    ensures Gathered(s, i, 0) == s.(word := Bump(s.word), pcs := s.pcs[i := AwaitLoad(s.pcs[i].home)])
  {
    assert Gathered(s, i, 0).pcs == s.pcs[i := AwaitLoad(s.pcs[i].home)];
  }

  /** All are asleep and the owner has the world. */
  function Collecting(s: State, i: nat): State
    requires i < |s.pcs| && s.pcs[i].ReqLoad?
  {
    var g := Gathered(s, i, |s.pcs|);
    g.(pcs := g.pcs[i := Window(s.pcs[i].home)])
  }

  lemma Collects(s: State, i: nat)
    requires Ready(s, i)
    ensures Leads(s, Collecting(s, i)) && Alone(Collecting(s, i), i, 4) == Released(s, i, 0)
  {
    hide Leads, Alone;
    var n := |s.pcs|;
    var g := Gathered(s, i, n);
    AllArrive(s, i, n);
    OwnerLooks(g, i);
    GoesOnAlone(s, g, i, 1);
    var c := Collecting(s, i);
    OwnerReleases(c, i);
    assert WakeOnWord(c.pcs[i := DrainLoad(s.pcs[i].home)]) == Released(s, i, 0).pcs;
  }

  lemma OneMoreLeaves(s: State, i: nat, k: nat)
    requires Ready(s, i) && k < |s.pcs|
    ensures k == i ==> Released(s, i, k + 1) == Released(s, i, k)
    ensures k != i ==> Alone(Released(s, i, k), k, 3) == Released(s, i, k + 1)
  {
    hide Alone;
    var r, r' := Released(s, i, k), Released(s, i, k + 1);
    if k == i {
      assert r.pcs == r'.pcs;
    } else {
      AgentLeaves(r, k);
      assert WakeOnCount(r.pcs)[k := Resume(ReturnOf(s.pcs[k]), s.rechecks)] == r'.pcs;
    }
  }

  lemma {:induction false} AllLeave(s: State, i: nat, k: nat)
    requires Ready(s, i) && k <= |s.pcs|
    ensures Leads(Collecting(s, i), Released(s, i, k))
    decreases k
  {
    hide Leads, Alone, Released, Collecting;
    if k == 0 {
      CollectingLengths(s, i);
      NoPath(Collecting(s, i));
      Collects(s, i);
      GoesOnAlone(Collecting(s, i), Collecting(s, i), i, 4);
    } else {
      AllLeave(s, i, k - 1);
      OneMoreLeaves(s, i, k - 1);
      if k - 1 != i {
        SameLengths(s, i, k - 1);
        GoesOnAlone(Collecting(s, i), Released(s, i, k - 1), k - 1, 3);
      }
    }
  }

  lemma CollectingLengths(s: State, i: nat)
    requires i < |s.pcs| == |s.roles| && s.pcs[i].ReqLoad?
    ensures |Collecting(s, i).pcs| == |Collecting(s, i).roles| == |s.pcs|
  {
  }

  /** From any state in which agent `i` is about to ask for a stop and all others are about to test
      for one, there is a run in which `i` collects while all the others are asleep at the barrier,
      and which goes on until `i` is back, the others are where their tests go on from, nobody is
      counted, and no stop is pending. */
  lemma CollectionHappens(s: State, i: nat) returns (during: State, after: State)
    requires Ready(s, i)
    ensures Leads(s, during) && Leads(during, after) && |during.pcs| == |after.pcs| == |s.pcs|
    ensures during.pcs[i].Window? && during.stopped == |s.pcs| - 1
    ensures forall j :: 0 <= j < |s.pcs| && j != i ==> during.pcs[j].EnterAsleep?
    ensures after.pcs[i] == Back(s.pcs[i].home) && after.stopped == 0 && after.word == (s.word + 2) % WORD
    ensures forall j :: 0 <= j < |s.pcs| && j != i ==> after.pcs[j] == Resume(ReturnOf(s.pcs[j]), s.rechecks)
  {
    hide Leads, Alone;
    var n := |s.pcs|;
    during := Collecting(s, i);
    Collects(s, i);
    AllLeave(s, i, n);
    var r := Released(s, i, n);
    OwnerDrains(r, i);
    GoesOnAlone(during, r, i, 1);
    after := Alone(r, i, 1);
  }
}
