/** The single-threaded round-robin scheduler of krio-runtime.

Tasks are values stepped in place; what a round leaves is told apart from the order it leaves it in.
*/
module RoundRobin {
  /** One step of a task: what it becomes, whether it completed, and what it did to the world. */
  type Stepper<!T, !W> = (T, W) -> (T, bool, W)

  // ── One pass ─────────────────────────────────────────────────────────

  datatype Pass<T, W> = Pass(tasks: seq<T>, finished: seq<nat>, w: W)

  /** The first `n` tasks stepped once each, in order. */
  function StepFirst<T, W>(step: Stepper<T, W>, tasks: seq<T>, w: W, n: nat): (p: Pass<T, W>)
    requires n <= |tasks|
    ensures |p.tasks| == n && |p.finished| <= n
  {
    if n == 0 then Pass([], [], w)
    else
      var p := StepFirst(step, tasks, w, n - 1);
      var (t, done, w') := step(tasks[n - 1], p.w);
      Pass(p.tasks + [t], if done then p.finished + [n - 1] else p.finished, w')
  }

  ghost predicate Ascending(idx: seq<nat>, n: nat) {
    (forall i :: 0 <= i < |idx| ==> idx[i] < n) && forall i, j :: 0 <= i < j < |idx| ==> idx[i] < idx[j]
  }

  /** Each task takes exactly one step, in the world its elders left, hands the world on to the next, and
      the finished ones are listed. */
  lemma {:induction false} EachStepsOnce<T, W>(step: Stepper<T, W>, tasks: seq<T>, w: W, n: nat, i: nat)
    requires i < n <= |tasks|
    ensures var p := StepFirst(step, tasks, w, n); var s := step(tasks[i], StepFirst(step, tasks, w, i).w);
            p.tasks[i] == s.0 && (i in p.finished <==> s.1)
    ensures StepFirst(step, tasks, w, 0).w == w
    ensures StepFirst(step, tasks, w, i + 1).w == step(tasks[i], StepFirst(step, tasks, w, i).w).2
    ensures Ascending(StepFirst(step, tasks, w, n).finished, n)
    decreases n
  {
    if i < n - 1 {
      EachStepsOnce(step, tasks, w, n - 1, i);
    } else if n > 1 {
      EachStepsOnce(step, tasks, w, n - 1, 0);
    }
    assert n > 1 ==> Ascending(StepFirst(step, tasks, w, n - 1).finished, n - 1);
  }

  // ── Removal ──────────────────────────────────────────────────────────

  /** The last element takes the place of the one removed. */
  function SwapRemove<T>(s: seq<T>, i: nat): seq<T>
    requires i < |s|
  {
    s[i := s[|s| - 1]][..|s| - 1]
  }

  /** Removes the elements at ascending positions, the last position first. */
  ghost function RemoveAll<T>(s: seq<T>, idx: seq<nat>): seq<T>
    requires Ascending(idx, |s|)
    decreases |idx|
  {
    if |idx| == 0 then s else RemoveAll(SwapRemove(s, idx[|idx| - 1]), idx[..|idx| - 1])
  }

  /** The elements at positions not listed, in order. */
  ghost function Survivors<T>(s: seq<T>, idx: seq<nat>): seq<T> {
    if |s| == 0 then []
    else Survivors(s[..|s| - 1], idx) + if |s| - 1 in idx then [] else [s[|s| - 1]]
  }

  lemma SwapRemoveDrops<T>(s: seq<T>, i: nat)
    requires i < |s|
    ensures |SwapRemove(s, i)| == |s| - 1 && SwapRemove(s, i)[..i] == s[..i]
    ensures multiset(SwapRemove(s, i)[i..]) == multiset(s[i + 1..])
  {
    var last := s[|s| - 1];
    if i == |s| - 1 {
      assert SwapRemove(s, i)[i..] == [] && s[i + 1..] == [];
    } else {
      var mid := s[i + 1..|s| - 1];
      assert SwapRemove(s, i)[i..] == [last] + mid;
      assert s[i + 1..] == mid + [last];
    }
  }

  /** Positions past the last listed one all survive. */
  lemma {:induction false} TailSurvives<T>(s: seq<T>, idx: seq<nat>, n: nat)
    requires n <= |s| && forall i :: i in idx ==> i < n
    ensures Survivors(s, idx) == Survivors(s[..n], idx) + s[n..]
    decreases |s|
  {
    if n == |s| {
      assert s[..n] == s;
    } else {
      var k := |s| - 1;
      TailSurvives(s[..k], idx, n);
      assert s[..k][..n] == s[..n] && s[n..] == s[..k][n..] + [s[k]];
    }
  }

  lemma {:induction false} SameListed<T>(s: seq<T>, idx: seq<nat>, idx': seq<nat>)
    requires forall i :: 0 <= i < |s| ==> (i in idx <==> i in idx')
    ensures Survivors(s, idx) == Survivors(s, idx')
  {
    if |s| > 0 {
      SameListed(s[..|s| - 1], idx, idx');
    }
  }

  lemma EarlierListed(idx: seq<nat>, n: nat, m: nat)
    requires Ascending(idx, n) && |idx| == m + 1
    ensures 0 <= idx[m] < n && Ascending(idx[..m], n - 1) && (forall j :: j in idx[..m] ==> j < idx[m])
    ensures (forall j :: j in idx ==> j <= idx[m]) && (forall j :: 0 <= j < idx[m] ==> (j in idx <==> j in idx[..m]))
  {
    assert idx == idx[..m] + [idx[m]];
  }

  /** One removal takes its element out of the survivors' way. */
  lemma SurvivorsOfRest<T>(s: seq<T>, idx: seq<nat>, m: nat)
    requires Ascending(idx, |s|) && |idx| == m + 1 && |s| > 0
    ensures Ascending(idx[..m], |s| - 1) && |SwapRemove(s, idx[m])| == |s| - 1
    ensures multiset(Survivors(SwapRemove(s, idx[m]), idx[..m])) == multiset(Survivors(s, idx))
  {
    var i, rest := idx[m], idx[..m];
    EarlierListed(idx, |s|, m);
    hide Ascending, SwapRemove;
    var s' := SwapRemove(s, i);
    SwapRemoveDrops(s, i);
    TailSurvives(s', rest, i);
    TailSurvives(s, idx, i + 1);
    OneListed(s, idx, i);
    SameListed(s[..i], idx, rest);
    hide Survivors;
    assert multiset(Survivors(s', rest)) == multiset(Survivors(s[..i], rest)) + multiset(s'[i..]);
  }

  lemma OneListed<T>(s: seq<T>, idx: seq<nat>, i: nat)
    requires i < |s| && i in idx
    ensures Survivors(s[..i + 1], idx) == Survivors(s[..i], idx)
  {
    assert s[..i + 1][..i] == s[..i];
  }

  /** Removing in reverse order drops exactly the listed elements and keeps the rest. */
  lemma {:induction false} RemoveAllKeepsSurvivors<T>(s: seq<T>, idx: seq<nat>)
    requires Ascending(idx, |s|)
    ensures multiset(RemoveAll(s, idx)) == multiset(Survivors(s, idx)) && |RemoveAll(s, idx)| == |s| - |idx|
    decreases |idx|
  {
    if |idx| == 0 {
      TailSurvives(s, idx, 0);
      assert s[0..] == s;
    } else {
      var m := |idx| - 1;
      SurvivorsOfRest(s, idx, m);
      hide Survivors, SwapRemove, Ascending;
      RemoveAllKeepsSurvivors(SwapRemove(s, idx[m]), idx[..m]);
    }
  }

  // ── The scheduler ────────────────────────────────────────────────────

  /** The tasks after one round. */
  ghost function AfterTick<T, W>(step: Stepper<T, W>, tasks: seq<T>, w: W): (seq<T>, W) {
    var p := StepFirst(step, tasks, w, |tasks|);
    FinishedAscend(step, tasks, w, |tasks|);
    (RemoveAll(p.tasks, p.finished), p.w)
  }

  lemma FinishedAscend<T, W>(step: Stepper<T, W>, tasks: seq<T>, w: W, n: nat)
    requires n <= |tasks|
    ensures Ascending(StepFirst(step, tasks, w, n).finished, n)
  {
    if n > 0 {
      EachStepsOnce(step, tasks, w, n, 0);
    }
  }

  lemma NoTasks<T, W>(step: Stepper<T, W>, tasks: seq<T>, w: W)
    requires |tasks| == 0
    ensures AfterTick(step, tasks, w) == (tasks, w)
  {
  }

  /** `n` rounds. */
  ghost function Ticks<T, W>(step: Stepper<T, W>, tasks: seq<T>, w: W, n: nat): (seq<T>, W)
    decreases n
  {
    if n == 0 then (tasks, w) else var (tasks', w') := AfterTick(step, tasks, w); Ticks(step, tasks', w', n - 1)
  }

  lemma {:induction false} OneMoreTick<T, W>(step: Stepper<T, W>, tasks: seq<T>, w: W, n: nat)
    ensures var (ts, w') := Ticks(step, tasks, w, n); Ticks(step, tasks, w, n + 1) == AfterTick(step, ts, w')
    decreases n
  {
    var (tasks', w') := AfterTick(step, tasks, w);
    if n > 0 {
      OneMoreTick(step, tasks', w', n - 1);
    } else {
      assert Ticks(step, tasks', w', 0) == (tasks', w');
    }
  }

  /** Every step of a task that does not complete it leaves it fewer to go. */
  ghost predicate Finite<T(!new), W(!new)>(step: Stepper<T, W>, left: T -> nat) {
    forall t, w :: step(t, w).1 || left(step(t, w).0) < left(t)
  }

  ghost predicate AllBelow<T>(left: T -> nat, tasks: seq<T>, n: nat) {
    forall i :: 0 <= i < |tasks| ==> left(tasks[i]) < n
  }

  lemma SomeLeft<T>(left: T -> nat, tasks: seq<T>, n: nat)
    requires AllBelow(left, tasks, n)
    ensures tasks != [] ==> n > 0
  {
    if tasks != [] {
      assert left(tasks[0]) < n;
    }
  }

  lemma {:induction false} SurvivorsAre<T>(s: seq<T>, idx: seq<nat>, t: T)
    requires t in Survivors(s, idx)
    ensures exists i :: 0 <= i < |s| && i !in idx && s[i] == t
  {
    if t in Survivors(s[..|s| - 1], idx) {
      SurvivorsAre(s[..|s| - 1], idx, t);
      var i :| 0 <= i < |s| - 1 && i !in idx && s[..|s| - 1][i] == t;
      assert s[i] == t;
    }
  }

  /** A round brings every surviving task closer to its end. */
  lemma TickGoesDown<T(!new), W(!new)>(step: Stepper<T, W>, left: T -> nat, tasks: seq<T>, w: W, n: nat)
    requires Finite(step, left) && AllBelow(left, tasks, n)
    ensures AllBelow(left, AfterTick(step, tasks, w).0, if n == 0 then 0 else n - 1)
  {
    var p, next := StepFirst(step, tasks, w, |tasks|), AfterTick(step, tasks, w).0;
    FinishedAscend(step, tasks, w, |tasks|);
    RemoveAllKeepsSurvivors(p.tasks, p.finished);
    forall i | 0 <= i < |next|
      ensures left(next[i]) < if n == 0 then 0 else n - 1
    {
      assert next[i] in multiset(next);
      assert next[i] in Survivors(p.tasks, p.finished);
      SurvivorsAre(p.tasks, p.finished, next[i]);
      var j :| 0 <= j < |p.tasks| && j !in p.finished && p.tasks[j] == next[i];
      EachStepsOnce(step, tasks, w, |tasks|, j);
      assert left(tasks[j]) < n;
    }
  }

  /** After as many rounds as the longest task has steps, plus one, nothing is left. */
  lemma {:induction false} AllFinish<T(!new), W(!new)>(step: Stepper<T, W>, left: T -> nat, tasks: seq<T>, w: W, n: nat)
    requires Finite(step, left) && AllBelow(left, tasks, n)
    ensures Ticks(step, tasks, w, n).0 == []
    decreases n
  {
    if n > 0 {
      TickGoesDown(step, left, tasks, w, n);
      var (tasks', w') := AfterTick(step, tasks, w);
      AllFinish(step, left, tasks', w', n - 1);
    }
  }

  class RoundRobin<T(!new), W(!new)> {
    var tasks: seq<T>

    constructor ()
      ensures tasks == []
    {
      tasks := [];
    }

    method Spawn(task: T)
      modifies this
      ensures tasks == old(tasks) + [task]
    {
      tasks := tasks + [task];
    }

    /** Steps every task in place, once, and lists the completed ones. */
    method StepEach(step: Stepper<T, W>, w: W) returns (finished: seq<nat>, w': W)
      modifies this
      ensures StepFirst(step, old(tasks), w, |old(tasks)|) == Pass(tasks, finished, w')
    {
      ghost var before, n := tasks, |tasks|;
      finished, w' := [], w;
      for i := 0 to |tasks|
        invariant |tasks| == n && StepFirst(step, before, w, i) == Pass(tasks[..i], finished, w')
                  && tasks[i..] == before[i..]
      {
        assert tasks[i] == tasks[i..][0] == before[i];
        ghost var was := tasks;
        var (t, done, w1) := step(tasks[i], w');
        tasks, w' := tasks[i := t], w1;
        if done {
          finished := finished + [i];
        }
        assert tasks[..i + 1] == was[..i] + [t];
      }
      assert tasks[..n] == tasks;
    }

    /** Removes the listed tasks, the last one first, so that earlier positions stay put. */
    method RemoveListed(finished: seq<nat>)
      requires Ascending(finished, |tasks|)
      modifies this
      ensures tasks == RemoveAll(old(tasks), finished)
    {
      var k := |finished|;
      assert finished[..k] == finished;
      while k > 0
        invariant 0 <= k <= |finished| && Ascending(finished[..k], |tasks|)
        invariant RemoveAll(tasks, finished[..k]) == RemoveAll(old(tasks), finished)
      {
        k := k - 1;
        assert finished[..k + 1][..k] == finished[..k] && finished[..k + 1][k] == finished[k];
        tasks := SwapRemove(tasks, finished[k]);
      }
    }

    /** Steps every task once and removes the completed ones. */
    method Tick(step: Stepper<T, W>, w: W) returns (alive: bool, w': W)
      modifies this
      ensures (tasks, w') == AfterTick(step, old(tasks), w)
      ensures alive <==> tasks != []
      ensures var p := StepFirst(step, old(tasks), w, |old(tasks)|);
              multiset(tasks) == multiset(Survivors(p.tasks, p.finished))
    {
      hide Survivors, SwapRemove, StepFirst, RemoveAll, Ascending;
      ghost var before := tasks;
      FinishedAscend(step, before, w, |before|);
      RemoveAllKeepsSurvivors(StepFirst(step, before, w, |before|).tasks,
                              StepFirst(step, before, w, |before|).finished);
      if |tasks| == 0 {
        NoTasks(step, before, w);
        return false, w;
      }
      var finished;
      finished, w' := StepEach(step, w);
      RemoveListed(finished);
      alive := |tasks| > 0;
    }

    /** Ticks until nothing is left, which finite tasks always get to. */
    method RunToCompletion(step: Stepper<T, W>, w: W, ghost left: T -> nat, ghost bound: nat)
      returns (w': W, ghost ticks: nat)
      requires Finite(step, left) && AllBelow(left, tasks, bound)
      modifies this
      ensures tasks == [] && 0 < ticks <= bound + 1 && ([], w') == Ticks(step, old(tasks), w, ticks)
    {
      hide AfterTick, Survivors, StepFirst, Finite;
      ghost var before := tasks;
      ghost var n := bound;
      var alive := true;
      w', ticks := w, 0;
      while alive
        invariant ticks + n <= bound + 1 && (ticks == 0 ==> n == bound && alive) && AllBelow(left, tasks, n)
        invariant (tasks, w') == Ticks(step, before, w, ticks) && (!alive ==> tasks == [] && ticks > 0)
                  && (alive && ticks > 0 ==> tasks != [])
        decreases alive, n
      {
        OneMoreTick(step, before, w, ticks);
        SomeLeft(left, tasks, n);
        TickGoesDown(step, left, tasks, w', n);
        alive, w' := Tick(step, w');
        ticks := ticks + 1;
        n := if n == 0 then 0 else n - 1;
      }
    }

    method TaskCount() returns (n: nat)
      ensures n == |tasks|
    {
      n := |tasks|;
    }
  }
}
