/** The wake registry of krio-parallel. */
module Parked {
  // Tasks are held until woken, and wakes that came first are remembered.

  // Both operations run under one lock, so each is one atomic step of the machine in Jobs,
  // which uses the functions below.

  import opened Options

  /** The registry's contents at an unlock. */
  datatype Registry<T> = Registry(tasks: map<nat, T>, early: set<nat>, count: nat)
  {
    ghost predicate Valid() {
      tasks.Keys !! early && count == |tasks|
    }
  }

  function ParkIn<T>(r: Registry<T>, id: nat, task: T): (Registry<T>, Option<T>) {
    if id in r.early then (r.(early := r.early - {id}), Some(task))
    else
      var tasks := r.tasks[id := task];
      (r.(tasks := tasks, count := |tasks|), None)
  }

  function WakeIn<T>(r: Registry<T>, id: nat): (Registry<T>, Option<T>) {
    if id in r.tasks then
      var tasks := map k | k in r.tasks && k != id :: r.tasks[k];
      (r.(tasks := tasks, count := |tasks|), Some(r.tasks[id]))
    else (r.(early := r.early + {id}), None)
  }

  lemma ParkKeepsValid<T>(r: Registry<T>, id: nat, task: T)
    requires r.Valid()
    ensures ParkIn(r, id, task).0.Valid()
  {
  }

  lemma WakeKeepsValid<T>(r: Registry<T>, id: nat)
    requires r.Valid()
    ensures WakeIn(r, id).0.Valid()
  {
  }

  /** Whichever of a park and a wake of the same task gets the lock first, the task comes
      back, and the registry is as it was: a wake is never lost to the race. */
  lemma ParkAndWakeMeet<T>(r: Registry<T>, id: nat, task: T)
    requires r.Valid() && id !in r.tasks && id !in r.early
    ensures var (parkedFirst, kept) := ParkIn(r, id, task);
            kept == None && WakeIn(parkedFirst, id) == (r, Some(task))
    ensures var (wokenFirst, found) := WakeIn(r, id);
            found == None && ParkIn(wokenFirst, id, task) == (r, Some(task))
  {
    var parked := ParkIn(r, id, task).0;
    assert WakeIn(parked, id).0.tasks == r.tasks;
    assert r.early + {id} - {id} == r.early;
  }

  /** Operations on one task leave every other task and wake alone. */
  lemma OthersUntouched<T>(r: Registry<T>, id: nat, task: T, other: nat)
    requires other != id
    ensures var r' := ParkIn(r, id, task).0;
            && (other in r'.tasks <==> other in r.tasks) && (other in r'.early <==> other in r.early)
            && (other in r.tasks ==> r'.tasks[other] == r.tasks[other])
    ensures var r' := WakeIn(r, id).0;
            && (other in r'.tasks <==> other in r.tasks) && (other in r'.early <==> other in r.early)
            && (other in r.tasks ==> r'.tasks[other] == r.tasks[other])
  {
  }

  class Parked<T> {
    var tasks: map<nat, T>
    var early: set<nat>
    var count: nat

    ghost function Contents(): Registry<T>
      reads this
    {
      Registry(tasks, early, count)
    }

    constructor ()
      ensures Contents() == Registry(map[], {}, 0) && Contents().Valid()
    {
      tasks := map[];
      early := {};
      count := 0;
    }

    method Park(id: nat, task: T) returns (back: Option<T>)
      requires Contents().Valid()
      modifies this
      ensures (Contents(), back) == ParkIn(old(Contents()), id, task) && Contents().Valid()
    {
      ParkKeepsValid(Contents(), id, task);
      var raced := id in early;
      early := early - {id};
      if raced {
        return Some(task);
      }
      assert early == old(early);
      tasks := tasks[id := task];
      count := |tasks|;
      back := None;
    }

    method Wake(id: nat) returns (task: Option<T>)
      requires Contents().Valid()
      modifies this
      ensures (Contents(), task) == WakeIn(old(Contents()), id) && Contents().Valid()
    {
      WakeKeepsValid(Contents(), id);
      task := if id in tasks then Some(tasks[id]) else None;
      tasks := map k | k in tasks && k != id :: tasks[k];
      if task.None? {
        assert tasks == old(tasks);
        early := early + {id};
      } else {
        count := |tasks|;
      }
    }

    method Len() returns (n: nat)
      requires Contents().Valid()
      ensures n == |Contents().tasks|
    {
      n := count;
    }
  }
}
