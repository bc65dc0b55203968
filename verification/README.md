# A verified model of krio

krio is a family of concurrency building blocks in Rust: a work-stealing cluster (`krio-parallel`), a
compiler from marked coroutines to state machines with an executor around them (`krio-stackless`), a
lowering of async functions to resumable state machines (`krio-async`), and a round-robin task scheduler
(`krio-runtime`). This project models the four and proves what they are for: that concurrent protocols lose
nothing and wake everyone, and that the compilers preserve meaning.

## The work-stealing cluster

Every protocol is a state machine whose steps are single loads, stores and compare-and-swaps of one agent,
under sequential consistency; a theorem about runs holds for every interleaving of any number of agents.
`park(slot, v)` compares and sleeps atomically, `unpark` wakes the sleepers of that word, and a sleeper may
also wake for no reason.

* `DequeSteps` is the bounded Chase–Lev deque on unbounded counters. Each step is at most one operation of a
  sequential deque, so every run is linearizable, and values pushed are exactly those live, in flight or
  taken. `Words` and `DequeWords` show that fixed-width counters which wrap, and slots chosen by a mask, run
  the same way. `Deque` is the data structure itself as a class over an array.
  `Outcomes` says of every operation of every run how it ends, and that each is wait-free.
* `Barrier` is stop-the-world: `request`, `enter`, `await_all`, `release` and the agents that use them.
  `Arrivals` is its other half: what each part does when left alone, and that collections come about.
* `Sleep` is the handshake between `run`, `notify_one` and `shutdown`. `Search` adds that whoever is awake finds
  what there is to run, and thinks of sleeping only after it has looked everywhere; `Notices` who is woken, that
  jobs are not lost between queues and hands, and that `run` is left after a shutdown.
* `Parked` is the wake registry as a class; `Jobs` puts deques, injector, registry and agents together and
  proves that every spawned job is in exactly one place and that no wake is lost; `Passes` what a pass does with
  a job.

Two results deserve a maintainer's attention.

* Stop-the-world is safe in two regimes. If hot loops poll with a `while`, as `drive_once` itself does, it is
  safe over every run. If they poll with a single `if safepoint_requested() { enter_safepoint() }`, which is
  all that `crates/krio-parallel/src/lib.rs:45-53` asks for, it is safe over every run in which no stop is
  given up before all have arrived (`Barrier.StopTheWorldIsSafe`). With a single `if` and a stop given up it is
  not: a task arrives for that stop, is counted into the next one, and is back inside its step while the next
  collection runs. `Barrier.UnsafeIff` says for which clusters such a run exists: exactly those of two agents or
  more, at most one of them a main agent, whose hot loops poll with a single `if`.
* A thief's compare-and-swap can succeed wrongly exactly when `top` has moved by a positive whole number of
  turns of the index space since the thief read it (`DequeWords.StaleClaimIff`). Every run without such a claim
  is linearizable (`DequeWords.WrappedDequeLinearizable`), and for every width and capacity there is a run with
  one in which a value pushed once is handed out twice (`DequeWords.LateClaimDuplicates`).

## The coroutine compiler

`Coroutines` gives the IR of the crate's toy adapter a small-step meaning, block by block, over arbitrary
user code (`Sem`): what a user statement does, when a channel is ready, what a recv and a send do. `Regions`
gives regions a meaning directly on the source: each coroutine has a position, a scheduler picks who is
polled, a poll runs to the next suspension that holds. `RegionOk` is the builder's contract for one region: one
suspension a block, end markers last, the region's end alone in its block, disjoint bodies, and code behind the
region that comes back, if at all, through its first block.

The emitters are methods on a mutable body (`Cfg.Body`) that rewrite it block by block in the source's order,
and each is proved to produce a *shape*, a predicate on the finished blocks (`Machines`, `Cooperative`,
`PriorityLoop`, `OneShot`). The simulation theorems then say that any body of that shape runs as the source
does under the scheduler: `Machines`/`Fleets` for a poll of a machine, `Cooperative` for round robin,
`PriorityRuns`/`PriorityLoop` for strict priority, `OneShot` for the executor that a host calls again. `Toy`
takes the body of the crate's adapter test through all of it: it meets the contract, its statements run in the
expected order under the reference, and so they do in whatever the transform makes of it.

A body may hold many regions, one after another or one inside a coroutine of another. `Discovery` is the search
for suspensions and the scan for regions; `Outline` says what the scan finds in a body whose regions are nested
properly: exactly the innermost ones, each with its coroutines and priorities. `Nesting.Nested` is the contract
of such a body. It gives every coroutine its *ground*, blocks it leaves only through its end, and asks that
regions lie in the blocks as they lie in the text, and that control enters a region at its begin. Every emitter
also says what it may leave in a block (`Footprint.Tidy`): no suspension and no marker that was not there, and
no way to a block the region did not lead to. From that, `Nesting.NestingKept` proves that lowering an innermost
region keeps the contract for all the others, and `Rounds.RunWith` that the loop over regions needs nothing but
the contract of the body it is given. `NestedToy` runs it on three regions, one inside another.

Four facts about the compiler follow from its exact theorems.

* The round-robin loop's deadlock report is sound, and from the start of a pass in which every unfinished
  coroutine stands at a shut guard the loop ends in a report if and only if the host takes reports and no
  coroutine has ended (`Deadlocks.ReportedIff`). Passing over a finished coroutine counts as progress
  (`crates/krio-stackless/src/executor.rs:104-132`), so with one ended and the others blocked for good it spins
  for ever; the comment at line 152 ("otherwise none ever will") promises more. `MixedToy` is a body of two
  coroutines that gets there, and whose output never stops. The priority loop reports every such deadlock
  (`PriorityRuns.ReportedIff`).
* A coroutine without a priority is sorted as if its priority were `u32::MAX`
  (`crates/krio-stackless/src/executor.rs:264-273`) but is not in a band with one whose priority is `u32::MAX`:
  written between two of those it splits their band in two. Below `u32::MAX` a band is exactly the coroutines of
  one priority; `Priority.SharesBandIff` says in general who shares one.
* A region without coroutines is skipped by the loop over regions (`crates/krio-stackless/src/lib.rs:189-195`),
  and because its markers stay, every region around it is never found innermost and stays unlowered as well.
  `Rounds.RunWith` states that these are exactly the regions left.
* Lowering a region erases its yields and rewrites its guards, but keeps its sends
  (`crates/krio-stackless/src/lib.rs:483-488`), and a send is what the search takes for a suspension. So when a
  region lies inside a coroutine, every send of the inner coroutines is a suspension of the outer one as well,
  and control leaves the inner executor in the middle of a poll; their yields and guards are none
  (`Resends.SendsSuspendAgain`).

## The async lowering

`AsyncIr` gives functions a straight-through meaning; a call of a suspending callee is polled until it is
done. `AsyncSplit` and `AsyncLayout` are the transform; `AsyncRuns` is the host that interprets a layout as
the crate documents it: dispatch on the saved state, reload slots, run to a yielding block, save slots, return
`Pending`. Locals hold arbitrary values when a poll begins (`junk`), so a run can only succeed through what was
saved. `AsyncSim` proves that the lowered function does what the original does, provided the host's liveness
lists cover what is read later (`CoversLive`) and states and slots fit 32 bits (`Fits`). `Validate` is the
layout checker, and when the transform's own layouts pass it. `AsyncToy` is a small function that meets the
conditions when the host lists the one local it keeps across a yield, and that returns whatever its second poll
finds in that local when the host does not.

The specification functions that only describe a step or a state (for instance `DequeSteps.OwnerNext`,
`Barrier.Landing`, `Sleep.WorkerPc`, `Jobs.AgentStep`, `Regions.RunFrom`, `Cooperative.CoopStep`,
`PriorityRuns.PrioStep`, `AsyncRuns.LowStep`) have no row of their own below; the lemmas about them do.

## Model

| member | source | states |
|---|---|---|
| Words.WrapSub | crates/krio-parallel/src/deque.rs:90-144 | The wrapped difference of two wrapped counters is the wrapped true difference, so comparing differences is immune to the wrap. |
| Words.WrapInjective | crates/krio-parallel/src/deque.rs:152-189 | Two counters less than a turn of the index space apart have equal words only if they are equal: why a compare-and-swap on words can be trusted. |
| Words.SameWordIff | crates/krio-parallel/src/deque.rs:152-189 | Two counters have the same word exactly when they are a whole number of turns apart. |
| Words.MaskIsMod | crates/krio-parallel/src/deque.rs:32-34 | Masking with a power of two less one takes the residue. |
| Words.MaskedWordIsResidue | crates/krio-parallel/src/deque.rs:32-34 | The masked bits of a wrapped, possibly negative, index are the true index modulo the capacity. |
| DequeSteps.Contents | crates/krio-parallel/src/deque.rs:52-60 | The abstract contents: from `top` to the logical bottom, which still counts the index the owner is deciding about, each value in its slot. |
| DequeSteps.WriteKeepsOthers | crates/krio-parallel/src/deque.rs:112-118 | Writing a pushed value touches no live slot: the capacity check keeps the two apart. |
| DequeSteps.PushPublishStep | crates/krio-parallel/src/deque.rs:120-123 | Storing `bottom` is the moment a push takes effect, at the back. |
| DequeSteps.PopTopStep | crates/krio-parallel/src/deque.rs:139-167 | With more than one item left, the load of `top` is the moment a pop takes effect, at the back, with no compare-and-swap. |
| DequeSteps.PopCasStep | crates/krio-parallel/src/deque.rs:152-164 | With one item left the pop takes effect at its compare-and-swap, and only if that succeeds. |
| DequeSteps.ThiefTakes | crates/krio-parallel/src/deque.rs:171-191 | A thief's successful compare-and-swap is a pop from the front of the value it read beforehand. |
| DequeSteps.StepLinearizes | crates/krio-parallel/src/deque.rs:108-197 | Every atomic access keeps the invariant and is exactly one operation of the sequential bounded deque, or none. |
| DequeSteps.Linearizable | crates/krio-parallel/src/deque.rs:108-197 | Over every interleaving of one owner and any number of thieves, the contents go through an execution of the sequential deque performing the run's operations in order, never longer than the capacity. |
| DequeSteps.NothingLostNothingDuplicated | crates/krio-parallel/src/deque.rs:36-43 | In every state of every run, each value was pushed as often as it is live, in flight and taken together, and taken at most as often as pushed. |
| DequeSteps.FailuresAreHonest | crates/krio-parallel/src/deque.rs:112-164 | At the access that decides, a push that goes home found the deque full and a pop that goes home found it empty (whole operations: `Outcomes`). |
| DequeSteps.OwnerGetsWhatItClaimed | crates/krio-parallel/src/deque.rs:159-167 | The value the owner reads after winning an index is the one that left the deque when it won it, however many thieves ran in between. |
| DequeSteps.LostRaceIsHarmless | crates/krio-parallel/src/deque.rs:191-196 | A thief that loses its race hands out nothing and changes nothing. |
| DequeWords.SameSlot | crates/krio-parallel/src/deque.rs:118-183 | The masked wrapped index and the true one name the same slot. |
| DequeWords.SameDifference | crates/krio-parallel/src/deque.rs:112-176 | The wrapped difference of nearby counters is the true one. |
| DequeWords.OwnerSimulates | crates/krio-parallel/src/deque.rs:108-168 | Each access of the owner on wrapped words is the same access on unbounded counters. |
| DequeWords.OwnerCasSimulates | crates/krio-parallel/src/deque.rs:152-158 | The owner's compare-and-swap succeeds on the words exactly when it does on the counters. |
| DequeWords.ThiefSimulates | crates/krio-parallel/src/deque.rs:171-197 | So is each access of a thief, unless it is a claim that comes a positive whole number of turns of the index space late; one whose difference has changed sign goes home empty-handed. |
| DequeWords.WordsRefine | crates/krio-parallel/src/deque.rs:17-34 | Every run of the wrapped deque, of any width and any power-of-two capacity below half the index space, is step for step a run of the unbounded one, action for action and state by state, across any number of wraps, if no steal claims a positive whole number of turns late. |
| DequeWords.WrappedDequeLinearizable | crates/krio-parallel/src/deque.rs:108-215 | In every such run: the events of the run's own accesses, owner's pops at the back and thieves' at the front, are the history of the related unbounded run and an execution of the sequential deque; the capacity bound, and conservation of the deque as the code runs it, whenever the owner is idle in terms of the slots `drop` would visit. |
| DequeWords.DropVisitsExactlyTheLive | crates/krio-parallel/src/deque.rs:200-215 | Counting first and stepping a wrapping index visits exactly the live values, oldest first, and `len` is their number. |
| DequeWords.StaleClaimIff | crates/krio-parallel/src/deque.rs:185-189 | A late thief's compare succeeds wrongly if and only if `top` has moved by a positive whole number of turns. |
| DequeWords.OthersComeAndGo | crates/krio-parallel/src/deque.rs:171-191 | While one thief sleeps between its read and its claim, any number of values can be pushed and stolen. |
| DequeWords.LateClaimDuplicates | crates/krio-parallel/src/deque.rs:185-197 | For every width and capacity there is a run in which a claim a whole turn late hands out a second time a value pushed once. |
| Outcomes.PopOutcome | crates/krio-parallel/src/deque.rs:131-168 | In every run a pop that is over has popped the back exactly once and handed that value out in its last access, or has done nothing and met an empty deque on the way. |
| Outcomes.PushOutcome | crates/krio-parallel/src/deque.rs:108-124 | In every run a push that is over has appended its value in its last access, or has done nothing and met a full deque on the way. |
| Outcomes.StealOutcome | crates/krio-parallel/src/deque.rs:171-197 | In every run a steal that is over has popped the front in its last access and handed that value out, or has done nothing and on the way there was nothing to steal, or `top` moved after it loaded it. Nothing to steal: an empty deque, or one value that the owner is in the middle of popping. |
| Outcomes.StealMissesTheLast | crates/krio-parallel/src/deque.rs:171-179 | That last case cannot be left out: a run in which a steal comes home empty-handed though the deque holds a value throughout and `top` never moves. |
| Outcomes.OwnerIsWaitFree | crates/krio-parallel/src/deque.rs:108-168 | On wrapped words, whatever thieves do, a pop is over after at most six accesses of the owner and a push after at most four. |
| Outcomes.ThievesAreWaitFree | crates/krio-parallel/src/deque.rs:171-197 | A steal is over after at most four accesses of its own. |
| Outcomes.HasSameRun | crates/krio-parallel/src/deque.rs:17-34 | Every run on wrapped words with no claim a whole turn late is a run on counters, state by state, action by action and event by event. |
| Outcomes.WrappedPopOutcome | crates/krio-parallel/src/deque.rs:131-168 | The outcome of a pop, of the deque on wrapped words. |
| Outcomes.WrappedPushOutcome | crates/krio-parallel/src/deque.rs:108-124 | The outcome of a push, of the deque on wrapped words. |
| Outcomes.WrappedStealOutcome | crates/krio-parallel/src/deque.rs:171-197 | The outcome of a steal, of the deque on wrapped words. |
| Deque.CapacityExponent | crates/krio-parallel/src/deque.rs:69-70 | The capacity is the least power of two that is at least two and holds what was asked for. |
| Deque.Deque.WithCapacity | crates/krio-parallel/src/deque.rs:69-81 | A new deque, of any capacity up to a quarter of the index space, is empty and holds at least what was asked for, less than twice that unless it is two. |
| Deque.Deque.Len | crates/krio-parallel/src/deque.rs:90-94 | With nobody interfering, the number of queued items. |
| Deque.Deque.Push | crates/krio-parallel/src/deque.rs:108-124 | Appends at the back, or hands the value back and changes nothing, exactly when the deque is full. |
| Deque.Deque.Pop | crates/krio-parallel/src/deque.rs:131-168 | Removes and returns the newest item, or nothing exactly when empty. |
| Deque.Deque.Steal | crates/krio-parallel/src/deque.rs:171-197 | Removes and returns the oldest item, or nothing exactly when empty. |
| Deque.Deque.Drop | crates/krio-parallel/src/deque.rs:200-215 | Drops the contents, each once and in order. |
| Deque.PushFacts | crates/krio-parallel/src/deque.rs:108-124 | On wrapped words, writing one slot and stepping `bottom` appends one item and leaves the others. |
| Deque.PopFacts | crates/krio-parallel/src/deque.rs:131-168 | On wrapped words, stepping `bottom` back removes the newest item; taking the last one leaves `top` at `bottom`. |
| Deque.StealFacts | crates/krio-parallel/src/deque.rs:171-197 | On wrapped words, stepping `top` removes the oldest item. |
| Barrier.WordFollows | crates/krio-parallel/src/safepoint.rs:91-169 | The word's parity moves exactly with an agent coming to hold, or ceasing to hold, a stop. |
| Barrier.CountFollows | crates/krio-parallel/src/safepoint.rs:115-137 | The count of arrivals moves exactly with agents arriving and departing. |
| Barrier.OwnerArrives | crates/krio-parallel/src/safepoint.rs:196-215 | When a load finds everyone arrived, everyone else stands where they cannot step without first finding no stop pending, even if some arrivals belong to an earlier round. |
| Barrier.SafeStaysSafe | crates/krio-parallel/src/lib.rs:543-555 | While a stop is pending such an agent stays so: `run` and `drive_once` test the word again after `enter` returns. |
| Barrier.StepKeepsInv | crates/krio-parallel/src/safepoint.rs:91-215 | Every access of every agent keeps the barrier's invariant, however its hot loops poll. |
| Barrier.StoppedKept | crates/krio-parallel/src/lib.rs:543-555 | With hot loops that poll again, every access keeps it so that whoever owns the world, all others are stopped, even if some were counted for an earlier round. |
| Barrier.SettledKept | crates/krio-parallel/src/safepoint.rs:115-215 | With no stop given up, every access keeps it so that nobody arrives for a round that is over, and that the releaser of a round waits for everyone on the way out of it. |
| Barrier.StopTheWorldIsSafe | crates/krio-parallel/src/lib.rs:396-419 | Over every run without shutdown, for any number of agents, rounds and requesters, if hot loops poll again or no stop is given up: from the load that found all arrived to the releasing compare-and-swap, no agent but the owner is inside a task away from a safe point, or can get there without finding the stop released. |
| Barrier.OneOwner | crates/krio-parallel/src/safepoint.rs:89-107 | Two hosts never both own the world. |
| Barrier.OddIffHeld | crates/krio-parallel/src/safepoint.rs:45-68 | The word is odd exactly while one granted stop is unreleased, and at most one is. |
| Barrier.ReleaseDrains | crates/krio-parallel/src/safepoint.rs:139-185 | `release` returns only from a load that found nobody at the barrier, this round's or an earlier one's. |
| Barrier.NoSleeperForgotten | crates/krio-parallel/src/safepoint.rs:115-215 | Unless someone is about to notify, whoever sleeps in `enter` sleeps on the round still pending, whoever sleeps on the count sleeps on its present value, and that is the number of agents at the barrier. |
| Barrier.SinglePollIsNotEnough | crates/krio-parallel/src/lib.rs:45-79 | In a cluster of any size, with any owner, host and hot loop that polls with a single `if`, a run that gives a stop up and ends with the loop inside its step during a collection. |
| Barrier.UnsafeIff | crates/krio-parallel/src/lib.rs:45-79 | A run with a collection amid running tasks exists exactly for clusters of two agents or more, at most one of them a main agent, whose hot loops poll with a single `if`. |
| Arrivals.RequestIsGranted | crates/krio-parallel/src/safepoint.rs:91-109 | With no stop pending a requester left alone moves the word on and waits for the count. |
| Arrivals.RequestIsRefused | crates/krio-parallel/src/safepoint.rs:91-97 | With one pending it is refused and goes back, changing nothing. |
| Arrivals.OwnerLooks | crates/krio-parallel/src/lib.rs:396-424 | Once all others are counted the owner has the world; until then it goes to sleep on the count it saw. |
| Arrivals.OwnerReleases | crates/krio-parallel/src/safepoint.rs:154-171 | After the collection the owner moves the word on and wakes everybody who sleeps on it. |
| Arrivals.OwnerDrains | crates/krio-parallel/src/safepoint.rs:173-185 | It returns once nobody is counted; until then it wakes whoever sleeps on the word and sleeps on the count. |
| Arrivals.AgentArrives | crates/krio-parallel/src/safepoint.rs:115-133 | An agent left alone that tests and finds a stop pending is counted, wakes whoever waits for the count, and sleeps on that round. |
| Arrivals.WorkerArrives | crates/krio-parallel/src/lib.rs:528-582 | So is a worker anywhere in its loop, after at most ten accesses of its own. |
| Arrivals.LoopComesToTest | crates/krio-parallel/src/lib.rs:528-552 | While a stop is pending a worker is at a test, and a main agent out of its pass, after at most three accesses. |
| Arrivals.AgentLeaves | crates/krio-parallel/src/safepoint.rs:126-137 | One whose round is over takes itself off the count, wakes whoever waits for that, and goes back to where it came from. |
| Arrivals.AgentGoesOn | crates/krio-parallel/src/lib.rs:528-582 | With no stop pending a test lets an agent on to its task or the next one. |
| Arrivals.CollectionHappens | crates/krio-parallel/src/lib.rs:396-424 | From any state in which one agent is about to request and all others to test, in a cluster of any size, there is a run in which it collects while all others sleep at the barrier, and after which all are back, nobody is counted and no stop is pending. |
| Sleep.GoneStaysGone | crates/krio-parallel/src/lib.rs:604-616 | A worker's own access brings it to sleep with a job in the injector only if it was as good as asleep before: the re-check after publishing `PARKED` sees the job. |
| Sleep.NotifierWakeupKept | crates/krio-parallel/src/lib.rs:449-470 | A push makes its own notifier the help that is coming, and a scan that finds no sleeper has passed only agents that are not asleep. |
| Sleep.StepKeepsInv | crates/krio-parallel/src/lib.rs:449-638 | Every access of workers, spawners, wakers and shutdown, of main agents that take jobs, put them back and notify, and of tasks that spawn onto their own agent's deque or past it in the middle of a step, keeps the handshake's invariant. |
| Sleep.SomeoneIsAwake | crates/krio-parallel/src/lib.rs:571-623 | No lost wakeup: with an agent in `run`, a job in the injector or on a worker's deque, and no notifier between its push and the end of its scan, not every worker is asleep. |
| Sleep.AllAsleepNothingRunnable | crates/krio-parallel/src/lib.rs:571-623 | The invariant behind it: if all workers are asleep and no notification is on its way, there is nothing to run. |
| Sleep.NotifiedSleeperIsWoken | crates/krio-parallel/src/lib.rs:449-459 | A sleeper whose slot has been moved out of `PARKED` has someone about to wake it. |
| Sleep.ShutdownLeavesNoSleeper | crates/krio-parallel/src/lib.rs:625-638 | Once `shutdown` has finished, no worker is asleep on its slot, and none can fall asleep again. |
| Search.FindsItsOwn | crates/krio-parallel/src/lib.rs:236-242 | A worker that looks for work, left alone, has a job of its own deque in hand after two accesses. |
| Search.FindsInInjector | crates/krio-parallel/src/lib.rs:244-246 | With an empty deque it has one of the injector in hand after three, and the injector has one less. |
| Search.FindsVictim | crates/krio-parallel/src/lib.rs:248-260 | With that empty too it has one of the first other deque, from where the rotor points, that has any, and that deque has one less. |
| Search.FallsAsleep | crates/krio-parallel/src/lib.rs:571-617 | With no job anywhere it falls asleep, its slot `PARKED` and nothing else changed, after one more round if a notification was pending. |
| Search.LooksWhenWoken | crates/krio-parallel/src/lib.rs:616-622 | Woken, it resets its slot and looks again. |
| Search.SleepsOnlyAfterLooking | crates/krio-parallel/src/lib.rs:236-263 | In every run a worker about to publish `PARKED` has, in this pass, found its own deque empty, found the injector empty, and tried every other deque, each of which was empty then or lost to another thief. |
| Notices.NotifierNotifies | crates/krio-parallel/src/lib.rs:449-470 | A spawner or waker left alone leaves one more job in the injector, notifies the first agent that has published `PARKED`, and wakes it if it sleeps. |
| Notices.WorkerNotifies | crates/krio-parallel/src/lib.rs:449-459 | So does a worker that notifies, which then goes on where it was. |
| Notices.StepEnds | crates/krio-parallel/src/lib.rs:504-522 | A step that completes or blocks leaves the queues alone. |
| Notices.StepYields | crates/krio-parallel/src/lib.rs:524-532 | A step that yields puts its job on the worker's own deque, and if that leaves more than one there notifies. |
| Notices.WorkerKeepsStock | crates/krio-parallel/src/lib.rs:472-569 | No access of a worker makes or loses a job: one comes in only when a task spawns it and goes out only when its step completes or blocks. |
| Notices.ShutdownTellsAll | crates/krio-parallel/src/lib.rs:625-638 | `shutdown`, left alone, is over after 3 + 2n accesses, with every slot `NOTIFIED` and every sleeper woken. |
| Notices.RunIsLeft | crates/krio-parallel/src/lib.rs:571-638 | Once it is over a worker is out of `run` after fewer than 12 + 2n accesses of its own, whatever others do, if its tasks do not spawn. |
| Parked.ParkKeepsValid | crates/krio-parallel/src/parked.rs:93-105 | `park` keeps the parked and the early-woken apart and the count in step with the map. |
| Parked.WakeKeepsValid | crates/krio-parallel/src/parked.rs:111-127 | So does `wake`. |
| Parked.ParkAndWakeMeet | crates/krio-parallel/src/parked.rs:88-127 | Whichever of a park and a wake of a task gets the lock first, the task comes back and the registry is as it was. |
| Parked.OthersUntouched | crates/krio-parallel/src/parked.rs:93-127 | Neither touches any other task or wake. |
| Parked.Parked.Park | crates/krio-parallel/src/parked.rs:93-105 | Takes an early wake and hands the task back, or holds the task. |
| Parked.Parked.Wake | crates/krio-parallel/src/parked.rs:111-127 | Returns the held task, or records the wake. |
| Parked.Parked.Len | crates/krio-parallel/src/parked.rs:131-133 | The number of tasks held. |
| Jobs.AgentConserves | crates/krio-parallel/src/lib.rs:236-263 | A step of an agent (pop, injector, steal, step, park, hand-back, requeue, spill, early exit) leaves every live job in one place and every other id in none. |
| Jobs.OutsiderConserves | crates/krio-parallel/src/lib.rs:287-299 | So does a step of a spawner or waker. |
| Jobs.ParkKeepsWakes | crates/krio-parallel/src/lib.rs:515-520 | Parking consumes an early wake by handing the job back, and never parks a job over an unconsumed wake. |
| Jobs.WakeKeepsWakes | crates/krio-parallel/src/lib.rs:287-299 | Waking takes a parked job out, or leaves the wake on record. |
| Jobs.EveryJobInOnePlace | crates/krio-parallel/src/lib.rs:215-569 | Job conservation over every run: a spawned, uncompleted job is in exactly one deque, the injector, the registry or one hand, no other id is anywhere, and ids are nonzero. |
| Jobs.DequeStep | crates/krio-parallel/src/lib.rs:236-263 | Each step performs on each deque one operation of the sequential deque or none; a job is spilled exactly when the deque is full, and an agent passes on to the injector exactly when its own is empty. |
| Jobs.DequesRunTheSpec | crates/krio-parallel/src/deque.rs:36-43 | In every run each deque goes through an execution of the same sequential deque that the deque's own accesses are linearized to. |
| Jobs.RegistryStaysValid | crates/krio-parallel/src/parked.rs:93-127 | In every state of every run the count mirrors the map and no id is both parked and early-woken. |
| Jobs.WakeIsNeverLost | crates/krio-parallel/src/lib.rs:274-299 | From `wake(id)` until the task's next step begins it is never left parked, and if it is about to park, that park hands it back. |
| Jobs.WhereAWokenTaskIs | crates/krio-parallel/src/lib.rs:274-299 | A woken live task is on a queue or in a hand; if an agent is stepping or parking it, the wake is on record. |
| Jobs.IdsDistinctIff | crates/krio-parallel/src/lib.rs:215-217 | In a run of the cluster the ids minted are nonzero and pairwise distinct exactly if fewer than 2^64 tasks are spawned. |
| Passes.OnePass | crates/krio-parallel/src/lib.rs:236-569 | An agent left alone takes the newest job of its own deque, or else the oldest of the injector, or else the oldest of a victim, steps it, and leaves it finished if it completed; in the registry if it suspended, or back on its deque if a wake was on record; back on its deque, or in the injector if that is full, if it yielded. |
| Passes.EmptyPass | crates/krio-parallel/src/lib.rs:236-263 | With nothing to be found a pass changes nothing. |
| Passes.DoneOnlyByItsStep | crates/krio-parallel/src/lib.rs:496-505 | In every run a job is done with only when an agent that took it up, and has been stepping it since, sees its step complete. |
| Passes.SpawnArrives | crates/krio-parallel/src/lib.rs:463-470 | A spawner left alone leaves a job with the next id at the injector's end. |
| Passes.SpawnHereArrives | crates/krio-parallel/src/lib.rs:192-230 | `spawn_on` one's own agent leaves it on that deque as its newest, or in the injector if the deque is full. |
| Passes.WakeArrives | crates/krio-parallel/src/lib.rs:287-299 | A waker left alone takes the parked job to the injector's end, or leaves word for when it parks. |
| Cfg.Body.NewBlock | crates/krio-stackless/src/cfg.rs:50-53 | Appends an empty block with the default terminator. |
| Cfg.Body.NewLocal | crates/krio-stackless/src/cfg.rs:55-65 | Hands out the next local. |
| Cfg.Body.Append | crates/krio-stackless/src/cfg.rs:67-82 | Adds a statement at the end of one block. |
| Cfg.Body.Prepend | crates/krio-stackless/src/cfg.rs:96-99 | Adds a statement at the front of one block. |
| Cfg.Body.Replace | crates/krio-stackless/src/cfg.rs:86-88 | Replaces one statement. |
| Cfg.Body.SplitAfter | crates/krio-stackless/src/cfg.rs:90-94 | Moves what follows a statement, and the terminator, into a fresh block. |
| Cfg.Body.SetTerm | crates/krio-stackless/src/cfg.rs:103-123 | Sets one block's terminator. |
| Cfg.Body.RedirectTargets | crates/krio-stackless/src/cfg.rs:125-128 | Rewrites one block's references to a block. |
| Regions.BodyOf | crates/krio-stackless/src/lib.rs:252-286 | A coroutine's blocks: those reachable from its begin marker without going on from its end block. |
| Regions.BodyIsClosed | crates/krio-stackless/src/lib.rs:270-285 | Following a terminator from any of them but the end block stays among them. |
| Regions.NextSite | crates/krio-stackless/src/lib.rs:287-303 | The first suspension at or after a statement, or the end of the block. |
| Regions.RunFromResult | crates/krio-stackless/src/lib.rs:423-518 | A stretch of a poll moves one coroutine only; it goes on, halts, or ends with a result that is `Completed` exactly if the coroutine has ended. |
| Regions.StretchEnds | crates/krio-stackless/src/lib.rs:447-500 | A yield ends the poll behind it; a send is made and ends the poll behind it; a recv ends it blocked in front of it if its channel is not ready, and is made, counts as progress and lets the coroutine go on if it is. |
| Discovery.FindBody | crates/krio-stackless/src/lib.rs:270-286 | The traversal with a stack finds exactly the reachable blocks. |
| Discovery.ClosedHoldsPath | crates/krio-stackless/src/lib.rs:273-285 | A set closed under going on from anywhere but the end block holds the end of every path from the begin block. |
| Discovery.FindSuspensionPoints | crates/krio-stackless/src/lib.rs:260-305 | Exactly the suspensions of the coroutine's blocks behind the begin and before the end marker, once each, in block and statement order. |
| Outline.FindRegions | crates/krio-stackless/src/lib.rs:203-250 | What the scan over blocks and statements finds in any body, and of a body whose regions are nested properly exactly the innermost ones. |
| Outline.FindsExactly | crates/krio-stackless/src/lib.rs:203-250 | On a body whose regions are nested properly the scan finds a region, with its list of coroutines and their priorities, if and only if it is one of the body's and none lies inside it. |
| Lowering.EmitGuardedRecvPeek | crates/krio-stackless/src/cfg.rs:155-174 | The hook: a peek in the guard's place, the recv at the head of the resume block. |
| Lowering.EmitGuard | crates/krio-stackless/src/lib.rs:463-473 | The guard in a block of its own with a peek and a branch, the recv behind a progress mark, and a blocked exit. |
| Lowering.EmitSite | crates/krio-stackless/src/lib.rs:443-497 | Cuts one block at one suspension. |
| Lowering.CutAtShape | crates/krio-stackless/src/lib.rs:443-497 | The cut has the shape polling relies on: what precedes runs first, the suspension saves its number and leaves, the resume block has the rest and the block's terminator. |
| Lowering.CutSoFarStep | crates/krio-stackless/src/lib.rs:443-497 | Cutting the next site leaves all earlier cuts, and the sites to come, as they are. |
| Lowering.EmitCuts | crates/krio-stackless/src/lib.rs:443-497 | Suspension `i` gets state `i`, all cuts in place. |
| Lowering.EmitNoSuspensionMachine | crates/krio-stackless/src/lib.rs:394-419 | Done block, dispatch on 9999, end block wired to done. |
| Lowering.EmitMultiStateMachine | crates/krio-stackless/src/lib.rs:423-518 | All cuts, done block, and a switch from state 0 to the entry and from state `i` to where suspension `i` resumes. |
| Lowering.BuildStateMachine | crates/krio-stackless/src/lib.rs:340-388 | The finished machine of one coroutine, in blocks and locals of its own, with every block outside the coroutine's body unchanged and no region marker lost or added. |
| Lowering.CutKeepsTidy | crates/krio-stackless/src/lib.rs:443-497 | A cut brings no suspension and no marker into a block that was not there, and leads only to new blocks or where the cut block led. |
| Lowering.DispatchedTidy | crates/krio-stackless/src/lib.rs:499-518 | A dispatch leads to new blocks, to the blocks its suspensions opened, and to the begin block. |
| Machines.FinishSim | crates/krio-stackless/src/lib.rs:499-518 | The end of a block leads to the body's next block, or through `done` out of the poll with state 9999. |
| Machines.ReadySim | crates/krio-stackless/src/lib.rs:452-476 | A guard whose channel is ready is passed: progress is marked, the recv and the rest of the block run. |
| Machines.BlockedSim | crates/krio-stackless/src/lib.rs:452-476 | A shut guard ends the poll blocked, to be looked at again; nothing of the user's runs. |
| Machines.PauseSim | crates/krio-stackless/src/lib.rs:478-497 | A yield or send runs what precedes it, saves the state of what follows and ends the poll pending. |
| Machines.InsideSim | crates/krio-stackless/src/lib.rs:423-518 | From any position, one stretch of the coroutine is a few blocks of its machine, ending at the corresponding block with the corresponding state. |
| Machines.DispatchSim | crates/krio-stackless/src/lib.rs:508-517 | Dispatching on the saved state resumes exactly where the coroutine stands. |
| Fleets.PollSim | crates/krio-stackless/src/lib.rs:340-518 | A step of a poll in a region of many machines, the others undisturbed. |
| Executors.EnterSim | crates/krio-stackless/src/executor.rs:181-238 | Entering the region runs what precedes it, puts every machine in state 0 and reaches the executor. |
| Executors.OutsideSim | crates/krio-stackless/src/executor.rs:168-177 | Code outside the region runs as it did, and the region's exit goes on with what followed the region. |
| Cooperative.SkipSim | crates/krio-stackless/src/executor.rs:104-138 | A finished coroutine is passed over, which counts as progress. |
| Cooperative.AfterPollSim | crates/krio-stackless/src/executor.rs:111-145 | A finished poll latches completion or clears `all_done`, and anything but a blocked poll counts as progress. |
| Cooperative.PassOverSim | crates/krio-stackless/src/executor.rs:147-161 | The end of a pass: out when all have ended, round again on progress, otherwise the report or, without one, round again. |
| Cooperative.CoopStepSim | crates/krio-stackless/src/executor.rs:77-164 | One step of the reference round robin is one block of the output or a few. |
| Cooperative.EveryStepIsMatched | crates/krio-stackless/src/executor.rs:62-164 | The cooperative transform preserves meaning: the output passes through every state of the source's round-robin run, with the same user world and trace, and stops exactly when and how the source does. |
| Cooperative.NothingElseHappens | crates/krio-stackless/src/executor.rs:62-164 | The output's trace after any number of blocks is a prefix of one the source reaches, and where it stops the source stops alike. |
| Cooperative.SavedStateIsPosition | crates/krio-stackless/src/lib.rs:117-123 | After any number of reference steps the output has, some steps on, the same outcome, and if the scheduler is deciding then every machine's state is 9999 exactly if its coroutine has ended and in 0..K exactly if not. |
| Cooperative.PassInvRun | crates/krio-stackless/src/executor.rs:96-145 | Throughout every run `all_done` says that every coroutine polled or skipped in this pass has ended. |
| Cooperative.EachPolledOnceAPass | crates/krio-stackless/src/executor.rs:62-145 | In every run, when a coroutine is polled every earlier one has been polled in this pass or had ended, and neither it nor a later one has been polled in it; at the end of a pass everyone has been polled or had ended. |
| Cooperative.LeavesWhenAllEnded | crates/krio-stackless/src/executor.rs:147-150 | Control leaves the region at the end of a pass exactly if every coroutine has ended. |
| Guards.QuietDoAll | crates/krio-stackless/src/cfg.rs:130-136 | Statements that are neither guards nor sends open no guard. |
| Guards.RunFromQuiet | crates/krio-stackless/src/executor.rs:104-145 | A stretch of a poll that neither passes a guard nor yields leaves the readiness of every channel; one that ends blocked stands at a shut guard. |
| Deadlocks.ReportIsSound | crates/krio-stackless/src/executor.rs:147-161 | When the round-robin loop reports, every coroutine stands at a shut guard and polling any of them would do nothing. |
| Deadlocks.NoReportOnceOneHasEnded | crates/krio-stackless/src/executor.rs:104-132 | Once a coroutine has ended no pass ends in a report: it leaves the region or goes round. |
| Deadlocks.ReportedIff | crates/krio-stackless/src/executor.rs:147-161 | From the start of a pass in which every unfinished coroutine stands at a shut guard and one is unfinished, the loop ends in a report if and only if the host takes reports and no coroutine has ended. |
| Deadlocks.StuckGoesRound | crates/krio-stackless/src/executor.rs:104-161 | Otherwise it goes round for ever, reports nothing and runs nothing. |
| MixedToy.MixedIsNeverReported | crates/krio-stackless/src/executor.rs:104-161 | A body of two coroutines gets there, for every host whose channel stays shut: one ends at once, the other waits, and no report is ever made. |
| MixedToy.MixedOutputNeverStops | crates/krio-stackless/src/executor.rs:147-161 | Nor does any output of the round-robin transform for that body ever stop. |
| CoopEmission.EmitCheck | crates/krio-stackless/src/executor.rs:98-113 | The check block, its branch, and the machine's exit wired to what follows a poll. |
| CoopEmission.EmitTurn | crates/krio-stackless/src/executor.rs:98-145 | One coroutine's turn, block by block. |
| CoopEmission.TurnShape | crates/krio-stackless/src/executor.rs:98-145 | A turn so emitted is the turn the simulation relies on. |
| CoopEmission.TurnsDoneStep | crates/krio-stackless/src/executor.rs:98-145 | Emitting the next turn leaves the earlier ones and chains to them. |
| CoopEmission.EmitLoop | crates/krio-stackless/src/executor.rs:77-161 | The whole loop is in place; apart from the machines' exits and the region's end, earlier blocks are unchanged. |
| Finishing.RegionExit | crates/krio-stackless/src/executor.rs:168-177 | What followed the region moves to a block of its own that the exit leads to. |
| Finishing.EraseMarkers | crates/krio-stackless/src/executor.rs:189-198 | Exactly the region's markers and its coroutines' become no-ops. |
| Finishing.FinishRegion | crates/krio-stackless/src/executor.rs:181-238 | Markers erased, the first block's rest lifted and state 0 retargeted to it if the first coroutine begins there, state inits appended, executor entered. |
| Assembly.RedirectedTargets | crates/krio-stackless/src/executor.rs:222-228 | Retargeting changes the entry of state 0 and no resume. |
| Assembly.AssembledFleet | crates/krio-stackless/src/executor.rs:181-238 | After all that every coroutine still has its machine, entered at the right block, in blocks and locals of its own. |
| Assembly.AssembledOutside | crates/krio-stackless/src/executor.rs:230-238 | And the code outside is as it was, with the region's first block entering the executor. |
| Emission.BuildMachines | crates/krio-stackless/src/lib.rs:319-334 | A machine for each coroutine, in spans of blocks and locals that follow one another. |
| Leavings.RegionLeaves | crates/krio-stackless/src/executor.rs:181-238 | Whatever the executor, the finished body is as it was outside the region's blocks; in those and the new ones there is no marker of the region, no suspension that was not there, no local or block that does not exist, and no way to anything but new blocks, the region's own behind its first, and what they led to. |
| Transform.TransformRegion | crates/krio-stackless/src/lib.rs:309-338 | The transform of a well-formed region yields a body of the round-robin shape, with fewer region markers than before, and leaves behind what `RegionLeaves` says. |
| Priority.SortByPriority | crates/krio-stackless/src/executor.rs:264-265 | Every coroutine once: a lower number before a higher, a number below `u32::MAX` before none, and equal priorities as written. |
| Priority.MakeBands | crates/krio-stackless/src/executor.rs:266-273 | Bands of equal priority, each coroutine in exactly one, as written within a band: a lower number in an earlier band than a higher, and one below `u32::MAX` in an earlier band than none; neighbouring bands differ in priority. |
| Priority.LowestFirst | crates/krio-stackless/src/executor.rs:240-273 | So it is in every division into bands that the loop is built from. |
| Priority.SharesBandIff | crates/krio-stackless/src/executor.rs:264-273 | Two coroutines share a band exactly if they have equal priority and none of another is sorted between them, which only priority `u32::MAX` and no priority can be to each other; below `u32::MAX` exactly if they have equal priority. |
| PriorityRuns.BandIsFair | crates/krio-stackless/src/executor.rs:245-255 | Within a band a scan visits each member once, in the order last+1..n-1, 0..last. |
| PriorityRuns.ScanIsFair | crates/krio-stackless/src/executor.rs:291-356 | A scan visits every place once, band by band, each band in that order. |
| PriorityRuns.EarlierBandsAreBlocked | crates/krio-stackless/src/executor.rs:240-246 | Whenever a coroutine is about to run, every coroutine of a lower number, or of any number below `u32::MAX` if this one has none, has ended, or has ended a poll blocked in this same scan with nobody having run since. |
| PriorityRuns.LastGoesLast | crates/krio-stackless/src/executor.rs:245-246 | Of coroutines that take turns, the one whose poll was the last to end otherwise than blocked is about to run again only when every other has ended or blocked in this scan. |
| PriorityRuns.EndOfScan | crates/krio-stackless/src/executor.rs:358-376 | At the end of a scan every coroutine has ended or blocked in it. |
| PriorityRuns.ReportedIff | crates/krio-stackless/src/executor.rs:358-376 | From the top of a scan in which every unfinished coroutine stands at a shut guard and one is unfinished, the loop ends in a report if and only if the host takes reports. |
| PriorityRuns.PriorityReportIsSound | crates/krio-stackless/src/executor.rs:358-376 | Then every unfinished coroutine stands at a shut guard and polling it would do nothing. |
| PriorityLoop.SitesAreTheScan | crates/krio-stackless/src/executor.rs:291-356 | Going through a band's two halves of scan sites, each polling on its side of `last`, visits exactly the places of the reference scan in order. |
| PriorityLoop.PrioStepSim | crates/krio-stackless/src/executor.rs:257-379 | One step of strict-priority scheduling is one block of the output or a few. |
| PriorityLoop.EveryPriorityStepIsMatched | crates/krio-stackless/src/executor.rs:240-379 | The priority transform preserves meaning, as for round robin. |
| PriorityLoop.NothingElseHappensByPriority | crates/krio-stackless/src/executor.rs:240-379 | And the output does nothing else. |
| PriorityEmission.EmitStop | crates/krio-stackless/src/executor.rs:306-355 | One member's scan sites, polls and exits, block by block. |
| PriorityEmission.EmitStops | crates/krio-stackless/src/executor.rs:303-356 | The sites of all members of all bands, each leaving the others as they are. |
| PriorityEmission.EmitChecks | crates/krio-stackless/src/executor.rs:368-376 | The chain of completion checks after a scan. |
| PriorityEmission.EmitScan | crates/krio-stackless/src/executor.rs:257-376 | The whole loop is in place; apart from the machines' exits and the region's end, earlier blocks are unchanged. |
| PriorityTransform.TransformByPriority | crates/krio-stackless/src/executor.rs:257-379 | The transform of a well-formed region, whatever its priorities, yields a body of the priority shape, with fewer region markers, and leaves behind what `RegionLeaves` says. |
| OneShot.ShotStepSim | crates/krio-stackless/src/executor.rs:448-563 | One step of the reference is one block of the one-shot output or a few. |
| OneShot.EveryCallIsAPass | crates/krio-stackless/src/executor.rs:408-424 | A host that calls again at `poll_top` on every pending report, its locals kept, gets the round robin of the looping executor without a deadlock report, whatever the locals held at first: same world, same trace, step by step. |
| OneShot.NothingElseInCalls | crates/krio-stackless/src/executor.rs:408-424 | And sees nothing else. |
| OneShot.OneCallIsOnePass | crates/krio-stackless/src/executor.rs:448-563 | Whatever stands in the pending block, a call ends with the pass: through `done` exactly if the loop would leave the region there, otherwise through `pending` with every machine's state that of the loop. |
| OneShot.CallingAgain | crates/krio-stackless/src/executor.rs:408-418 | From there a call at `poll_top` stands where the loop's next pass stands. |
| OneShotEmission.EmitVisit | crates/krio-stackless/src/executor.rs:491-523 | One coroutine's visit, block by block. |
| OneShotEmission.VisitsMadeStep | crates/krio-stackless/src/executor.rs:491-523 | Emitting the next visit leaves the earlier ones and chains to them. |
| OneShotEmission.EmitShot | crates/krio-stackless/src/executor.rs:465-532 | The whole structure is in place with its pending block as created, and stays so whatever a host puts there. |
| OneShotTransform.TransformOneShot | crates/krio-stackless/src/executor.rs:438-563 | The transform of a well-formed region yields a body of the one-shot shape for any content of the pending block, reports the two exits, leaves fewer region markers, and leaves behind what `RegionLeaves` says. |
| Rounds.TransformNext | crates/krio-stackless/src/executor.rs:47-60 | Under the looping executor a region goes to the priority loop if any of its coroutines has a priority and to round robin otherwise; under the waker executor it gets the one-shot structure. |
| Nesting.SoundIsOk | crates/krio-stackless/README.md:277-287 | A region whose coroutines have their grounds meets the contract of the transform. |
| Nesting.OneRegionIsNested | crates/krio-stackless/README.md:277-287 | A body with one region that meets the contract of the transform is properly nested, if no code around the region leads into it but at its begin. |
| Nesting.InnermostOwnsMarkers | crates/krio-stackless/src/lib.rs:178-195 | In the blocks of an innermost region of a properly nested body stand no markers but its own and some that precede it. |
| Nesting.NestingKept | crates/krio-stackless/src/lib.rs:178-195 | Lowering an innermost region leaves a properly nested body with that one region less: the contract of the regions around it and beside it is kept. |
| Rounds.NextIsInnermost | crates/krio-stackless/src/lib.rs:187-194 | The region a round takes is innermost, has coroutines and meets the contract of the transform; if there is none, no innermost region has coroutines. |
| Rounds.RoundKeepsNesting | crates/krio-stackless/src/lib.rs:178-195 | Every round, whichever the executor, takes a properly nested body to one with that one region less. |
| Rounds.RunWith | crates/krio-stackless/src/lib.rs:181-195 | On any properly nested body: region after region until none with coroutines is left, each round a correct transform of the body before it; one round for each region but those that are or hold a region without coroutines, which are left; if there are none of those no marker is left; on a body with nothing to do it changes nothing, so a second run is idle. |
| Rounds.RoundsGoDown | crates/krio-stackless/src/lib.rs:178-195 | Any sequence of rounds is no longer than the number of region markers it started with. |
| Resends.SendsSuspendAgain | crates/krio-stackless/src/lib.rs:480-501 | Once a region inside a coroutine is lowered, the suspensions on that coroutine's ground, where a block of the region's coroutines began, are exactly that block's sends: yields and guards are gone, sends are kept in their places. |
| NestedToy.NestIsNested | crates/krio-stackless/README.md:210-212 | A body of three regions, one of them inside a coroutine of another, is properly nested. |
| NestedToy.TransformNest | crates/krio-stackless/src/lib.rs:178-195 | The run over its regions takes three rounds and leaves no marker, whichever the executor. |
| Toy.ToyIsNested | crates/krio-stackless/tests/toy_adapter.rs:279-340 | The adapter test's body keeps the contract of the loop over regions. |
| Toy.ToyIsWellFormed | crates/krio-stackless/tests/toy_adapter.rs:279-340 | Its region keeps the contract of the transform. |
| Toy.ToyIsFound | crates/krio-stackless/tests/toy_adapter.rs:279-340 | Discovery finds its one region, with both coroutines. |
| Toy.ToyOrder | crates/krio-stackless/src/executor.rs:62-76 | Under round robin its statements run in the order first up to its yield, second, first again, after the region, each once, and it returns. |
| Toy.ToyOutputOrder | crates/krio-stackless/tests/toy_adapter.rs:371-401 | So they do in any body of the round-robin shape made from it. |
| Toy.TransformToy | crates/krio-stackless/tests/toy_adapter.rs:371-417 | The run over its regions makes such a body in one round and leaves no region. |
| AsyncIr.FindSites | crates/krio-async/src/lib.rs:466-491 | Exactly the suspension sites, in ascending order of block and index. |
| AsyncSplit.OneMoreCut | crates/krio-async/src/lib.rs:505-519 | Splitting the running block at the translated index is cutting the original block at its next site, earlier cuts unchanged. |
| AsyncSplit.HomeIsNew | crates/krio-async/src/lib.rs:480-490 | The block a new site is cut in ends no earlier piece; it is an earlier cut's tail only if that is the previous site of the same block. |
| AsyncSplit.SplitSite | crates/krio-async/src/lib.rs:520-589 | A yield splits off its tail and is recorded as one; a call splits off its tail, adds a resume check, and is recorded in two rows with its own receiver, arguments, result and callee. |
| AsyncSplit.SplitAtSites | crates/krio-async/src/lib.rs:493-590 | The i-th site ends its block, advances to state i, and resumes at `resume_entries[i]`: its tail for a yield, for a call a fresh block whose `done_block` is that tail. The kinds are one row for each yield and two for each call, with the call's own receiver, arguments, result and callee, in site order and no others. |
| AsyncSplit.PiecesRebuild | crates/krio-async/src/lib.rs:480-590 | From any cut on, the pieces of a block put together are the rest of the block. |
| AsyncSplit.SplitLosesNothing | crates/krio-async/src/lib.rs:480-590 | Splitting is lossless: pieces rebuild their block, each but the last ends at its site, the last has the block's terminator, and uncut blocks are untouched. |
| AsyncLayout.AssignSlots | crates/krio-async/src/lib.rs:606-622 | A slot for each live local of a site, old locals keeping theirs, new ones numbered on. |
| AsyncLayout.LiftCaptures | crates/krio-async/src/lib.rs:592-622 | For each site with live locals a save row at its yielding block and the same row as a load at its resume block. |
| AsyncLayout.Transform | crates/krio-async/src/lib.rs:438-631 | The whole transform of a suspending function, kinds row by row included; a function that does not suspend is left alone with an empty layout. |
| AsyncRuns.KeysAreApart | crates/krio-async/src/lib.rs:493-590 | Yielding blocks and resume blocks are pairwise different, and none plays both parts, so the layout's tables are unambiguous. |
| AsyncRuns.SlotsAreApart | crates/krio-async/src/lib.rs:596-622 | Different locals have different slots as long as there are at most 2^32 of them. |
| AsyncRuns.SaveKeeps | crates/krio-async/src/lib.rs:361-370 | Saving a row puts each of its locals in its slot and leaves every other slot. |
| AsyncRuns.LoadKeeps | crates/krio-async/src/lib.rs:361-370 | Loading a row restores each of its locals and leaves every other local. |
| AsyncSim.SaveHolds | crates/krio-async/src/lib.rs:361-370 | What a yielding block saves holds everything the continuation reads, if the site's list covers it. |
| AsyncSim.LoadAgrees | crates/krio-async/src/lib.rs:361-370 | What a resume block loads is what those locals were, whatever the poll found in its locals. |
| AsyncSim.YieldSim | crates/krio-async/src/lib.rs:520-534 | A yield is a suspension and a dispatch, after which the function stands behind the yield. |
| AsyncSim.CallSim | crates/krio-async/src/lib.rs:535-588 | A call starts the callee with the arguments the original would pass and goes on to the resume check. |
| AsyncSim.PendingSim | crates/krio-async/src/lib.rs:535-588 | A callee that yields suspends its caller, which finds its way back to the same poll. |
| AsyncSim.DoneSim | crates/krio-async/src/lib.rs:535-588 | A callee's result goes where the call would have put it, and control to the post-call block. |
| AsyncSim.StepSim | crates/krio-async/src/lib.rs:438-631 | One step of the original is one or two of the lowered function. |
| AsyncSim.EveryStepIsMatched | crates/krio-async/src/lib.rs:342-370 | Lowering preserves meaning: however polls find their locals, the lowered function passes through every state of the original's run, with the same trace and the same result. |
| AsyncSim.NothingElseHappens | crates/krio-async/src/lib.rs:342-370 | And it does nothing else, and ends only as the original does. |
| AsyncToy.ReadyIffTold | crates/krio-async/src/lib.rs:352-356 | A function that keeps one local across a yield meets the theorems' conditions with that local on the host's list, and not without it. |
| AsyncToy.UntoldReturnsJunk | crates/krio-async/src/lib.rs:258-262 | Without it the lowered function returns whatever its second poll finds in that local, where the original returns what it had computed. |
| AsyncToy.OriginalReturnsFive | crates/krio-async/src/lib.rs:258-262 | The original's result, for comparison. |
| Validate.AuditRows | crates/krio-async/src/validate.rs:161-197 | Finds a repeated or out-of-range slot in some block exactly if there is one. |
| Validate.FirstMissing | crates/krio-async/src/validate.rs:199-220 | The smallest slot of one set that the other lacks, if any. |
| Validate.ValidateLayout | crates/krio-async/src/validate.rs:144-223 | Accepts exactly the layouts with matching counts, no repeated slot in a row, all slots below the bound, and equal saved and loaded slot sets; every error says something true, and what the checks before it found. |
| Validate.SlotsFill | crates/krio-async/src/lib.rs:596-622 | Slots are one to one and fill exactly reserved..reserved+distinct. |
| Validate.OwnLayoutPasses | crates/krio-async/src/lib.rs:438-631 | The layout of a suspending function, without slot overflow, passes exactly if no site's list names a local twice. |
| Validate.EmptyLayoutFails | crates/krio-async/src/lib.rs:450-458 | The all-empty layout of a function that does not suspend is rejected by the count check. |
| RoundRobin.EachStepsOnce | crates/krio-runtime/src/lib.rs:95-102 | In a round each task takes exactly one step, in the world its elders left, hands on the world its step made, and exactly the completed ones are listed, in ascending order. |
| RoundRobin.SwapRemoveDrops | crates/krio-runtime/src/lib.rs:103-105 | `swap_remove` drops one element, keeps the earlier ones in place and the later ones as a multiset. |
| RoundRobin.RemoveAllKeepsSurvivors | crates/krio-runtime/src/lib.rs:95-105 | Removing in reverse order drops exactly the listed elements and keeps the rest as a multiset. |
| RoundRobin.TickGoesDown | crates/krio-runtime/src/lib.rs:91-107 | If every task has finitely many steps, a round brings every survivor closer to its end. |
| RoundRobin.AllFinish | crates/krio-runtime/src/lib.rs:52-56 | After as many rounds as the longest task has steps nothing is left. |
| RoundRobin.RoundRobin.Spawn | crates/krio-runtime/src/lib.rs:87-89 | Appends the task. |
| RoundRobin.RoundRobin.StepEach | crates/krio-runtime/src/lib.rs:97-102 | Steps every task in place once and lists the completed ones. |
| RoundRobin.RoundRobin.RemoveListed | crates/krio-runtime/src/lib.rs:103-105 | Removes the listed tasks, last first. |
| RoundRobin.RoundRobin.Tick | crates/krio-runtime/src/lib.rs:91-107 | Steps every task once, keeps exactly the uncompleted ones, and says whether any is left. |
| RoundRobin.RoundRobin.RunToCompletion | crates/krio-runtime/src/lib.rs:52-56 | Ends, with no task left, after at most one more round than the longest task has steps. |
| RoundRobin.RoundRobin.TaskCount | crates/krio-runtime/src/lib.rs:109-111 | The number of tasks held. |

## Left out

- Weak memory: all protocols are proved under sequential consistency, with every load, store and compare-and-swap one atomic step; a stale thief's slot read is one step too.
- Words.WrapSub: index arithmetic is on integers with an explicit wrap to a width of any number of bits, not on machine words.
- DequeWords.WordsRefine: assumes that no steal claims a positive whole number of turns of the index space late; LateClaimDuplicates is what goes wrong otherwise.
- DequeWords.WrappedDequeLinearizable: assumes the same.
- DequeWords.ThiefSimulates: assumes the same of the claim it is about.
- Deque.Deque.WithCapacity: asks for a capacity of at most a quarter of the index space, since at half of it a full deque's length has no word, and takes the counters' starting value as a parameter where the code starts at zero.
- Barrier.StopTheWorldIsSafe: states runs without shutdown, since `shutdown` releases the barrier in the middle of a stop; liveness of the barrier under every schedule is not claimed, only what each part does when left alone and that collections come about (Arrivals), because an idle worker arrives only if its `park` returns.
- Sleep.StepKeepsInv: a main agent that finds its own deque full spills to the injector; with the notification that follows a yield this is a spawner's step, without one, after an early wake, it is not modelled.
- Notices.RunIsLeft: asks that the worker's tasks do not spawn onto its own deque after the shutdown, since a task that does so for ever is never out of its step.
- Sleep.ShutdownLeavesNoSleeper: the stop-the-world barrier is not part of the sleep model, and the barrier's own words are not part of `shutdown` there.
- Sleep.SomeoneIsAwake: jobs are counted, not named, in this model; `Jobs` names them.
- Jobs.EveryJobInOnePlace: deques, injector and registry are single steps here; each deque runs the sequential deque that its own accesses are linearized to (DequesRunTheSpec), but there is no machine of the whole cluster at the level of single accesses. Ids are minted at most 2^64 - 1 times; IdsDistinctIff says what happens beyond.
- Spawning onto another agent's deque from outside, which the code calls the caller's error; spawn hooks, clocks and the frame budget, whose early exits are a free choice of the model; migration callbacks; the inside of the injector's spin lock.
- Regions.BodyOf: coroutine bodies are those of well-formed regions (`RegionOk`), the contract of `crates/krio-stackless/README.md:277-287`; what the transform does to other input is not modelled.
- Transform.TransformRegion: asks for fewer than 9999 suspensions per coroutine, since state 9999 means done.
- PriorityRuns.PriorityReportIsSound: like ReportIsSound, assumes that guard readiness changes only through channel operations and that the source has no recv outside a guard.
- Nesting.NestingKept: the contract lets no code outside a region, not even code that is never reached, lead into its coroutines, and lets a region lie inside another only within one coroutine.
- Rounds.RunWith: meaning is stated per round: each round's output runs as that round's input does, whose own meaning of the regions still to come is that of their markers, which do nothing; no meaning of the whole body with all its regions at once is defined, which would have to say that a send in a region inside a coroutine suspends that coroutine too (SendsSuspendAgain). The list of exits the waker executor collects is left to its caller.
- AsyncSim.EveryStepIsMatched: assumes the host's liveness lists cover what is read later (`CoversLive`), which the crate asks of the host; callees are opaque, started and polled to completion; a frame holds at most one callee at a time.
- AsyncRuns.KindOfCut: the model's host goes from a call straight to its resume check; one that returns `Pending` in between dispatches to the same check.
- AsyncLayout.Transform: the scan is already in the order the code sorts into, so the sort does nothing in the model.
- Validate.ValidateLayout: the map of seen slots is a set; block identifiers are numbers.
- RoundRobin.RoundRobin.RunToCompletion: a task is a value stepped by a function that also sees and changes a shared world; a task that never finishes is outside the method's precondition.
- Native fibers (stacks, context switch, trampolines, panics), preemption by clock, browser and worker plumbing, and the examples are not modelled.
