/** Going to sleep and being woken. */
module Sleep {
  // How an idle agent of krio-parallel goes to sleep, and how it is woken.
  //
  // `run` publishes PARKED, looks for work once more, and sleeps; whoever adds work then scans
  // the parking slots and moves one agent out of PARKED. Every load, store, compare-and-swap,
  // queue operation, park and unpark of `run`, `drive_once`, `notify_one`, `spawn`, `wake` and
  // `shutdown` is one step. Queues are counted, not listed: which job runs is the concern of
  // the module Jobs.

  const RUNNING: nat := 0
  const PARKED: nat := 1
  const NOTIFIED: nat := 2

  /** A worker in `run`. `ran` is what `drive_once` has stepped so far in this pass. */
  datatype Pc =
    | Out                          // not in `run`
    | Top                          // head of the loop, barrier checks behind it
    | DriveStart                   // about to load `stopping`
    | PopOwn(ran: nat)
    | PopInjector(ran: nat)
    | Rotor(ran: nat)              // about to draw the first victim
    | Steal(ran: nat, start: nat, k: nat)
    | InTask(ran: nat)
    | Deposit(ran: nat, notify: bool)  // about to push the job back on its own deque
    | Spill(ran: nat, notify: bool)    // deque full, about to push to the injector
    | Surplus(ran: nat)            // about to load the deque's length
    | SpawnSpill(ran: nat)         // spawned mid-step with its deque full, about to push to the injector
    | Scan(ran: nat, k: nat, midStep: bool)    // notify_one, about to try slot k
    | Unpark(ran: nat, k: nat, midStep: bool)
    | StepEnd(ran: nat)            // about to load `stopping`
    | Publish                      // about to CAS its slot from RUNNING to PARKED
    | Consume                      // a notification came first, about to store RUNNING
    | RecheckStop                  // about to load `stopping`
    | RecheckInjector
    | RecheckDeque(k: nat)
    | Undo                         // found work or a stop, about to store RUNNING
    | Undone                       // about to load `stopping`
    | Park                         // about to compare-and-sleep on its slot
    | Asleep
    | Woke                         // about to store RUNNING
    | WokeCheck                    // about to load `stopping`

  /** A thread that spawns or wakes: pushes to the injector, then notifies. */
  datatype Notifier = Resting | Scanning(k: nat) | Unparking(k: nat)

  datatype Stopper = NotYet | Releasing | Storing(k: nat) | Waking(k: nat) | Finished

  datatype State = State(
    slots: seq<nat>, pcs: seq<Pc>,
    injector: nat, deques: seq<nat>,
    notifiers: seq<Notifier>,
    rotor: nat, stopping: bool, stopper: Stopper)

  /** What the environment decides: how a step ends, which end of a race wins. */
  datatype Choice = Yields | Completes | Blocks | Races | Spawns | SpawnsFull

  datatype Actor =
    | Worker(i: nat)
    | Outsider(j: nat)             // a notifier thread
    | Shutdown
    | Enters(i: nat)               // agent i calls `run`
    | MainTakes                    // an agent outside `run` takes from the injector
    | MainSteals(i: nat)           // or from a deque
    | MainPutsBack(i: nat)         // or pushes a job onto its own deque
    | MainNotifies(j: nat)         // or begins a scan, having left surplus there

  ghost predicate Shape(s: State) {
    && |s.slots| == |s.pcs| == |s.deques| && |s.pcs| > 0
    && (forall i :: 0 <= i < |s.pcs| ==> PcInRange(s.pcs[i], |s.pcs|))
    && (forall j :: 0 <= j < |s.notifiers| ==> NotifierInRange(s.notifiers[j], |s.pcs|))
    && (s.stopper.Storing? ==> s.stopper.k <= |s.pcs|)
    && (s.stopper.Waking? ==> s.stopper.k < |s.pcs|)
  }

  predicate PcInRange(pc: Pc, n: nat) {
    match pc
    case Steal(_, _, k) => k <= n
    case Scan(_, k, _) => k <= n
    case Unpark(_, k, _) => k < n
    case RecheckDeque(k) => k <= n
    case _ => true
  }

  predicate NotifierInRange(p: Notifier, n: nat) {
    match p
    case Resting => true
    case Scanning(k) => k <= n
    case Unparking(k) => k < n
  }

  // ── Steps ────────────────────────────────────────────────────────────

  function Wake(pcs: seq<Pc>, k: nat): (r: seq<Pc>)
    requires k < |pcs|
    ensures |r| == |pcs|
  {
    if pcs[k].Asleep? then pcs[k := Woke] else pcs
  }

  /** The end of a pass: `Idle` when nothing ran. */
  function PassOver(ran: nat): Pc { if ran == 0 then Publish else Top }

  /** The victim of attempt `k` of a steal round, or the thief itself when there is none. */
  function Victim(s: State, i: nat, c: Choice): (v: nat)
    requires Shape(s) && i < |s.pcs|
    ensures v < |s.pcs|
  {
    if s.pcs[i].Steal? && s.pcs[i].k < |s.pcs| && !c.Races?
    then (s.pcs[i].start + s.pcs[i].k) % |s.pcs| else i
  }

  /** The end of `notify_one`, back in the step that spawned or behind one that yielded. */
  function Notified(ran: nat, midStep: bool): Pc { if midStep then InTask(ran) else StepEnd(ran) }

  /** Where worker `i` stands after its next atomic access. */
  function WorkerPc(s: State, i: nat, c: Choice): Pc
    requires Shape(s) && i < |s.pcs|
  {
    var n := |s.pcs|;
    match s.pcs[i]
    case Out => Out
    case Top => DriveStart
    case DriveStart => if s.stopping then Out else PopOwn(0)
    case PopOwn(ran) => if s.deques[i] > 0 then InTask(ran) else PopInjector(ran)
    case PopInjector(ran) => if s.injector > 0 then InTask(ran) else Rotor(ran)
    case Rotor(ran) => if n > 1 then Steal(ran, s.rotor, 0) else PassOver(ran)
    case Steal(ran, start, k) =>
      if k >= n then PassOver(ran)
      else if Victim(s, i, c) != i && s.deques[Victim(s, i, c)] > 0 then InTask(ran)
      else Steal(ran, start, k + 1)
    case InTask(ran) =>
      (match c
       case Yields => Deposit(ran + 1, true)
       case Completes => StepEnd(ran + 1)
       case Blocks => StepEnd(ran + 1)                           // held by the wake registry
       case Races => Deposit(ran + 1, false)                     // handed straight back
       case Spawns => Scan(ran, 0, true)                         // spawned onto its own deque
       case SpawnsFull => SpawnSpill(ran))
    case Deposit(ran, notify) =>
      if c.Races? then Spill(ran, notify) else if notify then Surplus(ran) else StepEnd(ran)
    case Spill(ran, notify) => if notify then Surplus(ran) else StepEnd(ran)
    case Surplus(ran) => if s.deques[i] > 1 then Scan(ran, 0, false) else StepEnd(ran)
    case SpawnSpill(ran) => Scan(ran, 0, true)
    case Scan(ran, k, mid) =>
      if k >= n then Notified(ran, mid)
      else if s.slots[k] == PARKED then Unpark(ran, k, mid) else Scan(ran, k + 1, mid)
    case Unpark(ran, _, mid) => Notified(ran, mid)
    case StepEnd(ran) => if s.stopping then Out else PopOwn(ran)
    case Publish => if s.slots[i] == RUNNING then RecheckStop else Consume
    case Consume => Top
    case RecheckStop => if s.stopping then Undo else RecheckInjector
    case RecheckInjector => if s.injector > 0 then Undo else RecheckDeque(0)
    case RecheckDeque(k) =>
      if k >= n then Park else if s.deques[k] > 0 then Undo else RecheckDeque(k + 1)
    case Undo => Undone
    case Undone => if s.stopping then Out else Top
    case Park => if s.slots[i] == PARKED then Asleep else Woke
    case Asleep => Woke                                          // a spurious wake
    case Woke => WokeCheck
    case WokeCheck => if s.stopping then Out else Top
  }

  /** The parking slots after the access. */
  function WorkerSlots(s: State, i: nat): (r: seq<nat>)
    requires Shape(s) && i < |s.pcs|
    ensures |r| == |s.slots|
  {
    match s.pcs[i]
    case Scan(_, k, _) => if k < |s.slots| && s.slots[k] == PARKED then s.slots[k := NOTIFIED] else s.slots
    case Publish => if s.slots[i] == RUNNING then s.slots[i := PARKED] else s.slots
    case Consume => s.slots[i := RUNNING]
    case Undo => s.slots[i := RUNNING]
    case Woke => s.slots[i := RUNNING]
    case _ => s.slots
  }

  /** The deques after the access. */
  function WorkerDeques(s: State, i: nat, c: Choice): (r: seq<nat>)
    requires Shape(s) && i < |s.pcs|
    ensures |r| == |s.deques|
  {
    match s.pcs[i]
    case PopOwn(_) => if s.deques[i] > 0 then s.deques[i := s.deques[i] - 1] else s.deques
    case Steal(_, _, _) =>
      var v := Victim(s, i, c);
      if v != i && s.deques[v] > 0 then s.deques[v := s.deques[v] - 1] else s.deques
    case Deposit(_, _) => if c.Races? then s.deques else s.deques[i := s.deques[i] + 1]
    case InTask(_) => if c.Spawns? then s.deques[i := s.deques[i] + 1] else s.deques
    case _ => s.deques
  }

  function WorkerInjector(s: State, i: nat): nat
    requires Shape(s) && i < |s.pcs|
  {
    match s.pcs[i]
    case PopInjector(_) => if s.injector > 0 then s.injector - 1 else 0
    case Spill(_, _) => s.injector + 1
    case SpawnSpill(_) => s.injector + 1
    case _ => s.injector
  }

  /** One atomic access of worker `i`. */
  function WorkerStep(s: State, i: nat, c: Choice): State
    requires Shape(s) && i < |s.pcs|
  {
    var pcs := s.pcs[i := WorkerPc(s, i, c)];
    s.(pcs := if s.pcs[i].Unpark? && s.pcs[i].k < |s.pcs| then Wake(pcs, s.pcs[i].k) else pcs,
       slots := WorkerSlots(s, i),
       deques := WorkerDeques(s, i, c),
       injector := WorkerInjector(s, i),
       rotor := if s.pcs[i].Rotor? && |s.pcs| > 1 then (s.rotor + 1) % 0x1_0000_0000 else s.rotor)
  }

  /** One atomic access of a thread that spawns or wakes. */
  function NotifierStep(s: State, j: nat): State
    requires Shape(s) && j < |s.notifiers|
  {
    match s.notifiers[j]
    case Resting => s.(injector := s.injector + 1, notifiers := s.notifiers[j := Scanning(0)])
    case Scanning(k) =>
      if k == |s.pcs| then s.(notifiers := s.notifiers[j := Resting])
      else if s.slots[k] == PARKED
      then s.(slots := s.slots[k := NOTIFIED], notifiers := s.notifiers[j := Unparking(k)])
      else s.(notifiers := s.notifiers[j := Scanning(k + 1)])
    case Unparking(k) => s.(pcs := Wake(s.pcs, k), notifiers := s.notifiers[j := Resting])
  }

  function StopperStep(s: State): State
    requires Shape(s)
  {
    match s.stopper
    case NotYet => s.(stopping := true, stopper := Releasing)
    case Releasing => s.(stopper := Storing(0))                  // lets the barrier go
    case Storing(k) =>
      if k == |s.pcs| then s.(stopper := Finished)
      else s.(slots := s.slots[k := NOTIFIED], stopper := Waking(k))
    case Waking(k) => s.(pcs := Wake(s.pcs, k), stopper := Storing(k + 1))
    case Finished => s
  }

  function Step(s: State, a: Actor, c: Choice): State
    requires Shape(s)
  {
    match a
    case Worker(i) => if i < |s.pcs| then WorkerStep(s, i, c) else s
    case Outsider(j) => if j < |s.notifiers| then NotifierStep(s, j) else s
    case Shutdown => StopperStep(s)
    case Enters(i) => if i < |s.pcs| && s.pcs[i].Out? then s.(pcs := s.pcs[i := Top]) else s
    case MainTakes => if s.injector > 0 then s.(injector := s.injector - 1) else s
    case MainSteals(i) =>
      if i < |s.deques| && s.deques[i] > 0 then s.(deques := s.deques[i := s.deques[i] - 1]) else s
    case MainPutsBack(i) => if i < |s.pcs| && s.pcs[i].Out? then s.(deques := s.deques[i := s.deques[i] + 1]) else s
    case MainNotifies(j) =>
      if j < |s.notifiers| && s.notifiers[j].Resting? then s.(notifiers := s.notifiers[j := Scanning(0)]) else s
  }

  ghost predicate Init(s: State) {
    && Shape(s)
    && (forall i :: 0 <= i < |s.pcs| ==> s.pcs[i] == Out && s.slots[i] == RUNNING && s.deques[i] == 0)
    && (forall j :: 0 <= j < |s.notifiers| ==> s.notifiers[j] == Resting)
    && s.injector == 0 && !s.stopping && s.stopper == NotYet
  }

  // ── The invariant ────────────────────────────────────────────────────

  /** Its slot belongs to a sleep it has begun and not yet undone. */
  predicate Committed(pc: Pc) {
    pc.RecheckStop? || pc.RecheckInjector? || pc.RecheckDeque? || pc.Undo? || pc.Park? || pc.Asleep? || pc.Woke?
  }

  /** Has looked at the injector since publishing PARKED, and found nothing. */
  predicate SawNothing(pc: Pc) { pc.RecheckDeque? || pc.Park? || pc.Asleep? }

  /** Went looking for work in this pass and found its own deque empty. */
  predicate OwnDequeEmpty(pc: Pc) {
    Committed(pc) || pc.Publish? || ((pc.PopInjector? || pc.Rotor? || pc.Steal?) && pc.ran == 0)
  }

  ghost predicate SlotOk(pc: Pc, slot: nat) {
    slot <= NOTIFIED && (Committed(pc) ==> slot != RUNNING) && (!Committed(pc) ==> slot != PARKED)
  }

  ghost predicate SlotsOk(s: State)
    requires Shape(s)
  {
    forall i :: 0 <= i < |s.pcs| ==>
      SlotOk(s.pcs[i], s.slots[i]) && (OwnDequeEmpty(s.pcs[i]) ==> s.deques[i] == 0)
  }

  /** Asleep or as good as asleep: nothing but a notification of its slot keeps it up. */
  ghost predicate Gone(s: State, i: nat)
    requires Shape(s) && i < |s.pcs|
  {
    SawNothing(s.pcs[i]) && s.slots[i] == PARKED
  }

  ghost predicate AllGone(s: State)
    requires Shape(s)
  {
    && (exists i :: 0 <= i < |s.pcs| && !s.pcs[i].Out?)
    && (forall i :: 0 <= i < |s.pcs| && !s.pcs[i].Out? ==> Gone(s, i))
  }

  /** A notifier whose scan has not yet passed any agent in `run`. */
  ghost predicate WillFindOne(s: State, j: nat)
    requires Shape(s) && j < |s.notifiers|
  {
    s.notifiers[j].Scanning? && forall i :: 0 <= i < s.notifiers[j].k ==> s.pcs[i].Out?
  }

  ghost predicate HelpIsComing(s: State)
    requires Shape(s)
  {
    exists j :: 0 <= j < |s.notifiers| && WillFindOne(s, j)
  }

  ghost predicate NoLostWakeup(s: State)
    requires Shape(s)
  {
    !s.stopping && s.injector > 0 && AllGone(s) ==> HelpIsComing(s)
  }

  /** Somebody is about to unpark agent `k`. */
  ghost predicate WakeComing(s: State, k: nat) {
    || (exists j :: 0 <= j < |s.notifiers| && s.notifiers[j] == Unparking(k))
    || (exists i :: 0 <= i < |s.pcs| && s.pcs[i].Unpark? && s.pcs[i].k == k)
    || s.stopper == Waking(k)
  }

  ghost predicate NotifiedWake(s: State)
    requires Shape(s)
  {
    forall i :: 0 <= i < |s.pcs| && s.pcs[i].Asleep? && s.slots[i] == NOTIFIED ==> WakeComing(s, i)
  }

  /** How far shutdown has come. */
  function Stored(s: State): int {
    match s.stopper
    case Storing(k) => k
    case Waking(k) => k + 1
    case Finished => |s.pcs|
    case _ => 0
  }

  function Waked(s: State): int {
    match s.stopper
    case Storing(k) => k
    case Waking(k) => k
    case Finished => |s.pcs|
    case _ => 0
  }

  /** A worker that shutdown has passed can only be on its way out. */
  ghost predicate StopOk(s: State)
    requires Shape(s)
  {
    && (s.stopping <==> !s.stopper.NotYet?)
    && (forall i :: 0 <= i < |s.pcs| && i < Stored(s) && (SawNothing(s.pcs[i]) || s.pcs[i].RecheckInjector?) ==>
          s.slots[i] == NOTIFIED)
    && (forall i :: 0 <= i < |s.pcs| && i < Waked(s) ==> !s.pcs[i].Asleep?)
  }

  ghost predicate Inv(s: State) {
    Shape(s) && SlotsOk(s) && NoLostWakeup(s) && NotifiedWake(s) && StopOk(s)
  }

  lemma InitInv(s: State)
    requires Init(s)
    ensures Inv(s)
  {
  }

  // ── Preservation: workers ────────────────────────────────────────────

  lemma WorkerPcInRange(s: State, i: nat, c: Choice)
    requires Shape(s) && i < |s.pcs|
    ensures PcInRange(WorkerPc(s, i, c), |s.pcs|)
  {
    assert PcInRange(s.pcs[i], |s.pcs|);
  }

  lemma WorkerShape(s: State, i: nat, c: Choice)
    requires Shape(s) && i < |s.pcs|
    ensures Shape(WorkerStep(s, i, c))
  {
    WorkerPcInRange(s, i, c);
    hide WorkerPc;
    hide WorkerSlots;
    hide WorkerDeques;
    hide WorkerInjector;
  }

  /** Others move only by being woken. */
  lemma OthersStay(s: State, i: nat, c: Choice)
    requires Shape(s) && i < |s.pcs|
    ensures var s' := WorkerStep(s, i, c);
            && |s'.pcs| == |s.pcs| && (s'.pcs[i] == WorkerPc(s, i, c))
            && s'.notifiers == s.notifiers && s'.stopping == s.stopping && s'.stopper == s.stopper
            && (forall j :: 0 <= j < |s.pcs| && j != i ==>
                  s'.pcs[j] == s.pcs[j] || (s.pcs[j] == Asleep && s'.pcs[j] == Woke))
  {
    hide WorkerSlots;
    hide WorkerDeques;
    hide WorkerInjector;
  }

  /** Only a worker's own slot changes, or the one being notified. */
  lemma OtherSlotsStay(s: State, i: nat)
    requires Shape(s) && i < |s.pcs|
    ensures var r := WorkerSlots(s, i);
            forall j :: 0 <= j < |s.slots| && j != i ==>
              r[j] == s.slots[j] || (s.slots[j] == PARKED && r[j] == NOTIFIED)
  {
  }

  lemma OtherDequesShrink(s: State, i: nat, c: Choice)
    requires Shape(s) && i < |s.pcs|
    ensures var r := WorkerDeques(s, i, c);
            forall j :: 0 <= j < |s.slots| && j != i ==> r[j] <= s.deques[j]
  {
  }

  lemma OwnSlotOk(s: State, i: nat, c: Choice)
    requires Shape(s) && SlotsOk(s) && i < |s.pcs|
    ensures SlotOk(WorkerPc(s, i, c), WorkerSlots(s, i)[i])
    ensures OwnDequeEmpty(WorkerPc(s, i, c)) ==> WorkerDeques(s, i, c)[i] == 0
  {
    hide Victim, WorkerPc, WorkerSlots, WorkerDeques, SlotsOk, SlotOk, OwnDequeEmpty;
    OwnSlotMoves(s, i, c);
    OwnDequeStaysEmpty(s, i, c);
  }

  lemma OwnSlotMoves(s: State, i: nat, c: Choice)
    requires Shape(s) && SlotsOk(s) && i < |s.pcs|
    ensures SlotOk(WorkerPc(s, i, c), WorkerSlots(s, i)[i])
  {
    hide Victim;
    assert SlotOk(s.pcs[i], s.slots[i]);
    assert PcInRange(s.pcs[i], |s.pcs|);
    hide SlotsOk, Shape;
  }

  /** Whoever has found its own deque empty has just done so or had done before. */
  lemma FoundEmpty(s: State, i: nat, c: Choice)
    requires Shape(s) && i < |s.pcs| && OwnDequeEmpty(WorkerPc(s, i, c))
    ensures OwnDequeEmpty(s.pcs[i]) || (s.pcs[i].PopOwn? && s.deques[i] == 0)
  {
    hide Victim;
    assert PcInRange(s.pcs[i], |s.pcs|);
    hide Shape;
  }

  lemma AddsOnlyAtWork(s: State, i: nat, c: Choice)
    requires Shape(s) && i < |s.pcs| && (OwnDequeEmpty(s.pcs[i]) || s.pcs[i].PopOwn?)
    ensures WorkerDeques(s, i, c)[i] <= s.deques[i]
  {
  }

  lemma OwnDequeStaysEmpty(s: State, i: nat, c: Choice)
    requires Shape(s) && SlotsOk(s) && i < |s.pcs|
    ensures OwnDequeEmpty(WorkerPc(s, i, c)) ==> WorkerDeques(s, i, c)[i] == 0
  {
    hide Victim, WorkerPc, WorkerDeques, OwnDequeEmpty;
    assert OwnDequeEmpty(s.pcs[i]) ==> s.deques[i] == 0;
    if OwnDequeEmpty(WorkerPc(s, i, c)) {
      FoundEmpty(s, i, c);
      AddsOnlyAtWork(s, i, c);
    }
  }

  lemma WorkerSlotsKept(s: State, i: nat, c: Choice)
    requires Inv(s) && i < |s.pcs|
    ensures Shape(WorkerStep(s, i, c)) && SlotsOk(WorkerStep(s, i, c))
  {
    hide NoLostWakeup;
    hide NotifiedWake;
    hide StopOk;
    hide WorkerPc;
    hide WorkerSlots;
    hide WorkerDeques;
    hide WorkerInjector;
    WorkerShape(s, i, c);
    OthersStay(s, i, c);
    OtherSlotsStay(s, i);
    OtherDequesShrink(s, i, c);
    OwnSlotOk(s, i, c);
    var s' := WorkerStep(s, i, c);
    forall j | 0 <= j < |s'.pcs|
      ensures SlotOk(s'.pcs[j], s'.slots[j]) && (OwnDequeEmpty(s'.pcs[j]) ==> s'.deques[j] == 0)
    {
      assert SlotOk(s.pcs[j], s.slots[j]);
    }
  }

  /** A worker's own step leaves it gone only if it was gone, or if it saw the injector
      empty just now. */
  lemma GoneStaysGone(s: State, i: nat, c: Choice)
    requires Shape(s) && SlotsOk(s) && i < |s.pcs| && !s.stopping
    requires SawNothing(WorkerPc(s, i, c)) && WorkerSlots(s, i)[i] == PARKED && WorkerInjector(s, i) > 0
    ensures Gone(s, i) && WorkerInjector(s, i) == s.injector
  {
    assert SlotOk(s.pcs[i], s.slots[i]);
  }

  /** A worker does not leave `run` unless a stop was asked for. */
  lemma NoneLeaves(s: State, i: nat, c: Choice)
    requires Shape(s) && i < |s.pcs| && !s.stopping
    ensures WorkerPc(s, i, c).Out? <==> s.pcs[i].Out?
  {
  }

  lemma WorkerWakeupKept(s: State, i: nat, c: Choice)
    requires Inv(s) && i < |s.pcs| && Shape(WorkerStep(s, i, c))
    ensures NoLostWakeup(WorkerStep(s, i, c))
  {
    hide NotifiedWake;
    hide StopOk;
    hide WorkerPc;
    hide WorkerSlots;
    hide WorkerDeques;
    hide WorkerInjector;
    var s' := WorkerStep(s, i, c);
    if !s'.stopping && s'.injector > 0 && AllGone(s') {
      OthersStay(s, i, c);
      OtherSlotsStay(s, i);
      NoneLeaves(s, i, c);
      forall j | 0 <= j < |s.pcs| && !s.pcs[j].Out?
        ensures Gone(s, j)
      {
        assert Gone(s', j);
        if j == i {
          GoneStaysGone(s, i, c);
        }
      }
      var w :| 0 <= w < |s'.pcs| && !s'.pcs[w].Out?;
      assert !s.pcs[w].Out?;
      assert s.injector > 0 by {
        if !s.pcs[i].Out? {
          assert Gone(s', i);
          GoneStaysGone(s, i, c);
        } else {
          OutIsStill(s, i, c);
        }
      }
      var j :| 0 <= j < |s.notifiers| && WillFindOne(s, j);
      assert WillFindOne(s', j);
    }
  }

  lemma OutIsStill(s: State, i: nat, c: Choice)
    requires Shape(s) && i < |s.pcs| && s.pcs[i].Out?
    ensures WorkerInjector(s, i) == s.injector
  {
  }

  /** A worker found asleep after its own access has not been notified. */
  lemma FallsAsleepParked(s: State, i: nat, c: Choice)
    requires Shape(s) && i < |s.pcs|
    ensures WorkerPc(s, i, c).Asleep? ==> WorkerSlots(s, i)[i] == PARKED
  {
    hide Victim;
  }

  lemma WorkerNotifiedKept(s: State, i: nat, c: Choice)
    requires Inv(s) && i < |s.pcs| && Shape(WorkerStep(s, i, c))
    ensures NotifiedWake(WorkerStep(s, i, c))
  {
    hide NoLostWakeup;
    hide StopOk;
    hide WorkerDeques;
    hide WorkerInjector;
    var s' := WorkerStep(s, i, c);
    OthersStay(s, i, c);
    OtherSlotsStay(s, i);
    forall j | 0 <= j < |s'.pcs| && s'.pcs[j].Asleep? && s'.slots[j] == NOTIFIED
      ensures WakeComing(s', j)
    {
      if j == i {
        FallsAsleepParked(s, i, c);
      } else if s.slots[j] == NOTIFIED {
        WakeStillComing(s, i, c, j);
      } else {
        assert s.pcs[i].Scan? && s.pcs[i].k == j;
        assert s'.pcs[i] == Unpark(s.pcs[i].ran, j, s.pcs[i].midStep);
      }
    }
  }

  lemma WakeStillComing(s: State, i: nat, c: Choice, j: nat)
    requires Inv(s) && i < |s.pcs| && j < |s.pcs| && j != i && s.slots[j] == NOTIFIED
    requires s.pcs[j].Asleep? && WorkerStep(s, i, c).pcs[j].Asleep?
    ensures WakeComing(WorkerStep(s, i, c), j)
  {
    hide NoLostWakeup;
    hide StopOk;
    hide WorkerDeques;
    hide WorkerInjector;
    hide WorkerSlots;
    hide WorkerPc;
    var s' := WorkerStep(s, i, c);
    OthersStay(s, i, c);
    assert WakeComing(s, j);
    if h :| 0 <= h < |s.pcs| && s.pcs[h].Unpark? && s.pcs[h].k == j {
      if h != i {
        assert s'.pcs[h] == s.pcs[h];
      }
    }
  }

  lemma OwnStopOk(s: State, i: nat, c: Choice)
    requires Shape(s) && SlotsOk(s) && StopOk(s) && i < |s.pcs|
    ensures i < Stored(s) && (SawNothing(WorkerPc(s, i, c)) || WorkerPc(s, i, c).RecheckInjector?) ==>
              WorkerSlots(s, i)[i] == NOTIFIED
    ensures i < Waked(s) ==> !WorkerPc(s, i, c).Asleep?
  {
    assert SlotOk(s.pcs[i], s.slots[i]);
    assert PcInRange(s.pcs[i], |s.pcs|);
  }

  lemma WorkerStopKept(s: State, i: nat, c: Choice)
    requires Inv(s) && i < |s.pcs| && Shape(WorkerStep(s, i, c))
    ensures StopOk(WorkerStep(s, i, c))
  {
    hide NoLostWakeup;
    hide NotifiedWake;
    hide WorkerPc;
    hide WorkerSlots;
    hide WorkerDeques;
    hide WorkerInjector;
    OthersStay(s, i, c);
    OtherSlotsStay(s, i);
    OwnStopOk(s, i, c);
  }

  // ── Preservation: everyone else ──────────────────────────────────────

  lemma NotifierKept(s: State, j: nat)
    requires Inv(s) && j < |s.notifiers|
    ensures Inv(NotifierStep(s, j))
  {
    NotifierSlotsKept(s, j);
    NotifierWakeupKept(s, j);
    NotifierNotifiedKept(s, j);
    NotifierStopKept(s, j);
    hide NoLostWakeup;
    hide NotifiedWake;
  }

  lemma NotifierSlotsKept(s: State, j: nat)
    requires Inv(s) && j < |s.notifiers|
    ensures Shape(NotifierStep(s, j)) && SlotsOk(NotifierStep(s, j))
  {
    hide NoLostWakeup;
    hide NotifiedWake;
    hide StopOk;
    assert NotifierInRange(s.notifiers[j], |s.pcs|);
    var s' := NotifierStep(s, j);
    forall i | 0 <= i < |s'.pcs|
      ensures SlotOk(s'.pcs[i], s'.slots[i]) && (OwnDequeEmpty(s'.pcs[i]) ==> s'.deques[i] == 0)
    {
      assert SlotOk(s.pcs[i], s.slots[i]);
    }
  }

  /** A push makes its own notifier the one that is coming; a scan that finds a sleeper
      leaves not everyone gone; a scan that does not find one has passed only agents
      outside `run`. */
  lemma NotifierWakeupKept(s: State, j: nat)
    requires Inv(s) && j < |s.notifiers| && Shape(NotifierStep(s, j))
    ensures NoLostWakeup(NotifierStep(s, j))
  {
    hide NotifiedWake;
    hide StopOk;
    var s' := NotifierStep(s, j);
    if !s'.stopping && s'.injector > 0 && AllGone(s') {
      match s.notifiers[j]
      case Resting => assert WillFindOne(s', j);
      case Scanning(k) => ScanKeepsPromise(s, j);
      case Unparking(k) =>
        assert forall i :: 0 <= i < |s.pcs| && !s.pcs[i].Out? && Gone(s', i) ==> Gone(s, i);
        assert AllGone(s);
        var h :| 0 <= h < |s.notifiers| && WillFindOne(s, h);
        assert WillFindOne(s', h);
    }
  }

  lemma ScanKeepsPromise(s: State, j: nat)
    requires Inv(s) && j < |s.notifiers| && s.notifiers[j].Scanning? && Shape(NotifierStep(s, j))
    requires var s' := NotifierStep(s, j); !s'.stopping && s'.injector > 0 && AllGone(s')
    ensures HelpIsComing(NotifierStep(s, j))
  {
    hide NotifiedWake;
    hide StopOk;
    var k := s.notifiers[j].k;
    var s' := NotifierStep(s, j);
    assert NotifierInRange(s.notifiers[j], |s.pcs|);
    assert forall i :: 0 <= i < |s.pcs| && Gone(s', i) ==> Gone(s, i);
    assert AllGone(s);
    var h :| 0 <= h < |s.notifiers| && WillFindOne(s, h);
    assert WillFindOne(s', h) by {
      if h == j && k < |s.pcs| {
        assert SlotOk(s.pcs[k], s.slots[k]);
      }
    }
  }

  lemma NotifierStopKept(s: State, j: nat)
    requires Inv(s) && j < |s.notifiers| && Shape(NotifierStep(s, j))
    ensures StopOk(NotifierStep(s, j))
  {
    hide NoLostWakeup;
    hide NotifiedWake;
    hide SlotsOk;
  }

  lemma NotifierNotifiedKept(s: State, j: nat)
    requires Inv(s) && j < |s.notifiers| && Shape(NotifierStep(s, j))
    ensures NotifiedWake(NotifierStep(s, j))
  {
    hide NoLostWakeup;
    hide StopOk;
    var s' := NotifierStep(s, j);
    forall i | 0 <= i < |s'.pcs| && s'.pcs[i].Asleep? && s'.slots[i] == NOTIFIED
      ensures WakeComing(s', i)
    {
      if s.slots[i] == NOTIFIED {
        assert WakeComing(s, i);
        if h :| 0 <= h < |s.notifiers| && s.notifiers[h] == Unparking(i) {
          assert s'.notifiers[h] == Unparking(i);
        } else if h :| 0 <= h < |s.pcs| && s.pcs[h].Unpark? && s.pcs[h].k == i {
          assert s'.pcs[h] == s.pcs[h];
        }
      } else {
        assert s'.notifiers[j] == Unparking(i);
      }
    }
  }

  lemma StopperKept(s: State)
    requires Inv(s)
    ensures Inv(StopperStep(s))
  {
    StopperSlotsKept(s);
    StopperStopKept(s);
    StopperNotifiedKept(s);
    hide NotifiedWake;
    hide SlotsOk;
  }

  lemma StopperSlotsKept(s: State)
    requires Inv(s)
    ensures Shape(StopperStep(s)) && SlotsOk(StopperStep(s))
  {
    hide NoLostWakeup;
    hide NotifiedWake;
    var s' := StopperStep(s);
    forall i | 0 <= i < |s'.pcs|
      ensures SlotOk(s'.pcs[i], s'.slots[i]) && (OwnDequeEmpty(s'.pcs[i]) ==> s'.deques[i] == 0)
    {
      assert SlotOk(s.pcs[i], s.slots[i]);
    }
  }

  lemma StopperStopKept(s: State)
    requires Inv(s) && Shape(StopperStep(s))
    ensures StopOk(StopperStep(s)) && NoLostWakeup(StopperStep(s))
  {
    hide NotifiedWake;
    hide SlotsOk;
  }

  lemma StopperNotifiedKept(s: State)
    requires Inv(s) && Shape(StopperStep(s))
    ensures NotifiedWake(StopperStep(s))
  {
    hide NoLostWakeup;
    hide SlotsOk;
    var s' := StopperStep(s);
    forall i | 0 <= i < |s'.pcs| && s'.pcs[i].Asleep? && s'.slots[i] == NOTIFIED
      ensures WakeComing(s', i)
    {
      if s.slots[i] == NOTIFIED && s.pcs[i].Asleep? {
        assert WakeComing(s, i);
        if h :| 0 <= h < |s.notifiers| && s.notifiers[h] == Unparking(i) {
          assert s'.notifiers[h] == Unparking(i);
        } else if h :| 0 <= h < |s.pcs| && s.pcs[h].Unpark? && s.pcs[h].k == i {
          assert s'.pcs[h] == s.pcs[h];
        }
      }
    }
  }

  /** The actions of agents outside `run`, or entering it. */
  predicate Aside(a: Actor) {
    !a.Worker? && !a.Outsider? && !a.Shutdown?
  }

  lemma OutsideSlotsKept(s: State, a: Actor, c: Choice)
    requires Inv(s) && Aside(a)
    ensures Shape(Step(s, a, c)) && SlotsOk(Step(s, a, c)) && StopOk(Step(s, a, c))
  {
    hide NoLostWakeup;
    hide NotifiedWake;
    var s' := Step(s, a, c);
    forall i | 0 <= i < |s'.pcs|
      ensures SlotOk(s'.pcs[i], s'.slots[i]) && (OwnDequeEmpty(s'.pcs[i]) ==> s'.deques[i] == 0)
    {
      assert SlotOk(s.pcs[i], s.slots[i]);
    }
  }

  lemma OutsideNotifiedKept(s: State, a: Actor, c: Choice)
    requires Inv(s) && Aside(a) && Shape(Step(s, a, c))
    ensures NotifiedWake(Step(s, a, c))
  {
    hide NoLostWakeup;
    hide StopOk;
    hide SlotsOk;
    var s' := Step(s, a, c);
    forall i | 0 <= i < |s'.pcs| && s'.pcs[i].Asleep? && s'.slots[i] == NOTIFIED
      ensures WakeComing(s', i)
    {
      assert WakeComing(s, i);
      if h :| 0 <= h < |s.pcs| && s.pcs[h].Unpark? && s.pcs[h].k == i {
        assert s'.pcs[h] == s.pcs[h];
      } else if h :| 0 <= h < |s.notifiers| && s.notifiers[h] == Unparking(i) {
        assert s'.notifiers[h] == Unparking(i);
      }
    }
  }

  /** Agents entering `run`, and agents outside it taking work and putting it back. */
  lemma OutsideKept(s: State, a: Actor, c: Choice)
    requires Inv(s) && Aside(a)
    ensures Inv(Step(s, a, c))
  {
    OutsideSlotsKept(s, a, c);
    OutsideNotifiedKept(s, a, c);
    hide SlotsOk;
    hide NotifiedWake;
    hide StopOk;
    var s' := Step(s, a, c);
    if !s'.stopping && s'.injector > 0 && AllGone(s') {
      OutsideKeepsPromise(s, a, c);
    }
  }

  lemma OutsideKeepsPromise(s: State, a: Actor, c: Choice)
    requires Inv(s) && Aside(a) && Shape(Step(s, a, c))
    requires var s' := Step(s, a, c); !s'.stopping && s'.injector > 0 && AllGone(s')
    ensures HelpIsComing(Step(s, a, c))
  {
    hide NotifiedWake;
    hide StopOk;
    hide SlotsOk;
    var s' := Step(s, a, c);
    forall i | 0 <= i < |s.pcs| && !s.pcs[i].Out?
      ensures Gone(s, i)
    {
      assert Gone(s', i);
    }
    var w :| 0 <= w < |s'.pcs| && !s'.pcs[w].Out?;
    assert Gone(s', w);
    assert !s.pcs[w].Out?;
    assert AllGone(s);
    var h :| 0 <= h < |s.notifiers| && WillFindOne(s, h);
    assert WillFindOne(s', h);
  }

  lemma StepKeepsInv(s: State, a: Actor, c: Choice)
    requires Inv(s)
    ensures Inv(Step(s, a, c))
  {
    hide SlotsOk;
    hide NoLostWakeup;
    hide NotifiedWake;
    hide StopOk;
    match a
    case Worker(i) =>
      if i < |s.pcs| {
        WorkerSlotsKept(s, i, c);
        WorkerWakeupKept(s, i, c);
        WorkerNotifiedKept(s, i, c);
        WorkerStopKept(s, i, c);
      }
    case Outsider(j) =>
      if j < |s.notifiers| {
        NotifierKept(s, j);
      }
    case Shutdown => StopperKept(s);
    case _ => OutsideKept(s, a, c);
  }

  // ── Whole runs ───────────────────────────────────────────────────────

  ghost predicate Next(s: State, s': State)
    requires Shape(s)
  {
    exists a: Actor, c: Choice :: s' == Step(s, a, c)
  }

  ghost predicate IsRun(run: seq<State>) {
    && |run| > 0 && Init(run[0])
    && (forall k :: 0 <= k < |run| ==> Shape(run[k]))
    && (forall k :: 0 <= k < |run| - 1 ==> Next(run[k], run[k + 1]))
  }

  lemma {:induction false} RunInv(run: seq<State>, k: nat)
    requires IsRun(run) && k < |run|
    ensures Inv(run[k])
  {
    hide Inv;
    hide Step;
    hide Init;
    if k == 0 {
      InitInv(run[0]);
    } else {
      RunInv(run, k - 1);
      assert Next(run[k - 1], run[k - 1 + 1]);
      var a: Actor, c: Choice :| run[k] == Step(run[k - 1], a, c);
      StepKeepsInv(run[k - 1], a, c);
    }
  }

  ghost predicate Runnable(s: State)
    requires Shape(s)
  {
    s.injector > 0 || exists i :: 0 <= i < |s.pcs| && !s.pcs[i].Out? && s.deques[i] > 0
  }

  ghost predicate AllAsleep(s: State) {
    && (forall i :: 0 <= i < |s.pcs| && !s.pcs[i].Out? ==> s.pcs[i].Asleep?)
    && (forall j :: 0 <= j < |s.notifiers| ==> s.notifiers[j].Resting?)
  }

  lemma SleepersAreGone(s: State)
    requires Inv(s) && !s.stopping && AllAsleep(s)
    ensures forall i :: 0 <= i < |s.pcs| && !s.pcs[i].Out? ==> Gone(s, i) && s.deques[i] == 0
  {
    hide NoLostWakeup;
    forall i | 0 <= i < |s.pcs| && !s.pcs[i].Out?
      ensures Gone(s, i) && s.deques[i] == 0
    {
      assert SlotOk(s.pcs[i], s.slots[i]);
      assert !WakeComing(s, i);
    }
  }

  lemma AllAsleepNothingRunnable(s: State)
    requires Inv(s) && !s.stopping && AllAsleep(s)
    requires exists i :: 0 <= i < |s.pcs| && !s.pcs[i].Out?
    ensures !Runnable(s)
  {
    SleepersAreGone(s);
    hide SlotsOk;
    hide NotifiedWake;
    hide StopOk;
    hide Gone;
    assert AllGone(s);
  }

  /** No lost wakeup. In every state of every run without a stop, if some agent is in
      `run`, some job waits in the injector or on a worker's deque, and no spawner or waker
      is between its push and the end of its scan, then not every worker is asleep. */
  lemma SomeoneIsAwake(run: seq<State>, k: nat)
    requires IsRun(run) && k < |run| && !run[k].stopping
    requires exists i :: 0 <= i < |run[k].pcs| && !run[k].pcs[i].Out?
    requires Runnable(run[k])
    requires forall j :: 0 <= j < |run[k].notifiers| ==> run[k].notifiers[j].Resting?
    ensures exists i :: 0 <= i < |run[k].pcs| && !run[k].pcs[i].Out? && !run[k].pcs[i].Asleep?
  {
    RunInv(run, k);
    hide IsRun;
    hide Inv;
    hide Runnable;
    if forall i :: 0 <= i < |run[k].pcs| && !run[k].pcs[i].Out? ==> run[k].pcs[i].Asleep? {
      AllAsleepNothingRunnable(run[k]);
    }
  }

  /** A worker that has been notified while asleep has someone on the way to wake it. */
  lemma NotifiedSleeperIsWoken(run: seq<State>, k: nat, i: nat)
    requires IsRun(run) && k < |run| && i < |run[k].pcs|
    requires run[k].pcs[i].Asleep? && run[k].slots[i] != PARKED
    ensures WakeComing(run[k], i)
  {
    RunInv(run, k);
    assert SlotOk(run[k].pcs[i], run[k].slots[i]);
  }

  /** Once `shutdown` has finished, no worker is asleep on its slot, and none that is about
      to park can fall asleep. */
  lemma ShutdownLeavesNoSleeper(run: seq<State>, k: nat, i: nat, c: Choice)
    requires IsRun(run) && k < |run| && run[k].stopper.Finished? && i < |run[k].pcs|
    ensures !run[k].pcs[i].Asleep? && !WorkerPc(run[k], i, c).Asleep?
  {
    RunInv(run, k);
  }
}
