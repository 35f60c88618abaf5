/** The per-connection task protocol: a read loop that spawns handler tasks into slots, the
    connection lock they take in FIFO order, the cancel command and the disconnect. */
module HandlerSlots {

  datatype Slot = Text | Media | Config

  // A created task has not run yet; a queued one waits for the lock; a running one holds it.
  datatype Phase = Created | Queued | Running | Finished

  // arrival numbers the command that spawned the task.
  datatype Task = Task(slot: Slot, arrival: nat, phase: Phase, cancelled: bool)

  datatype Owner = Free | ReaderHolds | TaskHolds(id: nat)

  datatype Waiter = ReaderWaits | TaskWaits(id: nat)

  // Where the read loop stands.
  datatype Reader =
    | Reading
    | AwaitingPrevious(slot: Slot, prev: nat, arrival: nat)  // spawn_handler_task, before create_task
    | Cancelling(rest: seq<Slot>)                            // the walk of handle_cancel_command
    | AwaitingCancelled(prev: nat, rest: seq<Slot>)          // its `await t`; rest includes the slot
    | Disconnecting(live: set<nat>)                          // the gather of handle_disconnect
    | QueuedForLock                                          // `segment` and `stop` take the lock
    | HoldingLock
    | Closed

  datatype State = State(
    tasks: seq<Task>,           // every task ever created, by creation order
    slots: map<Slot, nat>,      // conn_state["handler_tasks"]; no entry for None
    lock: Owner,
    queue: seq<Waiter>,
    reader: Reader,
    arrivals: nat,
    started: seq<nat>)          // tasks whose body has begun, in that order

  const CANCEL_SLOTS: seq<Slot> := [Text, Media, Config]

  const INITIAL: State := State([], map[], Free, [], Reading, 0, [])

  datatype Step =
    | Receive(slot: Slot, coalesce: bool)
    | Spawn                       // the awaited previous task is done
    | ReceiveCancel
    | CancelSlot                  // look at the next slot of the walk
    | CancelSlotDone              // the awaited cancelled task is done
    | CancelReturns
    | ReceiveDisconnect
    | DisconnectReturns
    | ReaderTakesLock
    | ReaderQueues
    | ReaderReleases
    | TaskTakesLock(id: nat)      // its first run finds the lock free
    | TaskQueues(id: nat)         // its first run finds it taken or others waiting
    | Grant                       // the lock is free and the first waiter gets it
    | TaskDropped(id: nat)        // a cancelled task that never got the lock
    | TaskFinishes(id: nat)       // the body returned, raised or gave in to its cancellation

  ghost predicate Unfinished(s: State, id: nat) { id < |s.tasks| && s.tasks[id].phase != Finished }

  // The unfinished task of a slot, as `prev and not prev.done()` finds it.
  ghost predicate Occupied(s: State, slot: Slot) { slot in s.slots && Unfinished(s, s.slots[slot]) }

  ghost predicate Fresh(s: State, id: nat) {
    id < |s.tasks| && s.tasks[id].phase == Created && !s.tasks[id].cancelled
  }

  // asyncio.Lock.acquire passes waiters that are all cancelled.
  ghost predicate OnlyCancelledWait(s: State) {
    forall w | w in s.queue :: w.TaskWaits? && w.id < |s.tasks| && s.tasks[w.id].cancelled
  }

  ghost predicate Enabled(s: State, step: Step) {
    match step
    case Receive(slot, coalesce) => s.reader == Reading
    case Spawn => s.reader.AwaitingPrevious? && !Unfinished(s, s.reader.prev)
    case ReceiveCancel => s.reader == Reading
    case CancelSlot => s.reader.Cancelling? && s.reader.rest != []
    case CancelSlotDone => s.reader.AwaitingCancelled? && s.reader.rest != [] && !Unfinished(s, s.reader.prev)
    case CancelReturns => s.reader == Cancelling([])
    case ReceiveDisconnect => s.reader == Reading
    case DisconnectReturns => s.reader.Disconnecting? && forall id | id in s.reader.live :: !Unfinished(s, id)
    case ReaderTakesLock => s.reader == Reading && s.lock == Free && OnlyCancelledWait(s)
    case ReaderQueues => s.reader == Reading && (s.lock != Free || s.queue != [])
    case ReaderReleases => s.reader == HoldingLock
    case TaskTakesLock(id) => Fresh(s, id) && s.lock == Free && OnlyCancelledWait(s)
    case TaskQueues(id) => Fresh(s, id) && (s.lock != Free || s.queue != [])
    case Grant =>
      s.lock == Free && s.queue != [] &&
      (s.queue[0].TaskWaits? ==> s.queue[0].id < |s.tasks| && !s.tasks[s.queue[0].id].cancelled)
    case TaskDropped(id) => id < |s.tasks| && s.tasks[id].cancelled
        && (s.tasks[id].phase == Created || s.tasks[id].phase == Queued)
    case TaskFinishes(id) => id < |s.tasks| && s.tasks[id].phase == Running
  }

  function SetPhase(tasks: seq<Task>, id: nat, phase: Phase): seq<Task>
    requires id < |tasks|
  {
    tasks[id := tasks[id].(phase := phase)]
  }

  function CancelTask(tasks: seq<Task>, id: nat): seq<Task>
    requires id < |tasks|
  {
    tasks[id := tasks[id].(cancelled := true)]
  }

  function CancelAll(tasks: seq<Task>, live: set<nat>): (r: seq<Task>)
    ensures |r| == |tasks|
    ensures forall i | 0 <= i < |tasks| :: r[i] == if i in live then tasks[i].(cancelled := true) else tasks[i]
  {
    seq(|tasks|, i requires 0 <= i < |tasks| => if i in live then tasks[i].(cancelled := true) else tasks[i])
  }

  function Without(queue: seq<Waiter>, w: Waiter): seq<Waiter> {
    if queue == [] then [] else if queue[0] == w then queue[1..] else [queue[0]] + Without(queue[1..], w)
  }

  function CreateTask(s: State, slot: Slot, arrival: nat): State {
    s.(tasks := s.tasks + [Task(slot, arrival, Created, false)], slots := s.slots[slot := |s.tasks|], reader := Reading)
  }

  ghost function Live(s: State): set<nat> {
    set slot | slot in s.slots && Unfinished(s, s.slots[slot]) :: s.slots[slot]
  }

  ghost function Next(s: State, step: Step): State
    requires Enabled(s, step)
  {
    match step
    case Receive(slot, coalesce) =>
      var r := s.(arrivals := s.arrivals + 1);
      if Occupied(s, slot) then
        r.(tasks := if coalesce then CancelTask(s.tasks, s.slots[slot]) else s.tasks,
           reader := AwaitingPrevious(slot, s.slots[slot], s.arrivals))
      else CreateTask(r, slot, s.arrivals)
    case Spawn => CreateTask(s, s.reader.slot, s.reader.arrival)
    case ReceiveCancel => s.(reader := Cancelling(CANCEL_SLOTS))
    case CancelSlot =>
      var slot := s.reader.rest[0];
      if Occupied(s, slot) then
        s.(tasks := CancelTask(s.tasks, s.slots[slot]), reader := AwaitingCancelled(s.slots[slot], s.reader.rest))
      else s.(reader := Cancelling(s.reader.rest[1..]))
    case CancelSlotDone => s.(slots := s.slots - {s.reader.rest[0]}, reader := Cancelling(s.reader.rest[1..]))
    case CancelReturns => s.(reader := Reading)
    case ReceiveDisconnect => s.(tasks := CancelAll(s.tasks, Live(s)), reader := Disconnecting(Live(s)))
    case DisconnectReturns => s.(reader := Closed)
    case ReaderTakesLock => s.(lock := ReaderHolds, reader := HoldingLock)
    case ReaderQueues => s.(queue := s.queue + [ReaderWaits], reader := QueuedForLock)
    case ReaderReleases => s.(lock := Free, reader := Reading)
    case TaskTakesLock(id) => Begin(s, id)
    case TaskQueues(id) => s.(tasks := SetPhase(s.tasks, id, Queued), queue := s.queue + [TaskWaits(id)])
    case Grant =>
      var rest := s.(queue := s.queue[1..]);
      if s.queue[0].ReaderWaits? then rest.(lock := ReaderHolds, reader := HoldingLock)
      else Begin(rest, s.queue[0].id)
    case TaskDropped(id) =>
      s.(tasks := SetPhase(s.tasks, id, Finished), queue := Without(s.queue, TaskWaits(id)))
    case TaskFinishes(id) => s.(tasks := SetPhase(s.tasks, id, Finished), lock := Free)
  }

  function Begin(s: State, id: nat): State
    requires id < |s.tasks|
  {
    s.(tasks := SetPhase(s.tasks, id, Running), lock := TaskHolds(id), started := s.started + [id])
  }

  // ----- invariants -----------------------------------------------------------------------------

  // A slot's tasks come one after the other: only the newest can be unfinished, and the table
  // points to it.
  ghost predicate SlotsInv(tasks: seq<Task>, slots: map<Slot, nat>) {
    && (forall i, j | 0 <= i < j < |tasks| && tasks[i].slot == tasks[j].slot :: tasks[i].phase == Finished)
    && (forall slot | slot in slots :: slots[slot] < |tasks| && tasks[slots[slot]].slot == slot)
    && (forall i | 0 <= i < |tasks| && tasks[i].phase != Finished ::
        tasks[i].slot in slots && slots[tasks[i].slot] == i)
  }

  ghost predicate LockInv(s: State) {
    && (forall i | 0 <= i < |s.tasks| :: s.tasks[i].phase == Running <==> s.lock == TaskHolds(i))
    && (s.lock.TaskHolds? ==> s.lock.id < |s.tasks|)
    && (s.lock == ReaderHolds <==> s.reader == HoldingLock)
  }

  ghost predicate QueueInv(s: State) {
    && (forall i | 0 <= i < |s.tasks| :: s.tasks[i].phase == Queued <==> TaskWaits(i) in s.queue)
    && (forall i: nat | TaskWaits(i) in s.queue :: i < |s.tasks|)
    && (ReaderWaits in s.queue <==> s.reader == QueuedForLock)
    && (forall i, j | 0 <= i < j < |s.queue| :: s.queue[i] != s.queue[j])
  }

  // Tasks are created in the order their commands arrived.
  ghost predicate ArrivalInv(tasks: seq<Task>, arrivals: nat) {
    && (forall i, j | 0 <= i < j < |tasks| :: tasks[i].arrival < tasks[j].arrival)
    && (forall i | 0 <= i < |tasks| :: tasks[i].arrival < arrivals)
  }

  // Within a slot, bodies begin in creation order.
  ghost predicate StartedInv(tasks: seq<Task>, started: seq<nat>) {
    && (forall k | 0 <= k < |started| ::
        started[k] < |tasks| && (tasks[started[k]].phase == Running || tasks[started[k]].phase == Finished))
    && (forall k, l | 0 <= k < l < |started| :: InOrder(tasks, started[k], started[l]))
  }

  ghost predicate InOrder(tasks: seq<Task>, i: nat, j: nat) {
    i < |tasks| && j < |tasks| && (tasks[i].slot == tasks[j].slot ==> i < j)
  }

  // Unfinished tasks are left only in the slots still to be walked.
  ghost predicate Walked(tasks: seq<Task>, rest: seq<Slot>) {
    && (forall i | 0 <= i < |tasks| && tasks[i].phase != Finished :: tasks[i].slot in rest)
    && (forall i, j | 0 <= i < j < |rest| :: rest[i] != rest[j])
  }

  ghost predicate AllCancelled(tasks: seq<Task>, live: set<nat>) {
    forall i | 0 <= i < |tasks| && tasks[i].phase != Finished :: i in live && tasks[i].cancelled
  }

  // What the read loop knows while it waits.
  ghost predicate ReaderInv(s: State) {
    match s.reader
    case AwaitingPrevious(slot, prev, arrival) =>
      slot in s.slots && s.slots[slot] == prev && arrival < s.arrivals && ArrivalInv(s.tasks, arrival)
    case Cancelling(rest) => Walked(s.tasks, rest)
    case AwaitingCancelled(prev, rest) =>
      Walked(s.tasks, rest) && rest != [] && rest[0] in s.slots && s.slots[rest[0]] == prev
    case Disconnecting(live) => AllCancelled(s.tasks, live)
    case Closed => AllCancelled(s.tasks, {})
    case _ => true
  }

  ghost predicate Inv(s: State) {
    SlotsInv(s.tasks, s.slots) && LockInv(s) && QueueInv(s) && ArrivalInv(s.tasks, s.arrivals)
    && StartedInv(s.tasks, s.started) && ReaderInv(s)
  }

  lemma InitialInv()
    ensures Inv(INITIAL)
  {
  }

  // ----- every step keeps them --------------------------------------------------------------------

  // No step but a creation does more to a task than this.
  ghost predicate Advances(a: Task, b: Task) {
    && b.slot == a.slot && b.arrival == a.arrival && (a.cancelled ==> b.cancelled)
    && (a.phase == Finished ==> b.phase == Finished)
    && (a.phase == Running ==> b.phase == Running || b.phase == Finished)
  }

  ghost predicate AllAdvance(a: seq<Task>, b: seq<Task>) {
    |a| == |b| && forall i | 0 <= i < |a| :: Advances(a[i], b[i])
  }

  ghost predicate Creates(s: State, step: Step) {
    step.Spawn? || (step.Receive? && !Occupied(s, step.slot))
  }

  lemma TasksAdvance(s: State, step: Step)
    requires Enabled(s, step) && !Creates(s, step)
    requires SlotsInv(s.tasks, s.slots) && QueueInv(s)
    ensures |Next(s, step).tasks| == |s.tasks| && AllAdvance(s.tasks, Next(s, step).tasks)
  {
    if step.Receive? || step.CancelSlot? || step.ReceiveDisconnect? {
      MarksAdvance(s, step);
    } else {
      hide SlotsInv, CancelAll;
    }
  }

  lemma MarksAdvance(s: State, step: Step)
    requires Enabled(s, step) && !Creates(s, step) && (step.Receive? || step.CancelSlot? || step.ReceiveDisconnect?)
    ensures AllAdvance(s.tasks, Next(s, step).tasks)
  {
  }

  lemma AdvanceKeepsSlots(a: seq<Task>, b: seq<Task>, slots: map<Slot, nat>)
    requires SlotsInv(a, slots) && AllAdvance(a, b)
    ensures SlotsInv(b, slots)
  {
  }

  lemma AdvanceKeepsArrivals(a: seq<Task>, b: seq<Task>, arrivals: nat)
    requires ArrivalInv(a, arrivals) && AllAdvance(a, b)
    ensures ArrivalInv(b, arrivals)
  {
  }

  lemma AdvanceKeepsStarted(a: seq<Task>, b: seq<Task>, started: seq<nat>)
    requires StartedInv(a, started) && AllAdvance(a, b)
    ensures StartedInv(b, started)
  {
    forall k, l | 0 <= k < l < |started| ensures InOrder(b, started[k], started[l]) {
      assert InOrder(a, started[k], started[l]);
    }
  }

  lemma AdvanceKeepsWalked(a: seq<Task>, b: seq<Task>, rest: seq<Slot>)
    requires Walked(a, rest) && AllAdvance(a, b)
    ensures Walked(b, rest)
  {
  }

  lemma AdvanceKeepsCancelled(a: seq<Task>, b: seq<Task>, live: set<nat>)
    requires AllCancelled(a, live) && AllAdvance(a, b)
    ensures AllCancelled(b, live)
  {
  }

  // A slot without an unfinished task in the table has no unfinished task at all.
  lemma FreeSlotIsFinished(s: State, slot: Slot)
    requires SlotsInv(s.tasks, s.slots) && !Occupied(s, slot)
    ensures forall i | 0 <= i < |s.tasks| && s.tasks[i].slot == slot :: s.tasks[i].phase == Finished
  {
  }

  lemma CreationKeepsSlots(tasks: seq<Task>, slots: map<Slot, nat>, t: Task)
    requires SlotsInv(tasks, slots)
    requires forall i | 0 <= i < |tasks| && tasks[i].slot == t.slot :: tasks[i].phase == Finished
    ensures SlotsInv(tasks + [t], slots[t.slot := |tasks|])
  {
  }

  lemma RemovalKeepsSlots(tasks: seq<Task>, slots: map<Slot, nat>, slot: Slot)
    requires SlotsInv(tasks, slots)
    requires forall i | 0 <= i < |tasks| && tasks[i].slot == slot :: tasks[i].phase == Finished
    ensures SlotsInv(tasks, slots - {slot})
  {
  }

  lemma SlotsKept(s: State, step: Step)
    requires Inv(s) && Enabled(s, step)
    ensures SlotsInv(Next(s, step).tasks, Next(s, step).slots)
  {
    hide SlotsInv, LockInv, QueueInv, ArrivalInv, StartedInv, Walked, AllCancelled, AllAdvance;
    if Creates(s, step) {
      var slot := if step.Spawn? then s.reader.slot else step.slot;
      FreeSlotIsFinished(s, slot);
      var arrival := if step.Spawn? then s.reader.arrival else s.arrivals;
      CreationKeepsSlots(s.tasks, s.slots, Task(slot, arrival, Created, false));
    } else {
      var t := Next(s, step);
      TasksAdvance(s, step);
      AdvanceKeepsSlots(s.tasks, t.tasks, s.slots);
      if step.CancelSlotDone? {
        FreeSlotIsFinished(s, s.reader.rest[0]);
        RemovalKeepsSlots(s.tasks, s.slots, s.reader.rest[0]);
      }
    }
  }

  lemma LockKept(s: State, step: Step)
    requires Inv(s) && Enabled(s, step)
    ensures LockInv(Next(s, step))
  {
    hide SlotsInv, ArrivalInv, StartedInv, ReaderInv;
  }

  lemma {:induction false} WithoutRemoves(queue: seq<Waiter>, w: Waiter)
    requires forall i, j | 0 <= i < j < |queue| :: queue[i] != queue[j]
    ensures forall v :: v in Without(queue, w) <==> v in queue && v != w
    ensures forall i, j | 0 <= i < j < |Without(queue, w)| :: Without(queue, w)[i] != Without(queue, w)[j]
  {
    if queue == [] {
    } else {
      assert queue == [queue[0]] + queue[1..];
      assert queue[0] !in queue[1..];
      if queue[0] != w {
        WithoutRemoves(queue[1..], w);
      }
    }
  }

  lemma QueueKept(s: State, step: Step)
    requires Inv(s) && Enabled(s, step)
    ensures QueueInv(Next(s, step))
  {
    hide SlotsInv, ArrivalInv, StartedInv, ReaderInv, LockInv;
    match step
    case TaskDropped(id) => hide CancelAll, QueueInv; DropKeepsQueue(s, id);
    case Receive(_, _) => hide QueueInv; MarksKeepQueue(s, step);
    case CancelSlot => hide QueueInv; MarksKeepQueue(s, step);
    case ReceiveDisconnect => hide QueueInv; MarksKeepQueue(s, step);
    case _ => hide CancelAll, CancelTask;
  }

  lemma DropKeepsQueue(s: State, id: nat)
    requires QueueInv(s) && Enabled(s, TaskDropped(id))
    ensures QueueInv(Next(s, TaskDropped(id)))
  {
    WithoutRemoves(s.queue, TaskWaits(id));
  }

  lemma MarksKeepQueue(s: State, step: Step)
    requires QueueInv(s) && Enabled(s, step) && (step.Receive? || step.CancelSlot? || step.ReceiveDisconnect?)
    ensures QueueInv(Next(s, step))
  {
  }

  lemma ArrivalsKept(s: State, step: Step)
    requires Inv(s) && Enabled(s, step)
    ensures ArrivalInv(Next(s, step).tasks, Next(s, step).arrivals)
  {
    hide SlotsInv, LockInv, QueueInv, StartedInv, Walked, AllCancelled, AllAdvance;
    if !Creates(s, step) {
      TasksAdvance(s, step);
      AdvanceKeepsArrivals(s.tasks, Next(s, step).tasks, s.arrivals);
    }
  }

  // The task whose body begins is the newest of its slot, so it comes after all that began before.
  lemma BeginKeepsStarted(tasks: seq<Task>, slots: map<Slot, nat>, started: seq<nat>, id: nat)
    requires StartedInv(tasks, started) && SlotsInv(tasks, slots)
    requires id < |tasks| && (tasks[id].phase == Created || tasks[id].phase == Queued)
    ensures StartedInv(SetPhase(tasks, id, Running), started + [id])
  {
    var b := SetPhase(tasks, id, Running);
    forall k | 0 <= k < |started| ensures InOrder(b, started[k], id) {
    }
    forall k, l | 0 <= k < l < |started| ensures InOrder(b, started[k], started[l]) {
      assert InOrder(tasks, started[k], started[l]);
    }
  }

  lemma CreationKeepsStarted(tasks: seq<Task>, started: seq<nat>, t: Task)
    requires StartedInv(tasks, started)
    ensures StartedInv(tasks + [t], started)
  {
    forall k, l | 0 <= k < l < |started| ensures InOrder(tasks + [t], started[k], started[l]) {
      assert InOrder(tasks, started[k], started[l]);
    }
  }

  lemma StartedKept(s: State, step: Step)
    requires Inv(s) && Enabled(s, step)
    ensures StartedInv(Next(s, step).tasks, Next(s, step).started)
  {
    hide SlotsInv, LockInv, ArrivalInv, StartedInv, Walked, AllCancelled, AllAdvance;
    var t := Next(s, step);
    if Creates(s, step) {
      CreationKeepsStarted(s.tasks, s.started, t.tasks[|s.tasks|]);
    } else if step.TaskTakesLock? {
      BeginKeepsStarted(s.tasks, s.slots, s.started, step.id);
    } else if step.Grant? && s.queue[0].TaskWaits? {
      BeginKeepsStarted(s.tasks, s.slots, s.started, s.queue[0].id);
    } else {
      TasksAdvance(s, step);
      AdvanceKeepsStarted(s.tasks, t.tasks, s.started);
    }
  }

  lemma EverySlotIsWalked(tasks: seq<Task>)
    ensures Walked(tasks, CANCEL_SLOTS)
  {
    forall i | 0 <= i < |tasks| ensures tasks[i].slot in CANCEL_SLOTS {
      match tasks[i].slot
      case Text => assert CANCEL_SLOTS[0] == Text;
      case Media => assert CANCEL_SLOTS[1] == Media;
      case Config => assert CANCEL_SLOTS[2] == Config;
    }
  }

  lemma WalkAdvances(tasks: seq<Task>, rest: seq<Slot>)
    requires Walked(tasks, rest) && rest != []
    requires forall i | 0 <= i < |tasks| && tasks[i].slot == rest[0] :: tasks[i].phase == Finished
    ensures Walked(tasks, rest[1..])
  {
    assert rest == [rest[0]] + rest[1..];
  }

  lemma AllLiveCancelled(s: State)
    requires SlotsInv(s.tasks, s.slots)
    ensures AllCancelled(CancelAll(s.tasks, Live(s)), Live(s))
  {
    forall i | 0 <= i < |s.tasks| && s.tasks[i].phase != Finished ensures i in Live(s) {
      assert Unfinished(s, s.slots[s.tasks[i].slot]);
    }
  }

  lemma NoneLeft(tasks: seq<Task>, live: set<nat>)
    requires AllCancelled(tasks, live)
    requires forall id | id in live && id < |tasks| :: tasks[id].phase == Finished
    ensures AllCancelled(tasks, {})
  {
  }

  lemma ReadingKept(s: State, step: Step)
    requires Inv(s) && Enabled(s, step) && !Creates(s, step) && s.reader == Reading
    ensures ReaderInv(Next(s, step))
  {
    hide SlotsInv, LockInv, QueueInv, ArrivalInv, StartedInv, AllAdvance, Walked, AllCancelled;
    TasksAdvance(s, step);
    AdvanceKeepsArrivals(s.tasks, Next(s, step).tasks, s.arrivals);
    EverySlotIsWalked(s.tasks);
    AllLiveCancelled(s);
  }

  lemma WalkKept(s: State, step: Step)
    requires Inv(s) && Enabled(s, step) && (s.reader.Cancelling? || s.reader.AwaitingCancelled?)
    ensures ReaderInv(Next(s, step))
  {
    hide SlotsInv, LockInv, QueueInv, ArrivalInv, StartedInv, AllAdvance, Walked, AllCancelled;
    var rest := s.reader.rest;
    TasksAdvance(s, step);
    AdvanceKeepsWalked(s.tasks, Next(s, step).tasks, rest);
    if step.CancelSlotDone? || (step.CancelSlot? && !Occupied(s, rest[0])) {
      FreeSlotIsFinished(s, rest[0]);
      WalkAdvances(s.tasks, rest);
    }
  }

  lemma ReaderKept(s: State, step: Step)
    requires Inv(s) && Enabled(s, step)
    ensures ReaderInv(Next(s, step))
  {
    hide SlotsInv, LockInv, QueueInv, ArrivalInv, StartedInv, AllAdvance, Walked, AllCancelled;
    var t := Next(s, step);
    if !Creates(s, step) {
      match s.reader
      case AwaitingPrevious(_, _, arrival) =>
        TasksAdvance(s, step);
        AdvanceKeepsArrivals(s.tasks, t.tasks, arrival);
      case Cancelling(_) => WalkKept(s, step);
      case AwaitingCancelled(_, _) => WalkKept(s, step);
      case Disconnecting(live) =>
        TasksAdvance(s, step);
        AdvanceKeepsCancelled(s.tasks, t.tasks, live);
        if step.DisconnectReturns? {
          NoneLeft(s.tasks, live);
        }
      case Closed =>
        TasksAdvance(s, step);
        AdvanceKeepsCancelled(s.tasks, t.tasks, {});
      case Reading => ReadingKept(s, step);
      case _ =>
    }
  }

  lemma StepKeeps(s: State, step: Step)
    requires Inv(s) && Enabled(s, step)
    ensures Inv(Next(s, step))
  {
    SlotsKept(s, step);
    LockKept(s, step);
    QueueKept(s, step);
    ArrivalsKept(s, step);
    StartedKept(s, step);
    ReaderKept(s, step);
  }

  // ----- whole runs -------------------------------------------------------------------------------

  ghost predicate Runs(s: State, steps: seq<Step>, t: State)
    decreases |steps|
  {
    if steps == [] then s == t else Enabled(s, steps[0]) && Runs(Next(s, steps[0]), steps[1..], t)
  }

  lemma {:induction false} RunKeeps(s: State, steps: seq<Step>, t: State)
    requires Inv(s) && Runs(s, steps, t)
    ensures Inv(t)
    decreases |steps|
  {
    hide Inv, Next, Enabled;
    if steps != [] {
      StepKeeps(s, steps[0]);
      RunKeeps(Next(s, steps[0]), steps[1..], t);
    }
  }

  lemma InvMeans(t: State)
    requires Inv(t)
    ensures forall i: nat, j: nat | Unfinished(t, i) && Unfinished(t, j) && t.tasks[i].slot == t.tasks[j].slot :: i == j
    ensures forall i, j | 0 <= i < |t.tasks| && 0 <= j < |t.tasks| && t.tasks[i].phase == Running
              && t.tasks[j].phase == Running :: i == j
    ensures t.reader == HoldingLock ==> forall i | 0 <= i < |t.tasks| :: t.tasks[i].phase != Running
  {
    hide QueueInv, ArrivalInv, StartedInv, ReaderInv;
  }

  lemma BodiesBeganInOrder(tasks: seq<Task>, arrivals: nat, started: seq<nat>)
    requires ArrivalInv(tasks, arrivals) && StartedInv(tasks, started)
    ensures forall k, l | 0 <= k < l < |started| && tasks[started[k]].slot == tasks[started[l]].slot ::
              tasks[started[k]].arrival < tasks[started[l]].arrival
  {
    forall k, l | 0 <= k < l < |started| && tasks[started[k]].slot == tasks[started[l]].slot
      ensures tasks[started[k]].arrival < tasks[started[l]].arrival
    {
      assert InOrder(tasks, started[k], started[l]);
    }
  }

  // In every interleaving: a slot has at most one unfinished task, the lock protects at most one
  // body (and none while the read loop holds it), and the bodies of one slot begin in the order
  // their commands arrived.
  lemma RunSafe(steps: seq<Step>, t: State)
    requires Runs(INITIAL, steps, t)
    ensures forall i: nat, j: nat | Unfinished(t, i) && Unfinished(t, j) && t.tasks[i].slot == t.tasks[j].slot :: i == j
    ensures forall i, j | 0 <= i < |t.tasks| && 0 <= j < |t.tasks| && t.tasks[i].phase == Running
              && t.tasks[j].phase == Running :: i == j
    ensures t.reader == HoldingLock ==> forall i | 0 <= i < |t.tasks| :: t.tasks[i].phase != Running
    ensures StartedInv(t.tasks, t.started)
    ensures forall k, l | 0 <= k < l < |t.started| && t.tasks[t.started[k]].slot == t.tasks[t.started[l]].slot ::
              t.tasks[t.started[k]].arrival < t.tasks[t.started[l]].arrival
  {
    hide SlotsInv, LockInv, QueueInv, ArrivalInv, StartedInv, ReaderInv;
    InitialInv();
    RunKeeps(INITIAL, steps, t);
    InvMeans(t);
    BodiesBeganInOrder(t.tasks, t.arrivals, t.started);
  }

  // A new task is created only when every earlier task of its slot is finished: a text turn waits
  // for the turn before it, a superseded config update is over before its successor exists.
  lemma SuccessorFollowsFinished(steps: seq<Step>, s: State, step: Step)
    requires Runs(INITIAL, steps, s) && Enabled(s, step) && |Next(s, step).tasks| > |s.tasks|
    ensures var slot := Next(s, step).tasks[|s.tasks|].slot;
            forall i | 0 <= i < |s.tasks| && s.tasks[i].slot == slot :: s.tasks[i].phase == Finished
  {
    hide SlotsInv, LockInv, QueueInv, ArrivalInv, StartedInv, AllAdvance;
    InitialInv();
    RunKeeps(INITIAL, steps, s);
    if Creates(s, step) {
      FreeSlotIsFinished(s, if step.Spawn? then s.reader.slot else step.slot);
    } else {
      TasksAdvance(s, step);
    }
  }

  // Once the cancel command's walk is over, or the disconnect has returned, no task is unfinished,
  // whatever ran in between.
  lemma CancelAndDisconnectDrain(steps: seq<Step>, s: State)
    requires Runs(INITIAL, steps, s)
    requires Enabled(s, CancelReturns) || s.reader == Closed
    ensures forall i: nat :: !Unfinished(s, i)
  {
    hide SlotsInv, LockInv, QueueInv, ArrivalInv, StartedInv;
    InitialInv();
    RunKeeps(INITIAL, steps, s);
  }

  // The steps that cancel a task: a superseding command of its slot, the cancel command at its slot,
  // the disconnect.
  ghost predicate Cancels(s: State, step: Step, id: nat) {
    && Unfinished(s, id)
    && (step == Receive(s.tasks[id].slot, true)
        || step == ReceiveDisconnect
        || (step == CancelSlot && s.reader.Cancelling? && s.reader.rest != [] && s.reader.rest[0] == s.tasks[id].slot))
  }

  // A superseding command cancels its slot's unfinished task and nothing else, any other command
  // cancels nothing; either waits for that task, and creates its own at once if there is none.
  lemma ReceiveDoes(s: State, slot: Slot, coalesce: bool)
    requires Inv(s) && s.reader == Reading
    ensures var t := Next(s, Receive(slot, coalesce));
            && |t.tasks| >= |s.tasks|
            && (forall id | 0 <= id < |s.tasks| ::
               t.tasks[id] == s.tasks[id].(cancelled := s.tasks[id].cancelled
                 || (coalesce && s.tasks[id].slot == slot && s.tasks[id].phase != Finished)))
            && t.lock == s.lock && t.queue == s.queue && t.started == s.started
    ensures var t := Next(s, Receive(slot, coalesce));
            if exists id :: 0 <= id < |s.tasks| && s.tasks[id].slot == slot && s.tasks[id].phase != Finished then
              |t.tasks| == |s.tasks| && t.reader.AwaitingPrevious? && Unfinished(s, t.reader.prev)
              && s.tasks[t.reader.prev].slot == slot && t.reader.slot == slot && t.slots == s.slots
            else
              t.tasks == s.tasks + [Task(slot, s.arrivals, Created, false)] && t.reader == Reading
              && t.slots == s.slots[slot := |s.tasks|]
  {
    hide LockInv, QueueInv, ArrivalInv, StartedInv, ReaderInv;
  }

  // The cancel command takes the next slot: it cancels and awaits an unfinished task there and clears the
  // slot's entry when that is over, and passes any other slot by.
  lemma WalkDoes(s: State)
    requires Inv(s)
    ensures Enabled(s, CancelSlot) ==>
              var slot, t := s.reader.rest[0], Next(s, CancelSlot);
              if slot in s.slots && Unfinished(s, s.slots[slot]) then
                t.reader == AwaitingCancelled(s.slots[slot], s.reader.rest) && t.slots == s.slots
              else t == s.(reader := Cancelling(s.reader.rest[1..]))
    ensures Enabled(s, CancelSlotDone) ==>
              var slot, t := s.reader.rest[0], Next(s, CancelSlotDone);
              t == s.(slots := s.slots - {slot}, reader := Cancelling(s.reader.rest[1..]))
  {
  }

  // One step cancels exactly the tasks it should and changes the mark of no other.
  lemma StepCancelsIff(s: State, step: Step, id: nat)
    requires Inv(s) && Enabled(s, step) && id < |Next(s, step).tasks|
    ensures Next(s, step).tasks[id].cancelled <==> id < |s.tasks| && (s.tasks[id].cancelled || Cancels(s, step, id))
  {
    hide LockInv, QueueInv, ArrivalInv, StartedInv, ReaderInv;
    if step.Receive? {
      ReceiveDoes(s, step.slot, step.coalesce);
    } else if step.ReceiveDisconnect? || step.CancelSlot? {
      CancelStepsCancel(s, step);
    } else {
      hide Next;
      OthersCancelNone(s, step);
    }
  }

  lemma CancelStepsCancel(s: State, step: Step)
    requires SlotsInv(s.tasks, s.slots) && Enabled(s, step) && (step.ReceiveDisconnect? || step.CancelSlot?)
    ensures |Next(s, step).tasks| == |s.tasks|
    ensures forall id | 0 <= id < |s.tasks| ::
              Next(s, step).tasks[id].cancelled <==> s.tasks[id].cancelled || Cancels(s, step, id)
  {
    hide CancelAll;
  }

  lemma OthersCancelNone(s: State, step: Step)
    requires QueueInv(s) && Enabled(s, step) && !(step.Receive? || step.ReceiveDisconnect? || step.CancelSlot?)
    ensures var t := Next(s, step);
            && |s.tasks| <= |t.tasks|
            && forall id | 0 <= id < |t.tasks| :: t.tasks[id].cancelled <==> id < |s.tasks| && s.tasks[id].cancelled
  {
  }

  // Over every run: a task is cancelled exactly when some step of the run, met while it was
  // unfinished, was a superseding command of its slot, the cancel command at its slot or the disconnect.
  lemma CancelledIff(steps: seq<Step>, t: State, id: nat)
    requires Runs(INITIAL, steps, t) && id < |t.tasks|
    ensures t.tasks[id].cancelled <==>
            exists k, s :: 0 <= k < |steps| && Runs(INITIAL, steps[..k], s) && Cancels(s, steps[k], id)
  {
    hide Inv, Runs, Cancels;
    InitialInv();
    CancelledFromIff(INITIAL, steps, t, id);
  }

  ghost predicate CancelledWithin(s0: State, steps: seq<Step>, id: nat) {
    exists k, s :: 0 <= k < |steps| && Runs(s0, steps[..k], s) && Cancels(s, steps[k], id)
  }

  lemma {:induction false} CancelledFromIff(s0: State, steps: seq<Step>, t: State, id: nat)
    requires Inv(s0) && Runs(s0, steps, t) && id < |t.tasks|
    ensures t.tasks[id].cancelled <==> (id < |s0.tasks| && s0.tasks[id].cancelled) || CancelledWithin(s0, steps, id)
    ensures |s0.tasks| <= |t.tasks|
    decreases |steps|
  {
    hide Inv, Next, Enabled, Cancels, CancelledWithin;
    if steps == [] {
      assert !CancelledWithin(s0, steps, id) by { NothingWithin(s0, id); }
    } else {
      var s1, rest := Next(s0, steps[0]), steps[1..];
      StepKeeps(s0, steps[0]);
      CancelledFromIff(s1, rest, t, id);
      CancelMoments(s0, steps, id);
      TasksStay(s0, steps[0]);
      if id < |s1.tasks| {
        StepCancelsIff(s0, steps[0], id);
      }
      if id >= |s0.tasks| {
        assert !Cancels(s0, steps[0], id) by { NotYet(s0, steps[0], id); }
      }
    }
  }

  lemma NothingWithin(s0: State, id: nat)
    ensures !CancelledWithin(s0, [], id)
  {
  }

  lemma NotYet(s: State, step: Step, id: nat)
    requires id >= |s.tasks|
    ensures !Cancels(s, step, id)
  {
  }

  lemma TasksStay(s: State, step: Step)
    requires Inv(s) && Enabled(s, step)
    ensures |s.tasks| <= |Next(s, step).tasks|
  {
    if !Creates(s, step) {
      TasksAdvance(s, step);
    }
  }

  // The first step of a run, or one of the rest.
  lemma CancelMoments(s0: State, steps: seq<Step>, id: nat)
    requires steps != [] && Enabled(s0, steps[0])
    ensures CancelledWithin(s0, steps, id) <==>
            Cancels(s0, steps[0], id) || CancelledWithin(Next(s0, steps[0]), steps[1..], id)
  {
    hide Enabled, Next, Cancels;
    var s1, rest := Next(s0, steps[0]), steps[1..];
    if k, s :| 0 <= k < |steps| && Runs(s0, steps[..k], s) && Cancels(s, steps[k], id) {
      if k > 0 {
        assert steps[..k][1..] == rest[..k - 1];
        assert Cancels(s, rest[k - 1], id);
      }
    }
    if Cancels(s0, steps[0], id) {
      assert Runs(s0, steps[..0], s0);
    }
    if k, s :| 0 <= k < |rest| && Runs(s1, rest[..k], s) && Cancels(s, rest[k], id) {
      assert steps[..k + 1][1..] == rest[..k];
      assert Runs(s0, steps[..k + 1], s) && Cancels(s, steps[k + 1], id);
    }
  }

  // ----- no command is lost -----------------------------------------------------------------------

  // The slots of the commands received, in order.
  function Commands(steps: seq<Step>): seq<Slot> {
    if steps == [] then []
    else Commands(steps[..|steps| - 1])
         + if steps[|steps| - 1].Receive? then [steps[|steps| - 1].slot] else []
  }

  // The slots of the tasks created, and of the one still to be created.
  function SlotsSpawned(tasks: seq<Task>): seq<Slot> { seq(|tasks|, i requires 0 <= i < |tasks| => tasks[i].slot) }

  ghost predicate NoneLost(s: State, commands: seq<Slot>) {
    && SlotsSpawned(s.tasks) + (if s.reader.AwaitingPrevious? then [s.reader.slot] else []) == commands
    && (forall i | 0 <= i < |s.tasks| :: s.tasks[i].arrival == i)
    && s.arrivals == |commands|
    && (s.reader.AwaitingPrevious? ==> s.reader.arrival == |s.tasks|)
  }

  lemma StepLosesNone(s: State, step: Step, commands: seq<Slot>)
    requires Inv(s) && Enabled(s, step) && NoneLost(s, commands)
    ensures NoneLost(Next(s, step), commands + if step.Receive? then [step.slot] else [])
  {
    hide SlotsInv, LockInv, ArrivalInv, StartedInv, ReaderInv;
    var t := Next(s, step);
    if step.Grant? {
      assert s.queue[0] in s.queue;
    }
    if Creates(s, step) {
      assert SlotsSpawned(t.tasks) == SlotsSpawned(s.tasks) + [t.tasks[|s.tasks|].slot];
    } else {
      TasksAdvance(s, step);
      assert SlotsSpawned(t.tasks) == SlotsSpawned(s.tasks);
    }
  }

  lemma {:induction false} RunLosesNone(s: State, steps: seq<Step>, t: State, before: seq<Step>)
    requires Inv(s) && NoneLost(s, Commands(before)) && Runs(s, steps, t)
    ensures NoneLost(t, Commands(before + steps))
    decreases |steps|
  {
    hide Inv, Next, Enabled, NoneLost;
    if steps == [] {
      assert before + steps == before;
    } else {
      var here := before + [steps[0]];
      assert here[..|here| - 1] == before && here + steps[1..] == before + steps;
      StepKeeps(s, steps[0]);
      StepLosesNone(s, steps[0], Commands(before));
      RunLosesNone(Next(s, steps[0]), steps[1..], t, here);
    }
  }

  // In every interleaving the n-th command received is the n-th task created, in the slot it named;
  // at most one command, the last, still waits for its task.
  lemma EveryCommandSpawns(steps: seq<Step>, t: State)
    requires Runs(INITIAL, steps, t)
    ensures |t.tasks| <= |Commands(steps)| <= |t.tasks| + 1
    ensures forall i | 0 <= i < |t.tasks| :: t.tasks[i].slot == Commands(steps)[i] && t.tasks[i].arrival == i
    ensures |Commands(steps)| == |t.tasks| + 1 <==> t.reader.AwaitingPrevious?
    ensures t.reader.AwaitingPrevious? ==> t.reader.slot == Commands(steps)[|t.tasks|]
  {
    hide Inv, Runs;
    InitialInv();
    assert [] + steps == steps;
    RunLosesNone(INITIAL, steps, t, []);
    assert forall i | 0 <= i < |t.tasks| :: SlotsSpawned(t.tasks)[i] == t.tasks[i].slot;
  }

  // A task cancelled before it got the lock never runs its body.
  lemma {:induction false} CancelledNeverBegins(s: State, steps: seq<Step>, t: State, id: nat)
    requires Inv(s) && Runs(s, steps, t)
    requires id < |s.tasks| && s.tasks[id].cancelled && id !in s.started
    ensures id !in t.started
    decreases |steps|
  {
    hide SlotsInv, LockInv, QueueInv, ArrivalInv, StartedInv, AllAdvance, ReaderInv;
    if steps != [] {
      StepKeeps(s, steps[0]);
      CancelledStays(s, steps[0], id);
      CancelledNeverBegins(Next(s, steps[0]), steps[1..], t, id);
    }
  }

  lemma CancelledStays(s: State, step: Step, id: nat)
    requires Inv(s) && Enabled(s, step)
    requires id < |s.tasks| && s.tasks[id].cancelled && id !in s.started
    ensures var t := Next(s, step);
            id < |t.tasks| && t.tasks[id].cancelled && id !in t.started
  {
    hide LockInv, ArrivalInv, StartedInv, ReaderInv;
    if !Creates(s, step) {
      TasksAdvance(s, step);
    }
  }

  // ----- nobody overtakes at the lock ----------------------------------------------------------------

  ghost predicate HasLock(s: State, w: Waiter) {
    match w
    case ReaderWaits => s.reader == HoldingLock
    case TaskWaits(id) => id in s.started
  }

  // One who waits for the lock has had its turn, or has been cancelled.
  ghost predicate Served(s: State, w: Waiter) {
    HasLock(s, w) || (w.TaskWaits? && w.id < |s.tasks| && s.tasks[w.id].cancelled)
  }

  // a waits for the lock, and b has not had it and is not ahead of a.
  ghost predicate WaitsBefore(s: State, a: Waiter, b: Waiter) {
    && !HasLock(s, b)
    && exists i :: 0 <= i < |s.queue| && s.queue[i] == a && b !in s.queue[..i]
  }

  // Nobody who waits, task or read loop, is overtaken by one who comes to the lock later, in any slot:
  // when the later one has the lock, the earlier one has had it or was cancelled.
  lemma NoOvertaking(before: seq<Step>, s: State, steps: seq<Step>, t: State, a: Waiter, b: Waiter)
    requires Runs(INITIAL, before, s) && Runs(s, steps, t) && a != b && WaitsBefore(s, a, b)
    ensures HasLock(t, b) ==> exists k, u :: 0 <= k <= |steps| && Runs(s, steps[..k], u) && Served(u, a)
  {
    hide Inv, Runs, WaitsBefore, HasLock, Served;
    InitialInv();
    RunKeeps(INITIAL, before, s);
    NoOvertakingFrom(s, steps, t, a, b);
  }

  lemma {:induction false} NoOvertakingFrom(s: State, steps: seq<Step>, t: State, a: Waiter, b: Waiter)
    requires Inv(s) && Runs(s, steps, t) && a != b && WaitsBefore(s, a, b)
    ensures HasLock(t, b) ==> exists k, u :: 0 <= k <= |steps| && Runs(s, steps[..k], u) && Served(u, a)
    decreases |steps|
  {
    hide Inv, Next, Enabled, Served, HasLock;
    if steps != [] {
      var v, rest := Next(s, steps[0]), steps[1..];
      StepKeeps(s, steps[0]);
      StepOvertakesNone(s, steps[0], a, b);
      assert steps[..1][1..] == [] && Runs(v, [], v);
      assert Runs(s, steps[..1], v);
      if !Served(v, a) {
        NoOvertakingFrom(v, rest, t, a, b);
        if HasLock(t, b) {
          var k, u :| 0 <= k <= |rest| && Runs(v, rest[..k], u) && Served(u, a);
          assert steps[..k + 1][1..] == rest[..k];
          assert Runs(s, steps[..k + 1], u);
        }
      }
    }
  }

  lemma StepOvertakesNone(s: State, step: Step, a: Waiter, b: Waiter)
    requires Inv(s) && Enabled(s, step) && a != b && WaitsBefore(s, a, b)
    ensures WaitsBefore(Next(s, step), a, b) || Served(Next(s, step), a)
  {
    hide Inv, Next;
    if step.TaskDropped? {
      DropOvertakesNone(s, step.id, a, b);
    } else if step.Grant? {
      GrantOvertakesNone(s, a, b);
    } else {
      QueueGrows(s, step, b);
      var u := Next(s, step);
      var i :| 0 <= i < |s.queue| && s.queue[i] == a && b !in s.queue[..i];
      assert a in s.queue;
      if s.queue <= u.queue {
        assert u.queue[..i] == s.queue[..i] && u.queue[i] == a;
      }
    }
  }

  // Other steps leave the queue or append to it, and hand the lock over only if all that wait are
  // cancelled.
  lemma QueueGrows(s: State, step: Step, b: Waiter)
    requires Enabled(s, step) && !step.TaskDropped? && !step.Grant?
    ensures s.queue <= Next(s, step).queue
    ensures HasLock(Next(s, step), b) ==> HasLock(s, b) || OnlyCancelledWait(Next(s, step))
  {
  }

  lemma GrantOvertakesNone(s: State, a: Waiter, b: Waiter)
    requires Enabled(s, Grant) && a != b && WaitsBefore(s, a, b)
    ensures WaitsBefore(Next(s, Grant), a, b) || Served(Next(s, Grant), a)
  {
    var u := Next(s, Grant);
    var i :| 0 <= i < |s.queue| && s.queue[i] == a && b !in s.queue[..i];
    if i > 0 {
      assert s.queue[0] == s.queue[..i][0];
      assert s.queue[..i] == [s.queue[0]] + u.queue[..i - 1] && u.queue[i - 1] == a;
    }
  }

  lemma DropOvertakesNone(s: State, id: nat, a: Waiter, b: Waiter)
    requires Inv(s) && Enabled(s, TaskDropped(id)) && a != b && WaitsBefore(s, a, b)
    ensures WaitsBefore(Next(s, TaskDropped(id)), a, b) || Served(Next(s, TaskDropped(id)), a)
  {
    hide Inv;
    var u := Next(s, TaskDropped(id));
    if TaskWaits(id) != a {
      var i :| 0 <= i < |s.queue| && s.queue[i] == a && b !in s.queue[..i];
      WithoutAt(s.queue, TaskWaits(id), i);
      var j :| 0 <= j < |u.queue| && u.queue[j] == s.queue[i] && NoneNew(u.queue, j, s.queue, i);
    }
  }

  // Who is ahead of place j was ahead of place i before.
  ghost predicate NoneNew(now: seq<Waiter>, j: nat, was: seq<Waiter>, i: nat) {
    j <= |now| && i <= |was| && forall v | v in now[..j] :: v in was[..i]
  }

  lemma {:induction false} WithoutAt(queue: seq<Waiter>, w: Waiter, i: nat)
    requires i < |queue| && queue[i] != w
    ensures exists j :: 0 <= j < |Without(queue, w)| && Without(queue, w)[j] == queue[i]
                        && NoneNew(Without(queue, w), j, queue, i)
  {
    var r := Without(queue, w);
    if queue[0] == w {
      assert queue[..i] == [w] + r[..i - 1] && r[i - 1] == queue[i];
      assert NoneNew(r, i - 1, queue, i);
    } else if i == 0 {
      assert r[0] == queue[0] && NoneNew(r, 0, queue, 0);
    } else {
      WithoutAt(queue[1..], w, i - 1);
      var q := Without(queue[1..], w);
      var j :| 0 <= j < |q| && q[j] == queue[1..][i - 1] && NoneNew(q, j, queue[1..], i - 1);
      assert r[..j + 1] == [queue[0]] + q[..j] && r[j + 1] == queue[i];
      assert queue[..i] == [queue[0]] + queue[1..][..i - 1];
      assert NoneNew(r, j + 1, queue, i);
    }
  }

  // ----- progress ---------------------------------------------------------------------------------

  ghost predicate ReaderWaitsForTasks(s: State) {
    s.reader.AwaitingPrevious? || s.reader.AwaitingCancelled? || s.reader.Disconnecting?
  }

  ghost predicate TaskStep(s: State, step: Step) {
    step.TaskTakesLock? || step.TaskQueues? || step.TaskDropped? || step.TaskFinishes?
    || (step.Grant? && s.queue != [] && s.queue[0].TaskWaits?)
  }

  function Weight(phase: Phase): nat {
    match phase case Created => 3 case Queued => 2 case Running => 1 case Finished => 0
  }

  function Work(tasks: seq<Task>): nat {
    if tasks == [] then 0 else Work(tasks[..|tasks| - 1]) + Weight(tasks[|tasks| - 1].phase)
  }

  lemma {:induction false} WorkDrops(tasks: seq<Task>, id: nat, phase: Phase)
    requires id < |tasks| && Weight(phase) < Weight(tasks[id].phase)
    ensures Work(SetPhase(tasks, id, phase)) < Work(tasks)
  {
    var b := SetPhase(tasks, id, phase);
    var n := |tasks| - 1;
    if id == n {
      assert b[..n] == tasks[..n];
    } else {
      WorkDrops(tasks[..n], id, phase);
      assert b[..n] == SetPhase(tasks[..n], id, phase);
    }
  }

  lemma TaskStepWorks(s: State, step: Step)
    requires Inv(s) && Enabled(s, step) && TaskStep(s, step)
    ensures Work(Next(s, step).tasks) < Work(s.tasks)
  {
    hide SlotsInv, LockInv, ArrivalInv, StartedInv, ReaderInv, Work;
    match step
    case TaskTakesLock(id) => WorkDrops(s.tasks, id, Running);
    case TaskQueues(id) => WorkDrops(s.tasks, id, Queued);
    case TaskDropped(id) => WorkDrops(s.tasks, id, Finished);
    case TaskFinishes(id) => WorkDrops(s.tasks, id, Finished);
    case Grant => assert s.queue[0] in s.queue; WorkDrops(s.tasks, s.queue[0].id, Running);
  }

  ghost predicate TaskRun(s: State, steps: seq<Step>, t: State)
    decreases |steps|
  {
    if steps == [] then s == t
    else Enabled(s, steps[0]) && TaskStep(s, steps[0]) && TaskRun(Next(s, steps[0]), steps[1..], t)
  }

  lemma {:induction false} TaskRunBounded(s: State, steps: seq<Step>, t: State)
    requires Inv(s) && TaskRun(s, steps, t)
    ensures Inv(t) && t.reader == s.reader && |steps| + Work(t.tasks) <= Work(s.tasks)
    decreases |steps|
  {
    hide Inv, Work;
    if steps != [] {
      StepKeeps(s, steps[0]);
      TaskStepWorks(s, steps[0]);
      TaskRunBounded(Next(s, steps[0]), steps[1..], t);
    }
  }

  // No deadlock: while the read loop waits for tasks, an unfinished task means some task can move.
  lemma SomeTaskMoves(s: State, id: nat) returns (step: Step)
    requires Inv(s) && ReaderWaitsForTasks(s) && Unfinished(s, id)
    ensures Enabled(s, step) && TaskStep(s, step)
  {
    hide SlotsInv, ArrivalInv, StartedInv, ReaderInv;
    if s.lock.TaskHolds? {
      return TaskFinishes(s.lock.id);
    }
    if s.queue == [] {
      return if s.tasks[id].cancelled then TaskDropped(id) else TaskTakesLock(id);
    }
    assert s.queue[0] in s.queue;
    var head := s.queue[0].id;
    return if s.tasks[head].cancelled then TaskDropped(head) else Grant;
  }

  // However the tasks are scheduled, they take at most Work(s.tasks) steps before none can move,
  // and then the wait of the read loop is over: what it waits for, and every other task, is finished.
  lemma WaitEnds(steps: seq<Step>, s: State, taskSteps: seq<Step>, t: State)
    requires Runs(INITIAL, steps, s) && ReaderWaitsForTasks(s)
    requires TaskRun(s, taskSteps, t)
    ensures |taskSteps| <= Work(s.tasks)
    ensures (forall step :: !(Enabled(t, step) && TaskStep(t, step))) ==> forall i: nat :: !Unfinished(t, i)
  {
    hide Inv, Enabled, Next, TaskStep, Work;
    InitialInv();
    RunKeeps(INITIAL, steps, s);
    TaskRunBounded(s, taskSteps, t);
    forall i: nat | Unfinished(t, i) ensures exists step :: Enabled(t, step) && TaskStep(t, step) {
      var step := SomeTaskMoves(t, i);
    }
  }
}
