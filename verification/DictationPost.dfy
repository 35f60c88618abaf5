/** The post-processing tasks of dictation: which turn their events carry, and how a new dictation
    and `cancel()` abandon them. One step is what runs between two awaits. */
module DictationPost {
  import opened Options

  type TurnId = string

  // alive: the task is not done; it may still emit until it is. turn is what it captured.
  datatype PostTask = PostTask(turn: TurnId, alive: bool)

  // What is sent. own is a turn id that the event carries of itself.
  datatype Origin =
    | OfTask(task: nat, own: Option<TurnId>)
    | LegacyCancelled(task: nat)     // dictation_postprocessing_cancelled, for the abandoned task
    | ProgressCancelled(task: nat)   // its twin on the progress bus
    | Working(dictation: TurnId)     // dictation_postprocessing

  datatype Entry =
    | Sent(origin: Origin, turn: TurnId)
    | Spawned(task: nat)

  // Where the finish_dictation call stands; turn is the dictation it ends. There is one at a time,
  // since the read loop awaits it.
  datatype Finish =
    | Idle
    | AwaitingPrevious(prev: nat, turn: TurnId)
    | Announcing(turn: TurnId)

  datatype State = State(
    tasks: seq<PostTask>,
    handle: Option<nat>,         // _post_process_task
    postTurn: TurnId,            // _post_process_turn_id
    turn: TurnId,                // _dictation_turn_id
    live: TurnId,                // conn_state["turn_id"]
    finish: Finish,
    cancels: seq<nat>,           // the tasks that cancel() calls are awaiting
    log: seq<Entry>)

  const INITIAL: State := State([], None, "-", "-", "-", Idle, [], [])

  datatype Step =
    | Start(id: TurnId, dictate: bool)
    | TextTurn(id: TurnId)
    | FinishBegins
    | PreviousDone
    | FinishSpawns
    | CancelBegins                     // from the read loop, a swap, an eviction or a monitor
    | CancelReturns(k: nat)
    | Emits(task: nat, own: Option<TurnId>)
    | Ends(task: nat)

  predicate Alive(s: State, task: nat) { task < |s.tasks| && s.tasks[task].alive }

  predicate HandleAlive(s: State) { s.handle.Some? && Alive(s, s.handle.value) }

  predicate Enabled(s: State, step: Step) {
    match step
    case Start(_, _) => s.finish == Idle
    case TextTurn(_) => true
    case FinishBegins => s.finish == Idle
    case PreviousDone => s.finish.AwaitingPrevious? && !Alive(s, s.finish.prev)
    case FinishSpawns => s.finish.Announcing?
    case CancelBegins => true
    case CancelReturns(k) => k < |s.cancels| && !Alive(s, s.cancels[k])
    case Emits(task, _) => Alive(s, task)
    case Ends(task) => Alive(s, task)
  }

  // `event.setdefault("turn_id", id)`, and the same test in the connection's callback.
  function WithDefault(own: Option<TurnId>, id: TurnId): TurnId {
    match own case Some(turn) => turn case None => id
  }

  // The turn id under which an event reaches the client.
  function Stamped(s: State, own: Option<TurnId>): TurnId { WithDefault(own, s.live) }

  function Next(s: State, step: Step): State
    requires Enabled(s, step)
  {
    match step
    case Start(id, dictate) => s.(live := id, turn := if dictate then id else s.turn)
    case TextTurn(id) => s.(live := id)
    case FinishBegins =>
      if HandleAlive(s) then s.(handle := None, finish := AwaitingPrevious(s.handle.value, s.turn))
      else s.(finish := Announcing(s.turn))
    case PreviousDone =>
      var prev := s.finish.prev;
      s.(finish := Announcing(s.finish.turn),
         log := s.log + [Sent(LegacyCancelled(prev), Stamped(s, Some(s.postTurn))),
                         Sent(ProgressCancelled(prev), Stamped(s, None))])
    case FinishSpawns =>
      s.(tasks := s.tasks + [PostTask(s.turn, true)], handle := Some(|s.tasks|), postTurn := s.turn, finish := Idle,
         log := s.log + [Sent(Working(s.finish.turn), Stamped(s, None)), Spawned(|s.tasks|)])
    case CancelBegins =>
      if HandleAlive(s) then s.(handle := None, cancels := s.cancels + [s.handle.value]) else s
    case CancelReturns(k) => s.(cancels := s.cancels[..k] + s.cancels[k + 1..])
    case Emits(task, own) =>
      var event := WithDefault(own, s.tasks[task].turn);
      s.(log := s.log + [Sent(OfTask(task, own), Stamped(s, Some(event)))])
    case Ends(task) => s.(tasks := s.tasks[task := s.tasks[task].(alive := false)])
  }

  // ----- invariants -------------------------------------------------------------------------------

  predicate FinishAwaits(s: State, task: nat) { s.finish.AwaitingPrevious? && s.finish.prev == task }

  // A live task is the handle's, or awaited by a cancel or by the finish.
  ghost predicate HoldInv(s: State) {
    && (forall i | 0 <= i < |s.tasks| && s.tasks[i].alive ::
          s.handle == Some(i) || i in s.cancels || FinishAwaits(s, i))
    && (s.handle.Some? ==> s.handle.value == |s.tasks| - 1)
    && (s.finish.AwaitingPrevious? ==> s.finish.prev == |s.tasks| - 1 && s.handle == None)
    && (s.finish.Announcing? ==> !HandleAlive(s))
  }

  ghost predicate CancelInv(s: State) {
    (forall c | c in s.cancels :: c < |s.tasks|) && (s.handle.Some? ==> s.handle.value !in s.cancels)
  }

  ghost predicate TurnInv(s: State) {
    && (s.tasks != [] ==> s.postTurn == s.tasks[|s.tasks| - 1].turn)
    && (s.finish != Idle ==> s.finish.turn == s.turn)
  }

  // What an entry says about turns: a task's event that names none carries the captured one, and
  // so does the legacy frame for an abandoned task.
  ghost predicate EntryRight(tasks: seq<PostTask>, e: Entry) {
    match e
    case Spawned(task) => task < |tasks|
    case Sent(OfTask(task, own), turn) => task < |tasks| && turn == WithDefault(own, tasks[task].turn)
    case Sent(LegacyCancelled(task), turn) => task < |tasks| && turn == tasks[task].turn
    case Sent(ProgressCancelled(task), _) => task < |tasks|
    case Sent(Working(_), _) => true
  }

  ghost predicate LogInv(tasks: seq<PostTask>, log: seq<Entry>) {
    forall k | 0 <= k < |log| :: EntryRight(tasks, log[k])
  }

  ghost predicate Inv(s: State) { HoldInv(s) && CancelInv(s) && TurnInv(s) && LogInv(s.tasks, s.log) }

  lemma OthersStay(cancels: seq<nat>, k: nat)
    requires k < |cancels|
    ensures forall c | c in cancels && c != cancels[k] :: c in cancels[..k] + cancels[k + 1..]
    ensures forall c | c in cancels[..k] + cancels[k + 1..] :: c in cancels
  {
    forall c | c in cancels && c != cancels[k] ensures c in cancels[..k] + cancels[k + 1..] {
      var i :| 0 <= i < |cancels| && cancels[i] == c;
      assert i < k ==> cancels[..k][i] == c;
      assert i > k ==> cancels[k + 1..][i - k - 1] == c;
    }
  }

  lemma HoldKept(s: State, step: Step)
    requires Inv(s) && Enabled(s, step)
    ensures HoldInv(Next(s, step)) && CancelInv(Next(s, step))
  {
    hide LogInv, TurnInv;
    match step
    case CancelReturns(k) =>
      OthersStay(s.cancels, k);
      var t := Next(s, step);
      assert t.cancels == s.cancels[..k] + s.cancels[k + 1..];
      forall c | c in t.cancels ensures c < |s.tasks| {
        assert c in s.cancels;
      }
    case _ =>
  }

  lemma TurnKept(s: State, step: Step)
    requires Inv(s) && Enabled(s, step)
    ensures TurnInv(Next(s, step))
  {
    hide LogInv, CancelInv;
  }

  lemma LogGrows(tasks: seq<PostTask>, log: seq<Entry>, more: seq<Entry>)
    requires LogInv(tasks, log) && LogInv(tasks, more)
    ensures LogInv(tasks, log + more)
  {
  }

  lemma TasksGrow(tasks: seq<PostTask>, more: seq<PostTask>, log: seq<Entry>)
    requires LogInv(tasks, log) && |tasks| <= |more|
    requires forall i | 0 <= i < |tasks| :: more[i].turn == tasks[i].turn
    ensures LogInv(more, log)
  {
    forall k | 0 <= k < |log| ensures EntryRight(more, log[k]) {
      assert EntryRight(tasks, log[k]);
    }
  }

  lemma LogKept(s: State, step: Step)
    requires Inv(s) && Enabled(s, step)
    ensures LogInv(Next(s, step).tasks, Next(s, step).log)
  {
    var t := Next(s, step);
    if step.FinishSpawns? || step.Ends? {
      TasksGrow(s.tasks, t.tasks, s.log);
    }
    if step.PreviousDone? || step.FinishSpawns? || step.Emits? {
      LogGrows(t.tasks, s.log, t.log[|s.log|..]);
      assert t.log == s.log + t.log[|s.log|..];
    }
  }

  lemma StepKeeps(s: State, step: Step)
    requires Inv(s) && Enabled(s, step)
    ensures Inv(Next(s, step))
  {
    hide HoldInv, TurnInv, LogInv, CancelInv, Next, Enabled;
    HoldKept(s, step);
    TurnKept(s, step);
    LogKept(s, step);
  }

  // ----- every run --------------------------------------------------------------------------------

  predicate Runs(s: State, steps: seq<Step>, t: State)
    decreases |steps|
  {
    if steps == [] then s == t else Enabled(s, steps[0]) && Runs(Next(s, steps[0]), steps[1..], t)
  }

  lemma {:induction false} RunKeeps(s: State, steps: seq<Step>, t: State)
    requires Inv(s) && Runs(s, steps, t)
    ensures Inv(t)
    decreases |steps|
  {
    hide Inv, Next, Enabled;
    if steps != [] {
      StepKeeps(s, steps[0]);
      RunKeeps(Next(s, steps[0]), steps[1..], t);
    }
  }

  // In every run, however calls overlap: an event that a task emits without a turn id of its own
  // reaches the client under the turn captured when the task was spawned, whatever turn is live by
  // then; and the legacy frame that announces an abandoned task carries that task's turn.
  lemma TurnIdentity(steps: seq<Step>, t: State)
    requires Runs(INITIAL, steps, t)
    ensures forall k | 0 <= k < |t.log| && t.log[k].Sent? && t.log[k].origin.OfTask? && t.log[k].origin.own == None ::
              t.log[k].origin.task < |t.tasks| && t.log[k].turn == t.tasks[t.log[k].origin.task].turn
    ensures forall k | 0 <= k < |t.log| && t.log[k].Sent? && t.log[k].origin.LegacyCancelled? ::
              t.log[k].origin.task < |t.tasks| && t.log[k].turn == t.tasks[t.log[k].origin.task].turn
  {
    RunKeeps(INITIAL, steps, t);
    forall k | 0 <= k < |t.log| ensures EntryRight(t.tasks, t.log[k]) {
    }
  }

  // The turn ids that a step makes the connection's live one.
  function Announced(step: Step): Option<TurnId> {
    match step
    case Start(id, _) => Some(id)
    case TextTurn(id) => Some(id)
    case _ => None
  }

  function LastAnnounced(live: TurnId, steps: seq<Step>): TurnId
    decreases |steps|
  {
    if steps == [] then live
    else LastAnnounced(WithDefault(Announced(steps[0]), live), steps[1..])
  }

  lemma {:induction false} LiveIsLast(s: State, steps: seq<Step>, t: State)
    requires Runs(s, steps, t)
    ensures t.live == LastAnnounced(s.live, steps)
    decreases |steps|
  {
    if steps != [] {
      assert Next(s, steps[0]).live == WithDefault(Announced(steps[0]), s.live);
      hide Next, Enabled;
      LiveIsLast(Next(s, steps[0]), steps[1..], t);
    }
  }

  lemma {:induction false} LastAfter(live: TurnId, before: seq<Step>, after: seq<Step>)
    ensures LastAnnounced(live, before + after) == LastAnnounced(LastAnnounced(live, before), after)
    decreases |before|
  {
    if before == [] {
      assert before + after == after;
    } else {
      assert (before + after)[1..] == before[1..] + after && (before + after)[0] == before[0];
      LastAfter(WithDefault(Announced(before[0]), live), before[1..], after);
    }
  }

  lemma {:induction false} LastIsFirstIff(id: TurnId, steps: seq<Step>)
    requires forall k | 0 <= k < |steps| :: Announced(steps[k]) != Some(id)
    ensures LastAnnounced(id, steps) == id <==> forall k | 0 <= k < |steps| :: Announced(steps[k]) == None
    decreases |steps|
  {
    if steps != [] {
      if Announced(steps[0]) == None {
        LastIsFirstIff(id, steps[1..]);
      } else {
        NeverAgain(Announced(steps[0]).value, steps[1..], id);
      }
    }
  }

  lemma {:induction false} NeverAgain(live: TurnId, steps: seq<Step>, id: TurnId)
    requires live != id && forall k | 0 <= k < |steps| :: Announced(steps[k]) != Some(id)
    ensures LastAnnounced(live, steps) != id
    decreases |steps|
  {
    if steps != [] {
      NeverAgain(WithDefault(Announced(steps[0]), live), steps[1..], id);
    }
  }

  // The progress frame for an abandoned task names no turn.  It reaches the client under the abandoned
  // task's turn exactly when no dictation and no text turn was started after that dictation.
  lemma ProgressCancelledRightIff(before: seq<Step>, id: TurnId, after: seq<Step>, s: State)
    requires Runs(INITIAL, before + [Start(id, true)] + after, s) && Enabled(s, PreviousDone)
    requires s.finish.prev < |s.tasks| ==> s.tasks[s.finish.prev].turn == id
    requires forall k | 0 <= k < |after| :: Announced(after[k]) != Some(id)
    ensures var frames := Next(s, PreviousDone).log[|s.log|..];
            && |frames| == 2 && frames[0].turn == id && frames[1].origin == ProgressCancelled(s.finish.prev)
            && (frames[1].turn == id <==> forall k | 0 <= k < |after| :: Announced(after[k]) == None)
  {
    RunKeeps(INITIAL, before + [Start(id, true)] + after, s);
    LiveIsLast(INITIAL, before + [Start(id, true)] + after, s);
    LastAfter(INITIAL.live, before + [Start(id, true)], after);
    LastAfter(INITIAL.live, before, [Start(id, true)]);
    OneAnnounced(LastAnnounced(INITIAL.live, before), id);
    LastIsFirstIff(id, after);
    hide Runs, LogInv, LastAnnounced;
  }

  lemma OneAnnounced(live: TurnId, id: TurnId)
    ensures LastAnnounced(live, [Start(id, true)]) == id
  {
    assert [Start(id, true)][1..] == [];
  }

  // The last dictation that was started.
  function LastDictated(steps: seq<Step>): TurnId {
    if steps == [] then "-"
    else
      var last := steps[|steps| - 1];
      if last.Start? && last.dictate then last.id else LastDictated(steps[..|steps| - 1])
  }

  lemma {:induction false} TurnIsLast(s: State, before: seq<Step>, steps: seq<Step>, t: State)
    requires Runs(s, steps, t) && s.turn == LastDictated(before)
    ensures t.turn == LastDictated(before + steps)
    decreases |steps|
  {
    if steps == [] {
      assert before + steps == before;
    } else {
      var here := before + [steps[0]];
      assert here[..|here| - 1] == before && here + steps[1..] == before + steps;
      assert Next(s, steps[0]).turn == LastDictated(here);
      hide Next, Enabled, LastDictated;
      TurnIsLast(Next(s, steps[0]), here, steps[1..], t);
    }
  }

  // What ends a dictation sends and spawns, from the steps so far: the task and the working event are the
  // last started dictation's, and the frames that name no turn go out under the turn announced last.
  lemma FinishDoes(steps: seq<Step>, s: State)
    requires Runs(INITIAL, steps, s)
    ensures Enabled(s, FinishSpawns) ==>
              var t := Next(s, FinishSpawns);
              && t.tasks == s.tasks + [PostTask(LastDictated(steps), true)] && t.handle == Some(|s.tasks|)
              && t.log == s.log + [Sent(Working(LastDictated(steps)), LastAnnounced("-", steps)), Spawned(|s.tasks|)]
    ensures Enabled(s, PreviousDone) ==>
              var prev, t := s.finish.prev, Next(s, PreviousDone);
              && prev < |s.tasks| && t.tasks == s.tasks && t.finish == Announcing(LastDictated(steps))
              && t.log == s.log + [Sent(LegacyCancelled(prev), s.tasks[prev].turn),
                                   Sent(ProgressCancelled(prev), LastAnnounced("-", steps))]
  {
    RunKeeps(INITIAL, steps, s);
    LiveIsLast(INITIAL, steps, s);
    assert [] + steps == steps;
    TurnIsLast(INITIAL, [], steps, s);
    hide Inv, LastAnnounced, LastDictated, Runs, Enabled, Next;
    if Enabled(s, FinishSpawns) {
      SpawnSends(s);
    }
    if Enabled(s, PreviousDone) {
      PreviousSends(s);
    }
  }

  lemma SpawnSends(s: State)
    requires Inv(s) && Enabled(s, FinishSpawns)
    ensures var t := Next(s, FinishSpawns);
            && t.tasks == s.tasks + [PostTask(s.turn, true)] && t.handle == Some(|s.tasks|)
            && t.log == s.log + [Sent(Working(s.turn), s.live), Spawned(|s.tasks|)]
  {
    hide HoldInv, CancelInv, LogInv;
  }

  lemma PreviousSends(s: State)
    requires Inv(s) && Enabled(s, PreviousDone)
    ensures var prev, t := s.finish.prev, Next(s, PreviousDone);
            && prev < |s.tasks| && t.tasks == s.tasks && t.finish == Announcing(s.turn)
            && t.log == s.log + [Sent(LegacyCancelled(prev), s.tasks[prev].turn), Sent(ProgressCancelled(prev), s.live)]
  {
    hide CancelInv, LogInv;
  }

  // A finish_dictation spawns its task for the dictation that was current when it was called.
  lemma SpawnCapturesItsTurn(steps: seq<Step>, s: State)
    requires Runs(INITIAL, steps, s) && Enabled(s, FinishSpawns)
    ensures var t := Next(s, FinishSpawns);
            t.tasks == s.tasks + [PostTask(s.finish.turn, true)] && t.postTurn == s.finish.turn
  {
    RunKeeps(INITIAL, steps, s);
  }

  // ----- one task at a time -----------------------------------------------------------------------

  ghost predicate NoneAlive(s: State) { forall i | 0 <= i < |s.tasks| :: !s.tasks[i].alive }

  ghost predicate OneAlive(s: State) {
    forall i, j | 0 <= i < |s.tasks| && 0 <= j < |s.tasks| && s.tasks[i].alive && s.tasks[j].alive :: i == j
  }

  // Some cancel() is still waiting for the task it took.
  ghost predicate CancelPending(s: State) { exists c | c in s.cancels :: Alive(s, c) }

  // A spawn finds another task live exactly when a cancel is still waiting for one: finding the
  // handle gone, the finish has not waited for it.
  lemma SpawnFindsLiveIff(s: State)
    requires Inv(s) && Enabled(s, FinishSpawns)
    ensures !NoneAlive(s) <==> CancelPending(s)
  {
    hide LogInv, TurnInv;
    forall i | 0 <= i < |s.tasks| && s.tasks[i].alive ensures CancelPending(s) {
      assert i in s.cancels && Alive(s, i);
    }
  }

  ghost predicate AlwaysOneAlive(s: State, steps: seq<Step>, t: State)
    requires Runs(s, steps, t)
    decreases |steps|
  {
    OneAlive(s) && (steps != [] ==> AlwaysOneAlive(Next(s, steps[0]), steps[1..], t))
  }

  ghost predicate SpawnsUndisturbed(s: State, steps: seq<Step>, t: State)
    requires Runs(s, steps, t)
    decreases |steps|
  {
    steps != [] ==>
      (steps[0].FinishSpawns? ==> !CancelPending(s)) && SpawnsUndisturbed(Next(s, steps[0]), steps[1..], t)
  }

  lemma StepOneAlive(s: State, step: Step)
    requires Inv(s) && Enabled(s, step) && OneAlive(s)
    ensures OneAlive(Next(s, step)) <==> (step.FinishSpawns? ==> !CancelPending(s))
  {
    hide LogInv, TurnInv, HoldInv, CancelInv;
    if step.FinishSpawns? {
      SpawnFindsLiveIff(s);
      var t := Next(s, step);
      assert t.tasks[|s.tasks|].alive;
      if !NoneAlive(s) {
        var i :| 0 <= i < |s.tasks| && s.tasks[i].alive;
        assert t.tasks[i].alive;
      }
    }
  }

  // Over every run there is never more than one live task exactly when no task is spawned while a
  // cancel still waits for one.
  lemma {:induction false} OneAliveIff(s: State, steps: seq<Step>, t: State)
    requires Inv(s) && OneAlive(s) && Runs(s, steps, t)
    ensures AlwaysOneAlive(s, steps, t) <==> SpawnsUndisturbed(s, steps, t)
    decreases |steps|
  {
    hide Inv, Next, Enabled, OneAlive, CancelPending;
    if steps != [] {
      StepKeeps(s, steps[0]);
      StepOneAlive(s, steps[0]);
      if OneAlive(Next(s, steps[0])) {
        OneAliveIff(Next(s, steps[0]), steps[1..], t);
      } else {
        NotAlwaysOne(Next(s, steps[0]), steps[1..], t);
      }
    }
  }

  lemma NotAlwaysOne(s: State, steps: seq<Step>, t: State)
    requires Runs(s, steps, t) && !OneAlive(s)
    ensures !AlwaysOneAlive(s, steps, t)
  {
  }

  // In such a run no task emits after its successor was spawned: what is not alive stays silent.
  lemma {:induction false} DeadStaysSilent(s: State, steps: seq<Step>, t: State, task: nat)
    requires Runs(s, steps, t) && task < |s.tasks| && !s.tasks[task].alive
    ensures task < |t.tasks| && !t.tasks[task].alive && s.log <= t.log
    ensures forall k | |s.log| <= k < |t.log| && t.log[k].Sent? && t.log[k].origin.OfTask? ::
            t.log[k].origin.task != task
    decreases |steps|
  {
    if steps != [] {
      var v := Next(s, steps[0]);
      assert s.log <= v.log;
      DeadStaysSilent(v, steps[1..], t, task);
    }
  }

  // ----- what cancel() guarantees -------------------------------------------------------------------

  // Some other cancel, or the finish, is waiting for a live task.
  ghost predicate OtherPending(s: State) {
    CancelPending(s) || (s.finish.AwaitingPrevious? && Alive(s, s.finish.prev))
  }

  // A run from the call of cancel() to a state in which it can return.
  ghost predicate CancelCall(s: State, steps: seq<Step>, t: State) {
    && Runs(Next(s, CancelBegins), steps, t)
    && (if HandleAlive(s) then !Alive(t, s.handle.value) else steps == [])
  }

  // None of the tasks of s is live in t.
  ghost predicate OldOnesOver(s: State, t: State) {
    |s.tasks| <= |t.tasks| && forall i | 0 <= i < |s.tasks| :: !t.tasks[i].alive
  }

  // cancel() is sure to return with no task live that existed at its call, exactly when at the call no
  // other cancel and no finish is waiting for one: finding the handle gone, it does not wait itself.
  lemma CancelIsQuietIff(s: State)
    requires Inv(s)
    ensures (forall steps, t | CancelCall(s, steps, t) :: OldOnesOver(s, t)) <==> !OtherPending(s)
  {
    hide LogInv, TurnInv;
    if OtherPending(s) {
      var other: nat := if CancelPending(s) then (var c :| c in s.cancels && Alive(s, c); c) else s.finish.prev;
      SomeCallLeaves(s, other);
    } else {
      forall steps, t | CancelCall(s, steps, t) ensures OldOnesOver(s, t) {
        OnlyHandleAlive(s);
        OldOnesStayDead(Next(s, CancelBegins), steps, t, s);
      }
    }
  }

  lemma OnlyHandleAlive(s: State)
    requires Inv(s) && !OtherPending(s)
    ensures forall i | 0 <= i < |s.tasks| && s.tasks[i].alive :: s.handle == Some(i)
  {
    forall i | 0 <= i < |s.tasks| && s.tasks[i].alive ensures s.handle == Some(i) {
      PendingBy(s, i);
    }
  }

  lemma PendingBy(s: State, task: nat)
    ensures task in s.cancels && Alive(s, task) ==> CancelPending(s)
  {
  }

  lemma {:induction false} OldOnesStayDead(v: State, steps: seq<Step>, t: State, s: State)
    requires Runs(v, steps, t) && |s.tasks| <= |v.tasks|
    requires forall i | 0 <= i < |s.tasks| && v.tasks[i].alive :: s.handle == Some(i)
    ensures |s.tasks| <= |t.tasks|
    ensures forall i | 0 <= i < |s.tasks| && t.tasks[i].alive :: s.handle == Some(i)
    decreases |steps|
  {
    if steps != [] {
      OldOnesStayDead(Next(v, steps[0]), steps[1..], t, s);
    }
  }

  lemma SomeCallLeaves(s: State, other: nat)
    requires Inv(s) && Alive(s, other) && (other in s.cancels || FinishAwaits(s, other))
    ensures exists steps, t :: CancelCall(s, steps, t) && !OldOnesOver(s, t)
  {
    hide LogInv, TurnInv;
    var v := Next(s, CancelBegins);
    if HandleAlive(s) {
      var step := Ends(s.handle.value);
      var t := Next(v, step);
      assert [step][1..] == [] && Runs(t, [], t);
      assert Runs(v, [step], t);
      assert t.tasks[other].alive;
      assert CancelCall(s, [step], t);
    } else {
      assert Runs(v, [], v) && v.tasks[other].alive;
      assert CancelCall(s, [], v);
    }
  }

  lemma RunsCons(s: State, step: Step, rest: seq<Step>, t: State)
    requires Enabled(s, step) && Runs(Next(s, step), rest, t)
    ensures Runs(s, [step] + rest, t)
  {
    assert ([step] + rest)[1..] == rest;
  }

  // One dictation ended, and its task live.
  lemma OneSpawned(a: TurnId) returns (s: State)
    ensures exists steps :: Runs(INITIAL, steps, s)
    ensures s.tasks == [PostTask(a, true)] && s.handle == Some(0) && s.cancels == [] && s.finish == Idle
  {
    var s1 := Next(INITIAL, Start(a, true));
    var s2 := Next(s1, FinishBegins);
    s := Next(s2, FinishSpawns);
    assert Runs(s, [], s);
    RunsCons(s2, FinishSpawns, [], s);
    RunsCons(s1, FinishBegins, [FinishSpawns] + [], s);
    RunsCons(INITIAL, Start(a, true), [FinishBegins] + ([FinishSpawns] + []), s);
  }

  lemma {:induction false} RunsSnoc(s: State, steps: seq<Step>, t: State, step: Step)
    requires Runs(s, steps, t) && Enabled(t, step)
    ensures Runs(s, steps + [step], Next(t, step))
    decreases |steps|
  {
    hide Next, Enabled;
    if steps == [] {
      assert (steps + [step])[1..] == [];
    } else {
      RunsSnoc(Next(s, steps[0]), steps[1..], t, step);
      assert (steps + [step])[1..] == steps[1..] + [step];
    }
  }

  // And a cancel waiting for it.
  lemma CancelledOnce(a: TurnId) returns (s: State)
    ensures exists steps :: Runs(INITIAL, steps, s)
    ensures s.tasks == [PostTask(a, true)] && s.handle == None && s.cancels == [0] && s.finish == Idle
  {
    var v := OneSpawned(a);
    var steps :| Runs(INITIAL, steps, v);
    RunsSnoc(INITIAL, steps, v, CancelBegins);
    s := Next(v, CancelBegins);
  }

  // A dictation that ends while a cancel waits, say an eviction's, spawns a task: the cancel returns
  // with a task live that did not exist when it was called.
  lemma SpawnDuringCancel(a: TurnId, b: TurnId) returns (s: State, t: State)
    ensures exists steps :: Runs(INITIAL, steps, s)
    ensures !OtherPending(s) && s.tasks == [PostTask(a, true)]
    ensures CancelCall(s, [Start(b, true), FinishBegins, FinishSpawns, Ends(0)], t) && Enabled(t, CancelReturns(0))
    ensures t.tasks == [PostTask(a, false), PostTask(b, true)]
  {
    s := OneSpawned(a);
    var s1 := Next(s, CancelBegins);
    var s2 := Next(s1, Start(b, true));
    var s3 := Next(s2, FinishBegins);
    var s4 := Next(s3, FinishSpawns);
    t := Next(s4, Ends(0));
    assert Runs(t, [], t);
    RunsCons(s4, Ends(0), [], t);
    RunsCons(s3, FinishSpawns, [Ends(0)] + [], t);
    RunsCons(s2, FinishBegins, [FinishSpawns] + ([Ends(0)] + []), t);
    RunsCons(s1, Start(b, true), [FinishBegins] + ([FinishSpawns] + ([Ends(0)] + [])), t);
    assert [Start(b, true)] + ([FinishBegins] + ([FinishSpawns] + ([Ends(0)] + [])))
        == [Start(b, true), FinishBegins, FinishSpawns, Ends(0)];
  }

  // A second cancel() returns at once although the task is live.
  lemma SecondCancelDoesNotWait(a: TurnId) returns (s: State)
    ensures exists steps :: Runs(INITIAL, steps, s)
    ensures CancelCall(s, [], s) && Alive(s, 0)
  {
    s := CancelledOnce(a);
    assert Next(s, CancelBegins) == s;
  }

  // A dictation that ends while a cancel, say of an eviction, waits for the task it took spawns a
  // second live task.
  lemma OverlapLeavesTwoLive(a: TurnId, b: TurnId) returns (s: State)
    ensures exists before, steps ::
              Runs(INITIAL, steps, before) && Runs(before, [Start(b, true), FinishBegins, FinishSpawns], s)
    ensures s.tasks == [PostTask(a, true), PostTask(b, true)]
  {
    var s0 := CancelledOnce(a);
    var s1 := Next(s0, Start(b, true));
    var s2 := Next(s1, FinishBegins);
    s := Next(s2, FinishSpawns);
    assert Runs(s, [], s);
    RunsCons(s2, FinishSpawns, [], s);
    RunsCons(s1, FinishBegins, [FinishSpawns] + [], s);
    RunsCons(s0, Start(b, true), [FinishBegins] + ([FinishSpawns] + []), s);
    assert [Start(b, true)] + ([FinishBegins] + ([FinishSpawns] + [])) == [Start(b, true), FinishBegins, FinishSpawns];
  }
}
