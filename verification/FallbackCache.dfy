/** The cached fallback recogniser: a background prewarm and any number of transcriptions race to
    fill one cell. One step is what runs between two awaits. */
module FallbackCache {
  import opened Options

  datatype Maker = ByPrewarm | ByTranscribe

  datatype Phase = Loading | Ready | Failed | Closing | Down

  // A recogniser instance that create_stt returned.
  datatype Instance = Instance(maker: Maker, phase: Phase)

  datatype State = State(
    cell: Option<nat>,            // _fallback_stt
    prewarm: Option<nat>,         // the instance of the unfinished _prewarm_task
    scheduled: bool,              // a prewarm task is created and has not run yet
    instances: seq<Instance>,
    written: seq<nat>,            // every write of the cell, in order
    used: seq<(nat, bool)>)       // instances used to transcribe, and whether they were ready

  const INITIAL: State := State(None, None, false, [], [], [])

  datatype Step =
    | SchedulePrewarm
    | PrewarmRuns
    | PrewarmLoaded
    | PrewarmLoadFails
    | PrewarmClosed              // its shutdown of the losing instance is over
    | Transcribe                 // enters transcribe()
    | ColdLoaded(id: nat)        // a transcription's own load is over; it goes on to use the cell
    | ColdLoadFails(id: nat)

  predicate InPhase(s: State, id: nat, maker: Maker, phase: Phase) {
    id < |s.instances| && s.instances[id] == Instance(maker, phase)
  }

  predicate Enabled(s: State, step: Step) {
    match step
    case SchedulePrewarm => true
    case PrewarmRuns => s.scheduled
    case PrewarmLoaded => s.prewarm.Some? && InPhase(s, s.prewarm.value, ByPrewarm, Loading)
    case PrewarmLoadFails => s.prewarm.Some? && InPhase(s, s.prewarm.value, ByPrewarm, Loading)
    case PrewarmClosed => s.prewarm.Some? && InPhase(s, s.prewarm.value, ByPrewarm, Closing)
    case Transcribe => true
    case ColdLoaded(id) => InPhase(s, id, ByTranscribe, Loading) && s.cell.Some?
    case ColdLoadFails(id) => InPhase(s, id, ByTranscribe, Loading)
  }

  function Set(s: State, id: nat, phase: Phase): State
    requires id < |s.instances|
  {
    s.(instances := s.instances[id := s.instances[id].(phase := phase)])
  }

  function Use(s: State): State
    requires s.cell.Some?
  {
    var id := s.cell.value;
    s.(used := s.used + [(id, id < |s.instances| && s.instances[id].phase == Ready)])
  }

  function Next(s: State, step: Step): State
    requires Enabled(s, step)
  {
    match step
    case SchedulePrewarm =>
      if s.cell.Some? || s.prewarm.Some? || s.scheduled then s else s.(scheduled := true)
    case PrewarmRuns =>
      s.(scheduled := false, prewarm := Some(|s.instances|), instances := s.instances + [Instance(ByPrewarm, Loading)])
    case PrewarmLoaded =>
      var id := s.prewarm.value;
      if s.cell.None? then Set(s, id, Ready).(cell := Some(id), written := s.written + [id], prewarm := None)
      else Set(s, id, Closing)
    case PrewarmLoadFails => Set(s, s.prewarm.value, Failed).(prewarm := None)
    case PrewarmClosed => Set(s, s.prewarm.value, Down).(prewarm := None)
    case Transcribe =>
      if s.cell.Some? then Use(s)
      else
        var id := |s.instances|;
        s.(instances := s.instances + [Instance(ByTranscribe, Loading)], cell := Some(id), written := s.written + [id])
    case ColdLoaded(id) => Use(Set(s, id, Ready))
    case ColdLoadFails(id) => Set(s, id, Failed)
  }

  // ----- invariants -------------------------------------------------------------------------------

  ghost predicate CellInv(s: State) {
    && s.written == (if s.cell.Some? then [s.cell.value] else [])
    && (s.cell.Some? ==> s.cell.value < |s.instances|)
    && (s.prewarm.Some? ==> !s.scheduled && s.prewarm.value < |s.instances|)
  }

  // Where an instance of each kind can be: a cold one is always the cell's; a prewarmed one
  // belongs to the running task until it is cached, closed or failed.
  ghost predicate InstanceInv(s: State, i: nat)
    requires i < |s.instances|
  {
    match s.instances[i].maker
    case ByTranscribe => s.cell == Some(i) && s.prewarm != Some(i) && s.instances[i].phase in {Loading, Ready, Failed}
    case ByPrewarm =>
      match s.instances[i].phase
      case Loading => s.prewarm == Some(i) && s.cell != Some(i)
      case Ready => s.cell == Some(i) && s.prewarm != Some(i)
      case Closing => s.prewarm == Some(i) && s.cell != Some(i)
      case _ => s.prewarm != Some(i) && s.cell != Some(i)
  }

  ghost predicate Inv(s: State) {
    CellInv(s) && forall i | 0 <= i < |s.instances| :: InstanceInv(s, i)
  }

  lemma StepKeeps(s: State, step: Step)
    requires Inv(s) && Enabled(s, step)
    ensures Inv(Next(s, step))
    ensures s.cell.Some? ==> Next(s, step).cell == s.cell
  {
    var t := Next(s, step);
    forall i | 0 <= i < |t.instances| ensures InstanceInv(t, i) {
      if i < |s.instances| {
        assert InstanceInv(s, i);
      }
      if s.prewarm.Some? {
        assert InstanceInv(s, s.prewarm.value);
      }
      if s.cell.Some? {
        assert InstanceInv(s, s.cell.value);
      }
    }
  }

  predicate Runs(s: State, steps: seq<Step>, t: State)
    decreases |steps|
  {
    if steps == [] then s == t else Enabled(s, steps[0]) && Runs(Next(s, steps[0]), steps[1..], t)
  }

  lemma {:induction false} RunKeeps(s: State, steps: seq<Step>, t: State)
    requires Inv(s) && Runs(s, steps, t)
    ensures Inv(t) && (s.cell.Some? ==> t.cell == s.cell)
    decreases |steps|
  {
    hide Inv, Next, Enabled;
    if steps != [] {
      StepKeeps(s, steps[0]);
      RunKeeps(Next(s, steps[0]), steps[1..], t);
    }
  }

  // In every interleaving the cell is written at most once, and what it holds is never replaced.
  lemma WrittenOnce(steps: seq<Step>, s: State, more: seq<Step>, t: State)
    requires Runs(INITIAL, steps, s) && Runs(s, more, t)
    ensures |t.written| <= 1 && s.written <= t.written
    ensures s.cell.Some? ==> t.cell == s.cell
  {
    RunKeeps(INITIAL, steps, s);
    RunKeeps(s, more, t);
  }

  // No instance is lost: once no prewarm runs, each one that a prewarm made is the cached one, or
  // it was shut down, or its load failed; each one that a transcription made is the cached one.
  lemma NoInstanceLost(steps: seq<Step>, t: State, i: nat)
    requires Runs(INITIAL, steps, t) && t.prewarm.None? && i < |t.instances|
    ensures t.cell == Some(i) || (t.instances[i].maker == ByPrewarm && t.instances[i].phase in {Down, Failed})
    ensures t.cell == Some(i) ==> t.instances[i].maker == ByTranscribe || t.instances[i].phase == Ready
  {
    RunKeeps(INITIAL, steps, t);
    assert InstanceInv(t, i);
  }

  // Once a prewarm has loaded, some recogniser is cached: its own, ready, if the cell was empty, and
  // otherwise the one that was there, while its own goes on to be shut down.
  lemma PrewarmCaches(steps: seq<Step>, s: State, more: seq<Step>, t: State)
    requires Runs(INITIAL, steps, s) && Enabled(s, PrewarmLoaded) && Runs(Next(s, PrewarmLoaded), more, t)
    ensures t.cell.Some? && t.cell == if s.cell.None? then s.prewarm else s.cell
    ensures var id := s.prewarm.value;
            && id < |Next(s, PrewarmLoaded).instances|
            && (s.cell.None? <==> Next(s, PrewarmLoaded).instances[id].phase == Ready)
            && (s.cell.Some? <==> Next(s, PrewarmLoaded).instances[id].phase == Closing)
  {
    hide Inv;
    InitialInv();
    RunKeeps(INITIAL, steps, s);
    StepKeeps(s, PrewarmLoaded);
    RunKeeps(Next(s, PrewarmLoaded), more, t);
  }

  lemma InitialInv()
    ensures Inv(INITIAL)
  {
  }

  // A prewarm is scheduled exactly when the cell is empty and none is scheduled or running.
  lemma ScheduleIff(s: State)
    ensures var t := Next(s, SchedulePrewarm);
            && (t.scheduled <==> s.scheduled || (s.cell.None? && s.prewarm.None?))
            && t == s.(scheduled := t.scheduled)
  {
  }

  lemma StepReadies(s: State, step: Step, id: nat)
    requires Inv(s) && Enabled(s, step) && id < |s.instances|
    ensures var t := Next(s, step);
            id < |t.instances| && t.instances[id].maker == s.instances[id].maker
            && (s.instances[id].maker == ByTranscribe ==>
                  (t.instances[id].phase == Ready <==> s.instances[id].phase == Ready || step == ColdLoaded(id)))
  {
    assert InstanceInv(s, id);
    if s.prewarm.Some? {
      assert InstanceInv(s, s.prewarm.value);
    }
  }

  // An instance that a transcription made is ready once that transcription's load has succeeded.
  lemma {:induction false} ColdReadyIff(s: State, steps: seq<Step>, t: State, id: nat)
    requires Inv(s) && Runs(s, steps, t) && id < |t.instances| && t.instances[id].maker == ByTranscribe
    ensures t.instances[id].phase == Ready <==>
            (id < |s.instances| && s.instances[id].phase == Ready) || ColdLoaded(id) in steps
    decreases |steps|
  {
    hide Inv;
    if steps != [] {
      var v := Next(s, steps[0]);
      StepKeeps(s, steps[0]);
      ColdReadyIff(v, steps[1..], t, id);
      assert steps == [steps[0]] + steps[1..];
      if id < |s.instances| {
        StepReadies(s, steps[0], id);
        MakerStays(v, steps[1..], t, id);
      } else {
        NotReadyYet(s, steps[0], id);
      }
    }
  }

  lemma {:induction false} MakerStays(s: State, steps: seq<Step>, t: State, id: nat)
    requires Inv(s) && Runs(s, steps, t) && id < |s.instances|
    ensures id < |t.instances| && t.instances[id].maker == s.instances[id].maker
    decreases |steps|
  {
    hide Inv;
    if steps != [] {
      StepKeeps(s, steps[0]);
      StepReadies(s, steps[0], id);
      MakerStays(Next(s, steps[0]), steps[1..], t, id);
    }
  }

  lemma NotReadyYet(s: State, step: Step, id: nat)
    requires Enabled(s, step) && id >= |s.instances|
    ensures step != ColdLoaded(id)
    ensures id < |Next(s, step).instances| ==> Next(s, step).instances[id].phase != Ready
  {
  }

  // A transcription that finds a cached recogniser uses a ready one exactly when a prewarm made it,
  // or the load of the transcription that published it has succeeded earlier in the run.
  lemma CachedUseReadyIff(steps: seq<Step>, s: State)
    requires Runs(INITIAL, steps, s) && s.cell.Some?
    ensures var used, id := Next(s, Transcribe).used, s.cell.value;
            id < |s.instances|
            && (used[|used| - 1] == (id, true) <==> s.instances[id].maker == ByPrewarm || ColdLoaded(id) in steps)
  {
    RunKeeps(INITIAL, steps, s);
    var id := s.cell.value;
    assert InstanceInv(s, id);
    if s.instances[id].maker == ByTranscribe {
      ColdReadyIff(INITIAL, steps, s, id);
    }
  }

  // The one who loads it always uses it ready.
  lemma LoaderUsesReady(steps: seq<Step>, s: State, id: nat)
    requires Runs(INITIAL, steps, s) && Enabled(s, ColdLoaded(id))
    ensures var used := Next(s, ColdLoaded(id)).used;
            used[|used| - 1] == (id, true)
  {
    RunKeeps(INITIAL, steps, s);
    assert InstanceInv(s, id);
  }

  // Two transcriptions that overlap: the second uses a recogniser that is still loading.
  lemma OverlappingTranscriptions()
    ensures var steps := [Transcribe, Transcribe];
            exists t :: Runs(INITIAL, steps, t) && t.used == [(0, false)]
  {
    var s := Next(INITIAL, Transcribe);
    var t := Next(s, Transcribe);
    assert [Transcribe, Transcribe][1..] == [Transcribe] && [Transcribe][1..] == [];
    assert Runs(t, [], t);
    assert Runs(s, [Transcribe], t);
    assert Runs(INITIAL, [Transcribe, Transcribe], t) && t.used == [(0, false)];
  }
}
