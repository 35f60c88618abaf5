/** Whole runs of the backend protocol: when they are safe throughout, runs of the code that are not,
    and what the server's shutdown leaves. */
module BackendRuns {
  import opened Options
  import opened BackendPool

  ghost predicate Runs(w: World, steps: seq<Step>)
    decreases |steps|
  {
    steps == [] || (Enabled(w, steps[0]) && Runs(Next(w, steps[0]), steps[1..]))
  }

  ghost function Exec(w: World, steps: seq<Step>): World
    requires Runs(w, steps)
    decreases |steps|
  {
    if steps == [] then w else Exec(Next(w, steps[0]), steps[1..])
  }

  ghost predicate AlwaysSafe(w: World, steps: seq<Step>)
    requires Runs(w, steps)
    decreases |steps|
  {
    Safe(w) && (steps != [] ==> AlwaysSafe(Next(w, steps[0]), steps[1..]))
  }

  ghost predicate AllHarmless(w: World, steps: seq<Step>)
    requires Runs(w, steps)
    decreases |steps|
  {
    steps != [] ==> Harmless(w, steps[0]) && AllHarmless(Next(w, steps[0]), steps[1..])
  }

  // Any interleaving of any number of pipelines and engine swaps stays safe throughout exactly when
  // every step of it is harmless.
  lemma {:induction false} RunSafeIff(w: World, steps: seq<Step>)
    requires Safe(w) && Runs(w, steps)
    ensures AlwaysSafe(w, steps) <==> AllHarmless(w, steps)
    decreases |steps|
  {
    hide Safe, Harmless, Next, Enabled;
    if steps != [] {
      StepSafeIff(w, steps[0]);
      if Harmless(w, steps[0]) {
        RunSafeIff(Next(w, steps[0]), steps[1..]);
      } else {
        UnsafeNow(Next(w, steps[0]), steps[1..]);
      }
    }
  }

  lemma UnsafeNow(w: World, steps: seq<Step>)
    requires Runs(w, steps) && !Safe(w)
    ensures !AlwaysSafe(w, steps)
  {
    hide Safe, Next, Enabled;
  }

  // ----- what the engine serves ------------------------------------------------------------------------

  ghost predicate Serving(w: World) {
    w.engine.Some? ==> w.engine.value < |w.heap| && w.heap[w.engine.value] == Backend(true, 0)
  }

  // The step begins to shut down the backend that the engine goes on using.
  ghost predicate Exposes(w: World, step: Step)
    requires Enabled(w, step)
  {
    match step
    case EngineHit(_, sig) => MustRetire(w.pool, w.engine, w.pool[sig])
    case EngineCommit(j) =>
      var l := w.loading[j];
      w.engine == l.saw && MustRetire(w.pool[l.sig := l.inst], l.saw, l.inst)
    case _ => false
  }

  // While a swap awaits the old backend's shutdown, every turn is served by a backend that is shut
  // down: a harmless step leaves the engine serving exactly when it retires no backend.
  lemma ServingIff(w: World, step: Step)
    requires Safe(w) && Serving(w) && Enabled(w, step) && Harmless(w, step)
    ensures Serving(Next(w, step)) <==> !Exposes(w, step)
  {
    hide Safe, Serving, Next, Enabled, Harmless, MustRetire;
    match step
    case EngineHit(j, sig) => HitServing(w, j, sig);
    case EngineCommit(j) => CommitServing(w, j);
    case EngineTakes(j) => TakesServing(w, j);
    case _ => OthersServe(w, step);
  }

  lemma HitServing(w: World, j: nat, sig: Sig)
    requires Safe(w) && Serving(w) && Enabled(w, EngineHit(j, sig))
    ensures Serving(Next(w, EngineHit(j, sig))) <==> !Exposes(w, EngineHit(j, sig))
  {
    hide InPool, Owned, Taken, IsRetired, NoLeak, SlotsSafe, LoadingSafe, SawsSafe, LateSafe, OrphansSafe, ShutSafe;
  }

  lemma CommitServing(w: World, j: nat)
    requires Safe(w) && Serving(w) && Enabled(w, EngineCommit(j))
    ensures Serving(Next(w, EngineCommit(j))) <==> !Exposes(w, EngineCommit(j))
  {
    LoadingIs(w, j);
    hide InPool, Owned, Taken, IsRetired, NoLeak, PoolSafe, SlotsSafe, LoadingSafe, SawsSafe, LateSafe, OrphansSafe,
         ShutSafe;
  }

  lemma TakesServing(w: World, j: nat)
    requires Safe(w) && Enabled(w, EngineTakes(j))
    ensures Serving(Next(w, EngineTakes(j)))
  {
    hide InPool, Owned, Taken, IsRetired, NoLeak, PoolSafe, SlotsSafe, LoadingSafe, SawsSafe, LateSafe, OrphansSafe,
         ShutSafe;
  }

  // No other step shuts down what is up and no slot's own.
  lemma OthersServe(w: World, step: Step)
    requires Safe(w) && Serving(w) && Enabled(w, step) && Harmless(w, step)
    requires !step.EngineHit? && !step.EngineCommit? && !step.EngineTakes?
    ensures Serving(Next(w, step))
  {
    if w.engine.Some? {
      EngineUnowned(w);
      if step.Release? {
        ReleaseKeeps(w, step.p, w.engine.value);
      } else {
        StepKeepsUp(w, step, w.engine.value);
      }
    } else {
      if step.Release? { ReleaseSameEngine(w, step.p); } else { SameEngine(w, step); }
    }
  }

  lemma EngineUnowned(w: World)
    requires Safe(w) && w.engine.Some?
    ensures !Owned(w.slots, w.engine.value)
  {
    hide Owned, InPool, Taken, IsRetired;
  }

  lemma SameEngine(w: World, step: Step)
    requires Enabled(w, step) && !step.EngineHit? && !step.EngineCommit? && !step.EngineTakes? && !step.Release?
    ensures Next(w, step).engine == w.engine
  {
    hide ShutBackend, BringUp, Siblings, InPool, Enabled;
    match step
    case CallFails(k, isNew) =>
    case _ =>
  }

  lemma ReleaseSameEngine(w: World, p: nat)
    ensures Next(w, Release(p)).engine == w.engine
  {
    hide ReleaseSlot;
    var v := ReleaseSlot(Gone(w, p), SlotKey(p, Stt));
    SlotSameEngine(Gone(w, p), SlotKey(p, Stt));
    SlotSameEngine(v, SlotKey(p, Tts));
    SlotSameEngine(ReleaseSlot(v, SlotKey(p, Tts)), SlotKey(p, Llm));
  }

  lemma SlotSameEngine(w: World, k: SlotKey)
    ensures ReleaseSlot(w, k).engine == w.engine
  {
    hide ShutBackend, ShutSlot, ShutOrphan;
    if k in w.slots { ShutSlotEngine(w, k); }
    if k in w.orphans { ShutOrphanEngine(w, k); }
  }

  lemma ShutSlotEngine(w: World, k: SlotKey)
    requires k in w.slots
    ensures ShutSlot(w, k).engine == w.engine
  {
    hide ShutBackend;
  }

  lemma ShutOrphanEngine(w: World, k: SlotKey)
    requires k in w.orphans
    ensures ShutOrphan(w, k).engine == w.engine
  {
    hide ShutBackend;
  }

  lemma StepKeepsUp(w: World, step: Step, id: nat)
    requires Safe(w) && Enabled(w, step) && Harmless(w, step)
    requires !step.EngineHit? && !step.EngineCommit? && !step.EngineTakes? && !step.Release?
    requires id < |w.heap| && w.heap[id] == Backend(true, 0) && !Owned(w.slots, id)
    ensures var v := Next(w, step); v.engine == w.engine && id < |v.heap| && v.heap[id] == w.heap[id]
  {
    hide Safe, InPool, Siblings, KeyIsFree, Detach, Owned;
    match step
    case Close(k) => DetachKeeps(w, k, id);
    case Acquire(k, sig) => if k in w.slots { DetachKeeps(w, k, id); }
    case _ =>
  }

  lemma DetachKeeps(w: World, k: SlotKey, id: nat)
    requires k in w.slots && !Owned(w.slots, id)
    ensures var v := Detach(w, k);
            && v.engine == w.engine && v.pool == w.pool && |v.heap| == |w.heap|
            && (id < |w.heap| ==> v.heap[id] == w.heap[id])
  {
    SlotOwns(w, k);
  }

  lemma ReleaseSlotKeeps(w: World, k: SlotKey, id: nat)
    requires Safe(w) && NotShutYet(w, k) && id < |w.heap| && w.heap[id].up && !Owned(w.slots, id)
    ensures var v := ReleaseSlot(w, k);
            v.engine == w.engine && id < |v.heap| && v.heap[id] == w.heap[id] && !Owned(v.slots, id)
  {
    if k in w.slots {
      SlotOwns(w, k);
      OwnedLess(w.slots, k, id);
    } else if k in w.orphans {
      OrphanIsNew(w, k, 1);
    }
    hide Safe, Owned;
  }

  lemma OwnedLess(slots: map<SlotKey, Slot>, k: SlotKey, id: nat)
    requires !Owned(slots, id)
    ensures !Owned(slots - {k}, id)
  {
  }

  lemma ReleaseKeeps(w: World, p: nat, id: nat)
    requires Safe(w) && Harmless(w, Release(p)) && id < |w.heap| && w.heap[id].up && !Owned(w.slots, id)
    ensures var v := Next(w, Release(p)); v.engine == w.engine && id < |v.heap| && v.heap[id] == w.heap[id]
  {
    hide Safe, ReleaseSlot, NotShutYet, Owned;
    var stt, tts, llm := SlotKey(p, Stt), SlotKey(p, Tts), SlotKey(p, Llm);
    var g := Gone(w, p);
    GoneSafe(w, p);
    AllNotShut(w, p);
    OneReleased(g, stt, tts, llm);
    ReleaseSlotKeeps(g, stt, id);
    var v := ReleaseSlot(g, stt);
    OneReleased(v, tts, llm, llm);
    ReleaseSlotKeeps(v, tts, id);
    ReleaseSlotKeeps(ReleaseSlot(v, tts), llm, id);
  }

  // ----- runs that break it ----------------------------------------------------------------------------

  ghost predicate Leads(w: World, step: Step, v: World) { Enabled(w, step) && Next(w, step) == v }

  lemma {:induction false} Chain(steps: seq<Step>, worlds: seq<World>)
    requires |worlds| == |steps| + 1
    requires forall i | 0 <= i < |steps| :: Leads(worlds[i], steps[i], worlds[i + 1])
    ensures Runs(worlds[0], steps) && Exec(worlds[0], steps) == worlds[|steps|]
    decreases |steps|
  {
    hide Next, Enabled;
    if steps != [] {
      Chain(steps[1..], worlds[1..]);
    }
  }

  lemma {:induction false} ExecAppend(w: World, first: seq<Step>, second: seq<Step>)
    requires Runs(w, first) && Runs(Exec(w, first), second)
    ensures Runs(w, first + second) && Exec(w, first + second) == Exec(Exec(w, first), second)
    decreases |first|
  {
    hide Next, Enabled;
    if first == [] {
      assert first + second == second;
    } else {
      ExecAppend(Next(w, first[0]), first[1..], second);
      assert (first + second)[1..] == first[1..] + second;
      assert (first + second)[0] == first[0];
    }
  }

  // The world after these parts have changed, with no call of a pipeline in progress.
  ghost function Plain(heap: seq<Backend>, pool: map<Sig, nat>, slots: map<SlotKey, Slot>, engine: nat): World {
    World(heap, pool, slots, Some(engine), map[], map[], {}, map[], map[], {})
  }

  lemma FirstAcquire(k: SlotKey, a: Sig)
    requires k.kind == a.kind
    ensures Enabled(START, Acquire(k, a))
    ensures Next(START, Acquire(k, a))
         == Plain([Backend(true, 0), Backend(false, 0)], map[], map[k := Slot(1, false, Some(a))], 0)
  {
    assert START.shut - {k} == map[];
  }

  // A new pipeline's speech synthesis fails to initialise while its recogniser goes on loading: the
  // pipeline is dropped, the recogniser comes up, and nobody holds it or will ever shut it down.
  lemma FailedInitializeLeaks(a: Sig, b: Sig)
    requires a.kind == Stt && b.kind == Tts
    ensures var p, q := SlotKey(1, Stt), SlotKey(1, Tts);
            var steps := [Acquire(p, a), Acquire(q, b), CallFails(q, true), LateUp(1)];
            Runs(START, steps)
            && Exec(START, steps)
               == Plain([Backend(true, 0), Backend(true, 0), Backend(false, 0)], map[], map[], 0).(gone := {1})
  {
    hide Runs, Exec, InPool, Siblings;
    var p, q := SlotKey(1, Stt), SlotKey(1, Tts);
    var up, down := Backend(true, 0), Backend(false, 0);
    var w1 := Plain([up, down], map[], map[p := Slot(1, false, Some(a))], 0);
    var w2 := Plain([up, down, down], map[], w1.slots[q := Slot(2, false, Some(b))], 0);
    var w3 := Plain([up, down, down], map[], map[], 0).(late := {1}, gone := {1});
    var w4 := Plain([up, up, down], map[], map[], 0).(gone := {1});
    FirstAcquire(p, a);
    assert Leads(START, Acquire(p, a), w1);
    assert Leads(w1, Acquire(q, b), w2);
    OneSibling(w2, p, q);
    assert Leads(w2, CallFails(q, true), w3);
    assert Leads(w3, LateUp(1), w4);
    hide Leads, Next, Enabled;
    Chain([Acquire(p, a), Acquire(q, b), CallFails(q, true), LateUp(1)], [START, w1, w2, w3, w4]);
  }

  lemma OneSibling(w: World, p: SlotKey, q: SlotKey)
    requires w.slots.Keys == {p, q} && p != q && p.pipeline == q.pipeline && Waiting(w, p) && w.orphans == map[]
    ensures Siblings(w, q) == {w.slots[p].inst}
  {
  }

  lemma OneSlotReleased(w: World, p: nat)
    requires w.slots.Keys <= {SlotKey(p, Stt)} && w.shut.Keys <= {SlotKey(p, Stt)} && w.orphans == map[]
    ensures Next(w, Release(p)) == ReleaseSlot(Gone(w, p), SlotKey(p, Stt))
  {
    hide ReleaseSlot;
    var g := Gone(w, p);
    var v := ReleaseSlot(g, SlotKey(p, Stt));
    OnlyStt(g, SlotKey(p, Stt));
    NothingReleased(v, SlotKey(p, Tts));
    NothingReleased(v, SlotKey(p, Llm));
  }

  lemma OnlyStt(w: World, k: SlotKey)
    requires w.slots.Keys <= {k} && w.shut.Keys <= {k} && w.orphans == map[]
    ensures var v := ReleaseSlot(w, k); v.slots.Keys <= {k} && v.shut.Keys <= {k} && v.orphans.Keys <= {k}
  {
    hide ShutBackend;
  }

  lemma NothingReleased(w: World, k: SlotKey)
    requires k !in w.slots && k !in w.shut && k !in w.orphans
    ensures ReleaseSlot(w, k) == w
  {
  }

  // A pipeline is shut down, without the lock, while a backend it asked for is initialising; the call
  // then registers a backend that has been shut down.
  lemma ShutdownDuringCallPoisonsPool(a: Sig)
    requires a.kind == Stt
    ensures var k := SlotKey(1, Stt);
            var steps := [Acquire(k, a), Release(1), OrphanCommit(k)];
            Runs(START, steps)
            && Exec(START, steps) == Plain([Backend(true, 0), Backend(true, 1)], map[a := 1], map[], 0).(gone := {1})
  {
    hide Runs, Exec, InPool, Siblings;
    var k, up := SlotKey(1, Stt), Backend(true, 0);
    var w1 := Plain([up, Backend(false, 0)], map[], map[k := Slot(1, false, Some(a))], 0);
    var w2 := Plain([up, Backend(false, 1)], map[], map[], 0)
              .(orphans := map[k := Orphan(1, a)], shut := map[k := 1], gone := {1});
    var w3 := Plain([up, Backend(true, 1)], map[a := 1], map[], 0).(gone := {1});
    FirstAcquire(k, a);
    assert Leads(START, Acquire(k, a), w1);
    OneSlotReleased(w1, 1);
    assert Leads(w1, Release(1), w2);
    assert Leads(w2, OrphanCommit(k), w3);
    hide Leads, Next, Enabled;
    Chain([Acquire(k, a), Release(1), OrphanCommit(k)], [START, w1, w2, w3]);
  }

  // A swap has failed, so the slot owns a backend; the next swap begins to shut it down, and in that
  // await an eviction shuts it down again.
  lemma ShutdownDuringCloseRepeats(a: Sig)
    requires a.kind == Stt
    ensures var k := SlotKey(1, Stt);
            var steps := [Acquire(k, a), CallFails(k, false), Close(k), Release(1)];
            Runs(START, steps) && |Exec(START, steps).heap| == 2 && Exec(START, steps).heap[1].shutdowns == 2
  {
    hide Runs, Exec, InPool, Siblings;
    var k, up := SlotKey(1, Stt), Backend(true, 0);
    var w1 := Plain([up, Backend(false, 0)], map[], map[k := Slot(1, false, Some(a))], 0);
    var w2 := Plain([up, Backend(false, 0)], map[], map[k := Slot(1, false, None)], 0);
    var w3 := Plain([up, Backend(false, 1)], map[], map[], 0).(shut := map[k := 1]);
    var w4 := Plain([up, Backend(false, 2)], map[], map[], 0).(shut := map[k := 1], gone := {1});
    FirstAcquire(k, a);
    assert Leads(START, Acquire(k, a), w1);
    NoSibling(w1, k);
    hide Harmless;
    assert Leads(w1, CallFails(k, false), w2);
    SlotCloses(w2, k);
    assert Leads(w2, Close(k), w3);
    ReleasedAgain(w3, k);
    assert Leads(w3, Release(1), w4);
    hide Leads, Next, Enabled;
    Chain([Acquire(k, a), CallFails(k, false), Close(k), Release(1)], [START, w1, w2, w3, w4]);
  }

  lemma SlotCloses(w: World, k: SlotKey)
    requires w.slots == map[k := Slot(1, false, None)] && w.shut == map[] && w.gone == {} && |w.heap| >= 2
    ensures Leads(w, Close(k), w.(heap := ShutBackend(w.heap, 1), slots := map[], shut := map[k := 1]))
  {
    hide ShutBackend;
    assert w.slots - {k} == map[];
  }

  lemma ReleasedAgain(w: World, k: SlotKey)
    requires k == SlotKey(1, Stt) && w.slots == map[] && w.shut == map[k := 1] && w.orphans == map[] && w.gone == {}
    ensures Leads(w, Release(1), w.(heap := ShutBackend(w.heap, 1), gone := {1}))
  {
    hide ShutBackend;
    OneSlotReleased(w, 1);
  }

  lemma NoSibling(w: World, k: SlotKey)
    requires w.slots.Keys == {k} && w.orphans == map[]
    ensures Siblings(w, k) == {}
  {
  }

  // One pooled backend, and an engine that still has its own.
  lemma OnePooled(k: SlotKey, a: Sig) returns (w: World)
    requires k.kind == a.kind
    ensures w == Plain([Backend(true, 0), Backend(true, 0)], map[a := 1], map[k := Slot(1, true, None)], 0)
    ensures Runs(START, [Acquire(k, a), Commit(k)]) && Exec(START, [Acquire(k, a), Commit(k)]) == w
  {
    hide Runs, Exec, InPool, Siblings;
    var up := Backend(true, 0);
    var w1 := Plain([up, Backend(false, 0)], map[], map[k := Slot(1, false, Some(a))], 0);
    w := Plain([up, up], map[a := 1], map[k := Slot(1, true, None)], 0);
    FirstAcquire(k, a);
    assert Leads(START, Acquire(k, a), w1);
    assert Leads(w1, Commit(k), w);
    hide Leads, Next, Enabled;
    Chain([Acquire(k, a), Commit(k)], [START, w1, w]);
  }

  lemma FirstRetires(w: World, a: Sig)
    requires w.pool == map[a := 1] && w.engine == Some(0) && w.retiring == map[] && w.loading == map[] && |w.heap| >= 2
    ensures Leads(w, EngineHit(0, a), w.(heap := ShutBackend(w.heap, 0), retiring := map[0 := Retiring(0, 1)]))
  {
    hide InPool;
    OneEntry(a, 1, 0);
  }

  lemma RetirementEnds(w: World, next: nat)
    requires w.retiring == map[0 := Retiring(0, next)]
    ensures Leads(w, EngineTakes(0), w.(engine := Some(next), retiring := map[]))
    ensures Leads(w, EngineAborts(0), w.(retiring := map[]))
  {
    assert w.retiring - {0} == map[];
  }

  // The engine's swap awaits the shutdown of its first backend, and a second swap in that await shuts
  // it down again.
  lemma SwapDuringRetirementRepeats(a: Sig)
    requires a.kind == Llm
    ensures var k := SlotKey(1, Llm);
            var steps := [Acquire(k, a), Commit(k)] + [EngineHit(0, a), EngineHit(1, a)];
            Runs(START, steps) && |Exec(START, steps).heap| == 2 && Exec(START, steps).heap[0].shutdowns == 2
  {
    hide Runs, Exec, InPool, Siblings;
    var k, up := SlotKey(1, Llm), Backend(true, 0);
    var w := OnePooled(k, a);
    var w1 := w.(heap := [Backend(false, 1), up], retiring := map[0 := Retiring(0, 1)]);
    var w2 := w.(heap := [Backend(false, 2), up], retiring := map[0 := Retiring(0, 1), 1 := Retiring(0, 1)]);
    OneEntry(a, 1, 0);
    FirstRetires(w, a);
    assert Leads(w, EngineHit(0, a), w1);
    assert Leads(w1, EngineHit(1, a), w2);
    hide Leads, Next, Enabled;
    Chain([EngineHit(0, a), EngineHit(1, a)], [w, w1, w2]);
    ExecAppend(START, [Acquire(k, a), Commit(k)], [EngineHit(0, a), EngineHit(1, a)]);
  }

  lemma OneEntry(a: Sig, id: nat, other: nat)
    requires id != other
    ensures !InPool(map[a := id], other) && InPool(map[a := id], id)
  {
    assert map[a := id][a] == id;
  }

  // A swap that is cancelled in that await leaves the engine on a backend that is shut down.
  lemma CancelledSwapLeavesDeadEngine(a: Sig)
    requires a.kind == Llm
    ensures var k := SlotKey(1, Llm);
            var steps := [Acquire(k, a), Commit(k)] + [EngineHit(0, a), EngineAborts(0)];
            Runs(START, steps)
            && Exec(START, steps)
               == Plain([Backend(false, 1), Backend(true, 0)], map[a := 1], map[k := Slot(1, true, None)], 0)
  {
    hide Runs, Exec, InPool, Siblings;
    var k, up := SlotKey(1, Llm), Backend(true, 0);
    var w := OnePooled(k, a);
    var w1 := w.(heap := [Backend(false, 1), up], retiring := map[0 := Retiring(0, 1)]);
    var w2 := w.(heap := [Backend(false, 1), up]);
    FirstRetires(w, a);
    assert Leads(w, EngineHit(0, a), w1);
    RetirementEnds(w1, 1);
    assert Leads(w1, EngineAborts(0), w2);
    hide Leads, Next, Enabled;
    Chain([EngineHit(0, a), EngineAborts(0)], [w, w1, w2]);
    ExecAppend(START, [Acquire(k, a), Commit(k)], [EngineHit(0, a), EngineAborts(0)]);
  }

  // Two connections swap the engine at the same time; both saw the same old backend, and it is
  // shut down twice, even if the first swap is over when the second one registers.
  lemma ConcurrentEngineSwapsUnsafe(a: Sig, b: Sig)
    requires a != b
    ensures var steps := [EngineBegin(0, a), EngineBegin(1, b), EngineCommit(0), EngineTakes(0), EngineCommit(1)];
            Runs(START, steps) && |Exec(START, steps).heap| == 3 && Exec(START, steps).heap[0].shutdowns == 2
  {
    hide Runs, Exec, InPool, Siblings;
    var up, off := Backend(true, 0), Backend(false, 0);
    var w1 := Plain([up, off], map[], map[], 0).(loading := map[0 := Loading(1, a, Some(0))]);
    var w2 := Plain([up, off, off], map[], map[], 0).(loading := w1.loading[1 := Loading(2, b, Some(0))]);
    var w3 := Plain([Backend(false, 1), up, off], map[a := 1], map[], 0)
              .(loading := map[1 := Loading(2, b, Some(0))], retiring := map[0 := Retiring(0, 1)]);
    var w4 := w3.(engine := Some(1), retiring := map[]);
    var w5 := Plain([Backend(false, 2), up, up], map[a := 1, b := 2], map[], 1).(retiring := map[1 := Retiring(0, 2)]);
    assert Leads(START, EngineBegin(0, a), w1);
    assert Leads(w1, EngineBegin(1, b), w2);
    FirstCommits(w2, w3, a, b);
    RetirementEnds(w3, 1);
    assert Leads(w3, EngineTakes(0), w4);
    TwoEntries(a, b);
    assert w4.loading - {1} == map[];
    assert Leads(w4, EngineCommit(1), w5);
    hide Leads, Next, Enabled;
    Chain([EngineBegin(0, a), EngineBegin(1, b), EngineCommit(0), EngineTakes(0), EngineCommit(1)],
          [START, w1, w2, w3, w4, w5]);
  }

  lemma FirstCommits(w: World, v: World, a: Sig, b: Sig)
    requires w == Plain([Backend(true, 0), Backend(false, 0), Backend(false, 0)], map[], map[], 0)
                  .(loading := map[0 := Loading(1, a, Some(0)), 1 := Loading(2, b, Some(0))])
    requires v == Plain([Backend(false, 1), Backend(true, 0), Backend(false, 0)], map[a := 1], map[], 0)
                  .(loading := map[1 := Loading(2, b, Some(0))], retiring := map[0 := Retiring(0, 1)])
    ensures Leads(w, EngineCommit(0), v)
  {
    hide InPool;
    OneEntry(a, 1, 0);
    assert w.loading - {0} == v.loading;
  }

  lemma TwoEntries(a: Sig, b: Sig)
    requires a != b
    ensures !InPool(map[a := 1, b := 2], 0)
  {
  }

  // Two pipelines miss the same LLM signature together.  The second registration overwrites the
  // first, and the engine then shuts down a backend that the first pipeline is still using.
  lemma ConcurrentMissesUnsafe(a: Sig, b: Sig)
    requires a.kind == Llm && b.kind == Llm && a != b
    ensures var p, q := SlotKey(1, Llm), SlotKey(2, Llm);
            var steps := [Acquire(p, a), Acquire(q, a), Commit(p), EngineHit(0, a), EngineTakes(0)]
                         + [Commit(q), EngineBegin(0, b), EngineCommit(0)];
            && Runs(START, steps)
            && p in Exec(START, steps).slots && Exec(START, steps).slots[p] == Slot(1, true, None)
            && |Exec(START, steps).heap| == 4 && Exec(START, steps).heap[1] == Backend(false, 1)
  {
    var p, q := SlotKey(1, Llm), SlotKey(2, Llm);
    var w := BothMiss(p, q, a);
    SecondCommit(w, p, q, a, b);
    hide Next, Enabled, Exec, Runs;
    ExecAppend(START, [Acquire(p, a), Acquire(q, a), Commit(p), EngineHit(0, a), EngineTakes(0)],
               [Commit(q), EngineBegin(0, b), EngineCommit(0)]);
  }

  lemma BothMiss(p: SlotKey, q: SlotKey, a: Sig) returns (w: World)
    requires p.kind == q.kind == a.kind == Llm && p != q
    ensures w == Plain([Backend(false, 1), Backend(true, 0), Backend(false, 0)], map[a := 1],
                       map[p := Slot(1, true, None), q := Slot(2, false, Some(a))], 1)
    ensures var steps := [Acquire(p, a), Acquire(q, a), Commit(p), EngineHit(0, a), EngineTakes(0)];
            Runs(START, steps) && Exec(START, steps) == w
  {
    hide Runs, Exec, InPool, Siblings;
    var up, off := Backend(true, 0), Backend(false, 0);
    var w1 := Plain([up, off], map[], map[p := Slot(1, false, Some(a))], 0);
    var w2 := Plain([up, off, off], map[], w1.slots[q := Slot(2, false, Some(a))], 0);
    var w3 := Plain([up, up, off], map[a := 1], w2.slots[p := Slot(1, true, None)], 0);
    var w4 := w3.(heap := [Backend(false, 1), up, off], retiring := map[0 := Retiring(0, 1)]);
    w := w3.(heap := [Backend(false, 1), up, off], engine := Some(1));
    FirstAcquire(p, a);
    assert Leads(START, Acquire(p, a), w1);
    assert Leads(w1, Acquire(q, a), w2);
    assert Leads(w2, Commit(p), w3);
    FirstRetires(w3, a);
    assert Leads(w3, EngineHit(0, a), w4);
    RetirementEnds(w4, 1);
    assert Leads(w4, EngineTakes(0), w);
    hide Leads, Next, Enabled;
    Chain([Acquire(p, a), Acquire(q, a), Commit(p), EngineHit(0, a), EngineTakes(0)], [START, w1, w2, w3, w4, w]);
  }

  lemma SecondCommit(w: World, p: SlotKey, q: SlotKey, a: Sig, b: Sig)
    requires p.kind == q.kind == a.kind == b.kind == Llm && p != q && a != b
    requires w == Plain([Backend(false, 1), Backend(true, 0), Backend(false, 0)], map[a := 1],
                        map[p := Slot(1, true, None), q := Slot(2, false, Some(a))], 1)
    ensures var steps := [Commit(q), EngineBegin(0, b), EngineCommit(0)];
            && Runs(w, steps) && p in Exec(w, steps).slots && Exec(w, steps).slots[p] == Slot(1, true, None)
            && |Exec(w, steps).heap| == 4 && Exec(w, steps).heap[1] == Backend(false, 1)
  {
    hide Runs, Exec, InPool, Siblings;
    var up, down := Backend(true, 0), Backend(false, 1);
    var w5 := w.(heap := [down, up, up], pool := map[a := 2], slots := w.slots[q := Slot(2, true, None)]);
    var w6 := w5.(heap := [down, up, up, Backend(false, 0)], loading := map[0 := Loading(3, b, Some(1))]);
    var w7 := w5.(heap := [down, down, up, up], pool := map[a := 2, b := 3], retiring := map[0 := Retiring(1, 3)]);
    assert Leads(w, Commit(q), w5);
    assert Leads(w5, EngineBegin(0, b), w6);
    LastCommits(w6, w7, a, b);
    hide Leads, Next, Enabled;
    Chain([Commit(q), EngineBegin(0, b), EngineCommit(0)], [w, w5, w6, w7]);
  }

  lemma LastCommits(w: World, v: World, a: Sig, b: Sig)
    requires a != b && w.pool == map[a := 2] && w.retiring == map[] && w.loading == map[0 := Loading(3, b, Some(1))]
    requires w.heap == [Backend(false, 1), Backend(true, 0), Backend(true, 0), Backend(false, 0)]
    requires v == w.(heap := [Backend(false, 1), Backend(false, 1), Backend(true, 0), Backend(true, 0)],
                     pool := map[a := 2, b := 3], loading := map[], retiring := map[0 := Retiring(1, 3)])
    ensures Leads(w, EngineCommit(0), v)
  {
    hide InPool;
    assert w.loading - {0} == map[];
    NotOne(a, b);
  }

  lemma NotOne(a: Sig, b: Sig)
    requires a != b
    ensures map[a := 2][b := 3] == map[a := 2, b := 3] && !InPool(map[a := 2, b := 3], 1)
  {
  }

  // ----- what a failure or a shutdown leads to -----------------------------------------------------------

  // A shutdown keeps the world safe whatever becomes of the call it interrupts, exactly when it
  // interrupts no gather.
  lemma ReleaseSafeIff(w: World, p: nat)
    requires Safe(w) && Harmless(w, Release(p)) && forall k | k in w.orphans :: k.pipeline != p
    ensures var v := Next(w, Release(p));
            Safe(v)
            && ((forall kind :: MayCommit(v, SlotKey(p, kind))) <==> (forall kind :: !Waiting(w, SlotKey(p, kind))))
  {
    hide Safe, ReleaseSlot;
    StepSafeIff(w, Release(p));
    var v := Next(w, Release(p));
    forall kind ensures MayCommit(v, SlotKey(p, kind)) <==> !Waiting(w, SlotKey(p, kind)) {
      ReleasedOrphan(w, p, SlotKey(p, kind));
      if SlotKey(p, kind) in v.orphans {
        StepSafeIff(v, OrphanCommit(SlotKey(p, kind)));
      }
    }
  }

  ghost predicate MayCommit(w: World, k: SlotKey) {
    k in w.orphans ==> Safe(Next(w, OrphanCommit(k)))
  }

  lemma ReleasedOrphan(w: World, p: nat, k: SlotKey)
    requires k.pipeline == p && forall k | k in w.orphans :: k.pipeline != p
    requires Safe(w)
    ensures var v := Next(w, Release(p));
            (k in v.orphans <==> Waiting(w, k)) && (Waiting(w, k) ==> k in v.shut)
  {
    hide Safe, ReleaseSlot, Waiting, Gone;
    WaitingUnpooled(w, k);
    GoneElse(w, p);
    var stt, tts, llm := SlotKey(p, Stt), SlotKey(p, Tts), SlotKey(p, Llm);
    var g := Gone(w, p);
    var v := ReleaseSlot(g, stt);
    var u := ReleaseSlot(v, tts);
    SameWaiting(w, p, k);
    match k.kind {
      case Stt => ReleasedHere(g, stt); ReleasedElse(v, tts, stt); ReleasedElse(u, llm, stt);
      case Tts => ReleasedElse(g, stt, tts); ReleasedHere(v, tts); ReleasedElse(u, llm, tts);
      case Llm => ReleasedElse(g, stt, llm); ReleasedElse(v, tts, llm); ReleasedHere(u, llm);
    }
  }

  lemma WaitingUnpooled(w: World, k: SlotKey)
    requires Safe(w)
    ensures Waiting(w, k) ==> k in w.slots && !w.slots[k].pooled
  {
    if Waiting(w, k) { WaitingSlot(w, k); }
  }

  lemma GoneElse(w: World, p: nat)
    ensures var g := Gone(w, p); g.slots == w.slots && g.orphans == w.orphans && g.shut == w.shut
  {
  }

  lemma SameWaiting(w: World, p: nat, k: SlotKey)
    ensures Waiting(Gone(w, p), k) <==> Waiting(w, k)
  {
  }

  lemma ReleasedHere(w: World, k: SlotKey)
    requires Waiting(w, k) ==> !w.slots[k].pooled
    ensures var v := ReleaseSlot(w, k);
            (k in v.orphans <==> k in w.orphans || Waiting(w, k)) && (Waiting(w, k) ==> k in v.shut)
  {
    hide ShutBackend;
  }

  lemma ReleasedElse(w: World, k: SlotKey, l: SlotKey)
    requires l != k
    ensures var v := ReleaseSlot(w, k);
            && (l in v.orphans <==> l in w.orphans) && (l in w.shut ==> l in v.shut)
            && (l in w.slots <==> l in v.slots) && (l in w.slots ==> v.slots[l] == w.slots[l])
            && (Waiting(v, l) <==> Waiting(w, l))
  {
    hide ReleaseSlot;
    ElseOrphans(w, k, l);
    ElseSlots(w, k, l);
  }

  lemma ElseOrphans(w: World, k: SlotKey, l: SlotKey)
    requires l != k
    ensures var v := ReleaseSlot(w, k); (l in v.orphans <==> l in w.orphans) && (l in w.shut ==> l in v.shut)
  {
    hide ShutSlot, ShutOrphan, ShutBackend;
    if k in w.slots { ShutSlotElse(w, k, l); }
    if k in w.orphans { ShutOrphanElse(w, k, l); }
  }

  lemma ShutSlotElse(w: World, k: SlotKey, l: SlotKey)
    requires l != k && k in w.slots
    ensures var v := ShutSlot(w, k); (l in v.orphans <==> l in w.orphans) && (l in w.shut ==> l in v.shut)
  {
    hide ShutBackend;
  }

  lemma ShutOrphanElse(w: World, k: SlotKey, l: SlotKey)
    requires l != k && k in w.orphans
    ensures var v := ShutOrphan(w, k); (l in v.orphans <==> l in w.orphans) && (l in w.shut ==> l in v.shut)
  {
    hide ShutBackend;
  }

  lemma ElseSlots(w: World, k: SlotKey, l: SlotKey)
    requires l != k
    ensures var v := ReleaseSlot(w, k); (l in w.slots <==> l in v.slots) && (l in w.slots ==> v.slots[l] == w.slots[l])
  {
    hide ShutBackend;
    assert l in w.slots <==> l in w.slots - {k};
  }

  // What each step is for, whatever it does to safety: a lookup ends with the pool's backend or a new one
  // that waits for its key, a registration with the key in the pool, a swap with the new backend in the
  // engine or about to be, a shutdown with no slot of the pipeline left and no other slot changed.
  ghost predicate Serves(w: World, step: Step, v: World)
    requires Enabled(w, step)
  {
    match step
    case Acquire(k, sig) =>
      && k in v.slots && v.pool == w.pool
      && v.slots[k] == if sig in w.pool then Slot(w.pool[sig], true, None) else Slot(|w.heap|, false, Some(sig))
    case Commit(k) =>
      var sig, id := w.slots[k].pending.value, w.slots[k].inst;
      && sig in v.pool && v.pool[sig] == id && k in v.slots && v.slots[k] == Slot(id, true, None)
      && id < |v.heap| && v.heap[id].up
    case LateUp(id) => id !in v.late && id < |v.heap| && v.heap[id].up
    case LateFails(id) => v == w.(late := w.late - {id})
    case Release(p) =>
      && p in v.gone && v.pool == w.pool && v.engine == w.engine
      && v.slots == w.slots - {SlotKey(p, Stt), SlotKey(p, Tts), SlotKey(p, Llm)}
    case EngineHit(j, sig) => EngineGets(w, v, j, w.pool[sig])
    case EngineCommit(j) =>
      && j !in v.loading && w.loading[j].sig in v.pool && v.pool[w.loading[j].sig] == w.loading[j].inst
      && EngineGets(w, v, j, w.loading[j].inst)
    case EngineTakes(j) => v.engine == Some(w.retiring[j].next) && j !in v.retiring
    case _ => true
  }

  lemma StepServes(w: World, step: Step)
    requires Safe(w) && Enabled(w, step)
    ensures Serves(w, step, Next(w, step))
  {
    hide Safe, Core;
    match step
    case Release(p) => ReleaseServes(w, p);
    case Commit(k) => SafeSlots(w, k); ComesUpServes(w, step);
    case LateUp(id) => SafeLate(w, id); ComesUpServes(w, step);
    case Acquire(k, sig) => AcquireServes(w, k, sig);
    case EngineHit(_, _) => SwapServes(w, step);
    case EngineCommit(_) => SwapServes(w, step);
    case EngineTakes(_) => SwapServes(w, step);
    case _ => hide Released, Failed, ShutBackend;
  }

  lemma ComesUpServes(w: World, step: Step)
    requires Enabled(w, step) && (step.Commit? || step.LateUp?)
    requires step.Commit? ==> w.slots[step.k].inst < |w.heap|
    requires step.LateUp? ==> step.id < |w.heap|
    ensures Serves(w, step, Next(w, step))
  {
    hide Released, Failed;
  }

  lemma SwapServes(w: World, step: Step)
    requires Enabled(w, step) && (step.EngineHit? || step.EngineCommit? || step.EngineTakes?)
    ensures Serves(w, step, Next(w, step))
  {
    hide Released, Failed, ShutBackend, BringUp, InPool;
  }

  lemma AcquireServes(w: World, k: SlotKey, sig: Sig)
    requires Enabled(w, Acquire(k, sig))
    ensures Serves(w, Acquire(k, sig), Next(w, Acquire(k, sig)))
  {
    hide ShutBackend;
  }

  ghost predicate EngineGets(w: World, v: World, j: nat, id: nat) {
    if MustRetire(v.pool, if j in w.loading then w.loading[j].saw else w.engine, id) then
      j in v.retiring && v.retiring[j].next == id
    else v.engine == Some(id)
  }

  lemma SafeSlots(w: World, k: SlotKey)
    requires Safe(w) && k in w.slots
    ensures w.slots[k].inst < |w.heap|
  {
  }

  lemma SafeLate(w: World, id: nat)
    requires Safe(w) && id in w.late
    ensures id < |w.heap|
  {
  }

  lemma ReleaseServes(w: World, p: nat)
    ensures Serves(w, Release(p), Next(w, Release(p)))
  {
    hide ReleaseSlot;
    var stt, tts, llm := SlotKey(p, Stt), SlotKey(p, Tts), SlotKey(p, Llm);
    var u1 := ReleaseSlot(Gone(w, p), stt);
    var u2 := ReleaseSlot(u1, tts);
    ReleaseSlotServes(Gone(w, p), stt);
    ReleaseSlotServes(u1, tts);
    ReleaseSlotServes(u2, llm);
    assert w.slots - {stt} - {tts} - {llm} == w.slots - {stt, tts, llm};
  }

  lemma ReleaseSlotServes(w: World, k: SlotKey)
    ensures var v := ReleaseSlot(w, k);
            v.slots == w.slots - {k} && v.gone == w.gone && v.pool == w.pool && v.engine == w.engine
  {
    hide ShutBackend;
    if k !in w.slots {
      assert w.slots - {k} == w.slots;
    }
  }

  // A call that fails keeps the world safe whatever becomes of its siblings, exactly when the live
  // pipeline keeps them all: for a new pipeline, which is dropped, when it has no sibling.
  lemma CallFailsSafeIff(w: World, k: SlotKey, isNew: bool)
    requires Safe(w) && Waiting(w, k) && Enabled(w, CallFails(k, isNew))
    requires forall l | l in w.orphans :: l.pipeline != k.pipeline
    ensures var v := Next(w, CallFails(k, isNew));
            Safe(v) && ((forall id | id in Siblings(w, k) :: MayComeUp(v, id)) <==> !isNew || Siblings(w, k) == {})
  {
    hide Safe;
    StepSafeIff(w, CallFails(k, isNew));
    var v := Next(w, CallFails(k, isNew));
    forall id | id in Siblings(w, k) ensures MayComeUp(v, id) <==> !isNew {
      StepSafeIff(v, LateUp(id));
      SiblingsOwned(w, k, isNew, id);
    }
  }

  ghost predicate MayComeUp(w: World, id: nat) { id in w.late && Safe(Next(w, LateUp(id))) }

  lemma SiblingsOwned(w: World, k: SlotKey, isNew: bool, id: nat)
    requires Safe(w) && Waiting(w, k) && Enabled(w, CallFails(k, isNew)) && id in Siblings(w, k)
    requires forall l | l in w.orphans :: l.pipeline != k.pipeline
    ensures Owned(Failed(w, k, isNew).slots, id) <==> !isNew
  {
    hide Owned, OrphansSafe, ShutSafe, Core;
    var v := Failed(w, k, isNew);
    var l := SiblingSlot(w, k, id);
    if isNew {
      CoreParts(w);
      SlotsUnique(w, l);
      NotOwned(v.slots, id);
    } else {
      OwnedBy(v.slots, l, id);
    }
  }

  lemma SiblingSlot(w: World, k: SlotKey, id: nat) returns (l: SlotKey)
    requires Safe(w) && id in Siblings(w, k) && forall l | l in w.orphans :: l.pipeline != k.pipeline
    ensures l in w.slots && l.pipeline == k.pipeline && w.slots[l].inst == id && !w.slots[l].pooled
  {
    SiblingsAre(w, k, id);
    l :| l != k && l.pipeline == k.pipeline && Waiting(w, l) && w.slots[l].inst == id;
    WaitingSlot(w, l);
  }

  lemma NotOwned(slots: map<SlotKey, Slot>, id: nat)
    requires forall l | l in slots :: slots[l].inst != id
    ensures !Owned(slots, id)
  {
  }

  lemma OwnedBy(slots: map<SlotKey, Slot>, l: SlotKey, id: nat)
    requires l in slots && slots[l].inst == id && !slots[l].pooled
    ensures Owned(slots, id)
  {
  }

  // ----- server shutdown -------------------------------------------------------------------------------

  // After the pipelines: every pool entry is shut down, the pool is emptied, and then the engine
  // shuts down its own backend.
  ghost function Drained(w: World): World {
    var heap := seq(|w.heap|, i requires 0 <= i < |w.heap| =>
                    if InPool(w.pool, i) then Backend(false, w.heap[i].shutdowns + 1) else w.heap[i]);
    w.(heap := if w.engine.Some? then ShutBackend(heap, w.engine.value) else heap, pool := map[], engine := None)
  }

  // Nothing is up then.  What was up has been shut down once and not more, exactly when the engine's
  // backend is not in the pool; if it is, it is shut down twice.
  lemma DrainedOnceIff(w: World)
    requires Safe(w) && w.slots == map[] && w.retiring == map[] && w.engine.Some?
    ensures AllDown(Drained(w))
    ensures (forall id | 0 <= id < |w.heap| && w.heap[id].up :: Drained(w).heap[id].shutdowns == 1)
       <==> !InPool(w.pool, w.engine.value)
    ensures InPool(w.pool, w.engine.value) ==> Drained(w).heap[w.engine.value].shutdowns == 2
  {
    hide Drained, InPool, Safe;
    forall id: nat | id < |w.heap| {
      DrainedAt(w, id);
    }
    EngineIsUp(w);
  }

  ghost predicate AllDown(w: World) { forall id | 0 <= id < |w.heap| :: !w.heap[id].up }

  lemma EngineIsUp(w: World)
    requires Safe(w) && w.engine.Some? && w.retiring == map[]
    ensures w.engine.value < |w.heap| && w.heap[w.engine.value].up
  {
    hide InPool, Owned;
  }

  lemma DrainedAt(w: World, id: nat)
    requires Safe(w) && w.slots == map[] && w.engine.Some? && w.retiring == map[] && id < |w.heap|
    ensures |Drained(w).heap| == |w.heap| && !Drained(w).heap[id].up
    ensures w.heap[id].up ==>
              Drained(w).heap[id].shutdowns == if id == w.engine.value && InPool(w.pool, id) then 2 else 1
  {
    PoolHolds(w);
    EngineIsUp(w);
    hide LoadingSafe, SawsSafe, LateSafe, OrphansSafe, ShutSafe, SlotsSafe, PoolSafe, InPool;
    assert !Owned(w.slots, id) && !Taken(w.retiring, id);
  }

  // The end of an `initialize()`.
  predicate FinishesLoad(step: Step) { step.Commit? || step.OrphanCommit? || step.LateUp? || step.EngineCommit? }

  // Nothing comes up afterwards, exactly when no call was in progress.
  lemma DrainedStaysDownIff(w: World)
    requires Safe(w) && w.slots == map[] && w.retiring == map[]
    ensures (forall step | Enabled(Drained(w), step) && FinishesLoad(step) :: AllDown(Next(Drained(w), step)))
       <==> w.loading == map[] && w.orphans == map[] && w.late == {}
  {
    hide Safe, Drained;
    var v := Drained(w);
    DrainedElse(w);
    if j :| j in w.loading {
      Wakes(w, EngineCommit(j), w.loading[j].inst);
    } else if k :| k in w.orphans {
      Wakes(w, OrphanCommit(k), w.orphans[k].inst);
    } else if id :| id in w.late {
      Wakes(w, LateUp(id), id);
    } else {
      assert w.loading == map[] && w.orphans == map[] && w.late == {};
    }
  }

  lemma DrainedElse(w: World)
    ensures var v := Drained(w);
            && v.slots == w.slots && v.loading == w.loading && v.orphans == w.orphans && v.late == w.late
            && v.retiring == w.retiring && |v.heap| == |w.heap| && v.engine == None && v.pool == map[]
  {
    hide InPool;
  }

  lemma Wakes(w: World, step: Step, id: nat)
    requires Safe(w) && w.slots == map[] && w.retiring == map[]
    requires match step
             case EngineCommit(j) => j in w.loading && w.loading[j].inst == id
             case OrphanCommit(k) => k in w.orphans && w.orphans[k].inst == id
             case LateUp(late) => late == id && id in w.late
             case _ => false
    ensures var v := Drained(w); Enabled(v, step) && FinishesLoad(step) && !AllDown(Next(v, step))
  {
    DrainedElse(w);
    Existing(w, step, id);
    hide Safe, Drained, InPool;
    var v := Drained(w);
    assert id < |v.heap| && v.heap[id] == v.heap[id];
    assert Next(v, step).heap[id].up;
  }

  lemma Existing(w: World, step: Step, id: nat)
    requires Safe(w)
    requires match step
             case EngineCommit(j) => j in w.loading && w.loading[j].inst == id
             case OrphanCommit(k) => k in w.orphans && w.orphans[k].inst == id
             case LateUp(late) => late == id && id in w.late
             case _ => false
    ensures id < |w.heap|
    ensures step.EngineCommit? ==> w.loading[step.j].saw != Some(id)
  {
    match step
    case EngineCommit(j) => LoadingIs(w, j); NotPooled(w, id); DownIsOne(w, id); DownNotTaken(w, id);
    case OrphanCommit(k) => OrphanIsNew(w, k, 1);
    case LateUp(_) => CoreLate(w);
  }
}
