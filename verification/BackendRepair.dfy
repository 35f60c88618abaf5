/** A repair of the backend protocol, and the proof that it is safe in every interleaving. */
module BackendRepair {
  import opened Options
  import opened BackendPool

  // A slot or the engine lets go of a backend before the backend's shutdown is awaited; whoever awaits
  // an `initialize()` shuts its backend down if nobody holds it when it comes up, and nobody else shuts
  // down what is not up.  A registration is made only under a free key, else the pooled backend is
  // taken; and the engine retires the backend that is current, not the one seen.
  ghost function RepairedNext(w: World, step: Step): World
    requires Enabled(w, step)
  {
    match step
    case Close(k) => if k in w.slots then GiveUp(w, k) else w
    case CloseAborts(_) => w
    case Acquire(k, sig) => Fetch(Without(w, k), k, sig)
    case OrphanAcquire(k, sig) => FetchOrphan(w, k, sig)
    case Commit(k) =>
      var slot := w.slots[k];
      if slot.pending.value in w.pool then
        Attach(Discard(Without(w, k), slot.inst), k, Slot(w.pool[slot.pending.value], true, None))
      else Next(w, step)
    case OrphanCommit(k) => Discard(WithoutOrphan(w, k), w.orphans[k].inst)
    case LateUp(id) => if Owned(w.slots, id) then Next(w, step) else Discard(WithoutLate(w, id), id)
    case Release(p) =>
      GiveUpSlot(GiveUpSlot(GiveUpSlot(Gone(w, p), SlotKey(p, Stt)), SlotKey(p, Tts)), SlotKey(p, Llm))
    case EngineHit(_, sig) => Swap(w, w.pool[sig])
    case EngineCommit(j) =>
      var l := w.loading[j];
      if l.sig in w.pool then Swap(Discard(WithoutLoading(w, j), l.inst), w.pool[l.sig])
      else Swap(Registered(w, j), l.inst)
    case EngineTakes(_) => w
    case EngineAborts(_) => w
    case _ => Next(w, step)
  }

  // The slot is empty before what it owned is shut down, and that only if it is up.
  ghost function GiveUp(w: World, k: SlotKey): World
    requires k in w.slots
  {
    var slot := w.slots[k];
    if !slot.pooled && slot.inst < |w.heap| && w.heap[slot.inst].up then Detach(w, k) else Without(w, k)
  }

  ghost function GiveUpSlot(w: World, k: SlotKey): World {
    if k in w.slots then Orphaned(GiveUp(w, k), k, w.slots[k]) else w
  }

  ghost function Orphaned(w: World, k: SlotKey, slot: Slot): World {
    if slot.pending.Some? then WithOrphan(w, k, Orphan(slot.inst, slot.pending.value)) else w
  }

  ghost function WithoutLate(w: World, id: nat): World { w.(late := w.late - {id}) }

  // The engine has the new backend before the old one is shut down.
  ghost function Swap(w: World, current: nat): World {
    w.(heap := if MustRetire(w.pool, w.engine, current) then ShutBackend(w.heap, w.engine.value) else w.heap,
       engine := Some(current))
  }

  // Late instances have not been shut down, and nobody waits for a shutdown.
  ghost predicate Clear(w: World) {
    && (forall id | id in w.late :: id < |w.heap| && w.heap[id].shutdowns == 0)
    && w.retiring == map[] && w.shut == map[]
  }

  ghost predicate RepairedSafe(w: World) { Core(w) && OrphansSafe(w, 0) && Clear(w) }

  // ----- the pieces ------------------------------------------------------------------------------------

  lemma GiveUpSafe(w: World, k: SlotKey)
    requires RepairedSafe(w) && k in w.slots
    ensures RepairedSafe(GiveUp(w, k))
  {
    CoreParts(w);
    assert SlotSafe(w.heap, w.pool, k, w.slots[k]);
    GiveUpClear(w, k);
    hide Core, OrphansSafe, Clear, Detach, Without;
    DetachCore(w, k);
    DetachOrphans(w, k, 0);
    if w.slots[k].pooled || !w.heap[w.slots[k].inst].up { WithoutCore(w, k); }
    WithoutOrphans(w, k, 0);
  }

  lemma GiveUpClear(w: World, k: SlotKey)
    requires Core(w) && Clear(w) && k in w.slots
    ensures Clear(GiveUp(w, k))
  {
    CoreLate(w);
    hide Core;
  }

  lemma DiscardSafe(w: World, id: nat)
    requires RepairedSafe(w) && id < |w.heap| && w.heap[id] == Backend(false, 0) && Unused(w, id)
    ensures RepairedSafe(Discard(w, id))
  {
    DiscardCore(w, id);
    DiscardOrphans(w, id, 0);
    hide Core, OrphansSafe;
  }

  lemma FetchRepaired(w: World, k: SlotKey, sig: Sig)
    requires RepairedSafe(w) && k !in w.slots && k !in w.orphans && sig.kind == k.kind
    ensures RepairedSafe(Fetch(w, k, sig))
  {
    FetchSafe(w, k, sig, 0);
    hide Core, OrphansSafe;
  }

  lemma SwapSafe(w: World, current: nat)
    requires RepairedSafe(w) && InPool(w.pool, current)
    ensures RepairedSafe(Swap(w, current))
  {
    hide Core, OrphansSafe, InPool, Clear, Owned;
    NoneRetiring(w);
    SwapClear(w, current);
    if w.engine.Some? { EngineUp(w); }
    PooledIsUp(w, current);
    if MustRetire(w.pool, w.engine, current) {
      var v := Retire(w, 0, w.engine.value, current);
      assert !Taken(w.retiring, w.engine.value);
      RetireCore(w, 0, w.engine.value, current);
      NowTaken(w, current);
      TakeCore(v, current, map[]);
      OrphansUp(w, w.engine.value, 0);
      TakesOrphans(Discard(w, w.engine.value), current, map[], 0);
      assert Swap(w, current) == Taking(v, current, map[]) == Taking(Discard(w, w.engine.value), current, map[]);
    } else {
      TakeCore(w, current, map[]);
      TakesOrphans(w, current, map[], 0);
      assert Swap(w, current) == Taking(w, current, map[]);
    }
  }

  lemma NoneRetiring(w: World)
    requires Clear(w)
    ensures w.retiring == map[]
  {
  }

  lemma NowTaken(w: World, current: nat)
    requires w.engine.Some? && w.engine.value < |w.heap| && w.engine.value != current && w.retiring == map[]
    requires current < |w.heap| && w.heap[current] == Backend(true, 0) && !Owned(w.slots, current)
    ensures MayTake(Retire(w, 0, w.engine.value, current), current, map[])
  {
    hide Owned, InPool;
  }

  lemma EngineUp(w: World)
    requires Core(w) && w.retiring == map[] && w.engine.Some?
    ensures w.engine.value < |w.heap| && w.heap[w.engine.value] == Backend(true, 0) && !Owned(w.slots, w.engine.value)
  {
    hide Owned;
  }

  lemma SwapClear(w: World, current: nat)
    requires Core(w) && Clear(w)
    ensures Clear(Swap(w, current)) && (w.engine.Some? ==> w.engine.value < |w.heap|)
  {
    CoreLate(w);
    if w.engine.Some? { EngineUp(w); }
    hide Core, InPool;
  }

  // ----- the steps -------------------------------------------------------------------------------------

  lemma RepairedAcquire(w: World, k: SlotKey, sig: Sig)
    requires RepairedSafe(w) && Enabled(w, Acquire(k, sig))
    ensures RepairedSafe(RepairedNext(w, Acquire(k, sig)))
  {
    WithoutOrphans(w, k, 0);
    if k in w.slots {
      WithoutCore(w, k);
    } else {
      assert w.slots - {k} == w.slots;
      assert Without(w, k) == w;
    }
    hide Core, OrphansSafe;
    FetchRepaired(Without(w, k), k, sig);
  }

  lemma RepairedOrphanAcquire(w: World, k: SlotKey, sig: Sig)
    requires RepairedSafe(w) && Enabled(w, OrphanAcquire(k, sig))
    ensures RepairedSafe(RepairedNext(w, OrphanAcquire(k, sig)))
  {
    assert Replaced(w, k) == w by { assert w.shut - {k} == w.shut; }
    OrphanAcquireSafe(w, k, sig, 0);
    hide Core, OrphansSafe;
  }

  lemma RepairedCommit(w: World, k: SlotKey)
    requires RepairedSafe(w) && Waiting(w, k)
    ensures RepairedSafe(RepairedNext(w, Commit(k)))
  {
    hide Core, OrphansSafe, Unused, PoolSafe, SlotsSafe, LateSafe, EngineSafe, NoLeak;
    var slot := w.slots[k];
    WaitingHere(w, k, 0);
    CoreParts(w);
    WaitingSlot(w, k);
    WithoutIsUnused(w, k, 0);
    WithoutCore(w, k);
    WithoutOrphans(w, k, 0);
    if slot.pending.value in w.pool {
      DiscardSafe(Without(w, k), slot.inst);
      var v := Discard(Without(w, k), slot.inst);
      PooledHere(v, slot.pending.value);
      AttachCore(v, k, Slot(v.pool[slot.pending.value], true, None));
      AttachOrphans(v, k, Slot(v.pool[slot.pending.value], true, None), 0);
    } else {
      CommitSafe(w, k, 0);
      CommitClear(w, k);
    }
  }

  lemma CommitClear(w: World, k: SlotKey)
    requires Clear(w) && Waiting(w, k)
    ensures Clear(Next(w, Commit(k)))
  {
  }

  lemma RepairedOrphanCommit(w: World, k: SlotKey)
    requires RepairedSafe(w) && k in w.orphans
    ensures RepairedSafe(RepairedNext(w, OrphanCommit(k)))
  {
    OrphanIsNew(w, k, 0);
    OrphanUnused(w, k, 0);
    WithoutOrphanSafe(w, k, 0);
    hide Core, OrphansSafe, Unused;
    DiscardSafe(WithoutOrphan(w, k), w.orphans[k].inst);
  }

  lemma RepairedLateUp(w: World, id: nat)
    requires RepairedSafe(w) && id in w.late
    ensures RepairedSafe(RepairedNext(w, LateUp(id)))
  {
    hide Core, OrphansSafe, Unused, Owned, LateSafe;
    CoreLate(w);
    if Owned(w.slots, id) {
      LateUpCore(w, id);
      LateLess(w, id, 0);
    } else {
      RemovalSafe(w, w.loading, w.late - {id}, 0);
      assert WithoutLate(w, id) == w.(loading := w.loading, late := w.late - {id});
      LateUnused(w, id);
      DiscardSafe(WithoutLate(w, id), id);
    }
  }

  lemma LateUnused(w: World, id: nat)
    requires RepairedSafe(w) && id in w.late && !Owned(w.slots, id)
    ensures Unused(WithoutLate(w, id), id) && id < |w.heap| && w.heap[id] == Backend(false, 0)
  {
    LateNotPooled(w, id);
    CoreParts(w);
    UnheldIf(w, id);
    hide InPool, Owned, Taken, IsRetired, PoolSafe, SlotsSafe, NoLeak, LoadingSafe;
  }

  lemma RepairedRelease(w: World, p: nat)
    requires RepairedSafe(w)
    ensures RepairedSafe(RepairedNext(w, Release(p)))
  {
    hide Core, OrphansSafe, GiveUpSlot;
    SameCore(w, w.shut, w.gone + {p});
    OrphansGone(w, w.gone + {p}, 0);
    var v := GiveUpSlot(Gone(w, p), SlotKey(p, Stt));
    assert Gone(w, p) == w.(shut := w.shut, gone := w.gone + {p});
    OneGivenUp(Gone(w, p), SlotKey(p, Stt));
    OneGivenUp(v, SlotKey(p, Tts));
    OneGivenUp(GiveUpSlot(v, SlotKey(p, Tts)), SlotKey(p, Llm));
  }

  lemma OneGivenUp(w: World, k: SlotKey)
    requires RepairedSafe(w)
    ensures RepairedSafe(GiveUpSlot(w, k))
  {
    if k in w.slots {
      var slot := w.slots[k];
      GiveUpSafe(w, k);
      if slot.pending.Some? {
        WaitingHere(w, k, 0);
        CoreParts(w);
        WaitingSlot(w, k);
        WithoutIsUnused(w, k, 0);
        hide Core, OrphansSafe, Unused;
        WithOrphanCore(Without(w, k), k, Orphan(slot.inst, slot.pending.value));
        WithOrphanSafe(Without(w, k), k, Orphan(slot.inst, slot.pending.value), 0);
      }
    }
  }

  lemma RepairedEngineCommit(w: World, j: nat)
    requires RepairedSafe(w) && Enabled(w, EngineCommit(j))
    ensures RepairedSafe(RepairedNext(w, EngineCommit(j)))
  {
    hide Core, OrphansSafe, Unused, SawSafe, Put, Swap, ShutBackend;
    var l := w.loading[j];
    if l.sig in w.pool {
      RemovalSafe(w, w.loading - {j}, w.late, 0);
      LoadingIs(w, j);
      LoadingUnused(w, j);
      assert WithoutLoading(w, j) == w.(loading := w.loading - {j}, late := w.late);
      DiscardSafe(WithoutLoading(w, j), l.inst);
      PooledHere(w, l.sig);
      SwapSafe(Discard(WithoutLoading(w, j), l.inst), w.pool[l.sig]);
    } else {
      NoneRetiring(w);
      assert w.loading[j].sig !in w.pool ==> KeyIsFree(w, l.sig);
      RegisteredCore(w, j, 0);
      RegisteredClear(w, j);
      SwapSafe(Registered(w, j), l.inst);
    }
  }

  lemma LoadingUnused(w: World, j: nat)
    requires Core(w) && OrphansSafe(w, 0) && j in w.loading
    ensures Unused(WithoutLoading(w, j), w.loading[j].inst)
  {
    LoadingIs(w, j);
    NotPooled(w, w.loading[j].inst);
    hide InPool, Owned, Taken, IsRetired, PoolSafe, SlotsSafe, NoLeak;
  }

  lemma RegisteredClear(w: World, j: nat)
    requires Clear(w) && j in w.loading
    ensures Clear(Registered(w, j))
  {
  }

  lemma FailedClear(w: World, k: SlotKey, isNew: bool)
    requires RepairedSafe(w) && Enabled(w, CallFails(k, isNew))
    ensures Clear(Failed(w, k, isNew))
  {
    hide InPool, Owned, PoolSafe, NoLeak, EngineSafe, LoadingSafe, SawsSafe, LateSafe;
  }

  lemma SmallClear(w: World, step: Step)
    requires Clear(w) && Enabled(w, step) && (step.LateFails? || step.EngineBegin? || step.EngineFail?)
    ensures Clear(Next(w, step))
  {
  }

  // With the repair every step keeps the world safe, in every interleaving and without a proviso.
  lemma RepairedStepSafe(w: World, step: Step)
    requires RepairedSafe(w) && Enabled(w, step)
    ensures RepairedSafe(RepairedNext(w, step))
  {
    NoneRetiring(w);
    hide Core, OrphansSafe, GiveUp, GiveUpSlot, Swap;
    match step
    case Close(k) => if k in w.slots { GiveUpSafe(w, k); }
    case Acquire(k, sig) => RepairedAcquire(w, k, sig);
    case OrphanAcquire(k, sig) => RepairedOrphanAcquire(w, k, sig);
    case Commit(k) => RepairedCommit(w, k);
    case OrphanCommit(k) => RepairedOrphanCommit(w, k);
    case CallFails(k, isNew) => FailedSafe(w, k, isNew, 0); FailedClear(w, k, isNew);
    case LateUp(id) => RepairedLateUp(w, id);
    case LateFails(id) => RemovalSafe(w, w.loading, w.late - {id}, 0); SmallClear(w, step);
    case Release(p) => RepairedRelease(w, p);
    case EngineHit(j, sig) => PooledHere(w, sig); SwapSafe(w, w.pool[sig]);
    case EngineBegin(j, sig) => BeginCore(w, j, sig); BeginOrphans(w, j, sig, 0); SmallClear(w, step);
    case EngineCommit(j) => RepairedEngineCommit(w, j);
    case EngineFail(j) => RemovalSafe(w, w.loading - {j}, w.late, 0); SmallClear(w, step);
    case _ =>
  }

  // And every step still does what it is for: the repair does not buy safety by doing nothing.
  ghost predicate RepairedServes(w: World, step: Step, v: World)
    requires Enabled(w, step)
  {
    match step
    case Close(k) => k in w.slots ==> v.slots == w.slots - {k}
    case Acquire(k, sig) =>
      && k in v.slots && v.pool == w.pool
      && v.slots[k] == if sig in w.pool then Slot(w.pool[sig], true, None) else Slot(|w.heap|, false, Some(sig))
    case Commit(k) =>
      var sig := w.slots[k].pending.value;
      && sig in v.pool && v.pool[sig] == (if sig in w.pool then w.pool[sig] else w.slots[k].inst)
      && k in v.slots && v.slots[k] == Slot(v.pool[sig], true, None)
    case OrphanCommit(k) =>
      var id := w.orphans[k].inst;
      && v.orphans == w.orphans - {k} && v.pool == w.pool
      && (id < |w.heap| ==> v.heap == w.heap[id := Backend(false, w.heap[id].shutdowns + 1)])
    case LateUp(id) =>
      && v.late == w.late - {id}
      && (id < |w.heap| ==>
            v.heap == w.heap[id := if Owned(w.slots, id) then w.heap[id].(up := true)
                                   else Backend(false, w.heap[id].shutdowns + 1)])
    case Release(p) =>
      && p in v.gone && v.pool == w.pool && v.engine == w.engine
      && v.slots == w.slots - {SlotKey(p, Stt), SlotKey(p, Tts), SlotKey(p, Llm)}
    case EngineHit(_, sig) => v.engine == Some(w.pool[sig])
    case EngineCommit(j) =>
      var l := w.loading[j];
      && j !in v.loading && l.sig in v.pool && v.engine == Some(v.pool[l.sig])
      && v.pool[l.sig] == if l.sig in w.pool then w.pool[l.sig] else l.inst
    case _ => true
  }

  lemma RepairedStepServes(w: World, step: Step)
    requires Enabled(w, step)
    ensures RepairedServes(w, step, RepairedNext(w, step))
  {
    hide RepairedNext, RepairedServes;
    match step
    case Release(p) => GiveUpServes(w, p);
    case OrphanCommit(_) => LandServes(w, step);
    case LateUp(_) => LandServes(w, step);
    case EngineHit(_, _) => RepairedSwapServes(w, step);
    case EngineCommit(_) => RepairedSwapServes(w, step);
    case Close(_) => SlotServes(w, step);
    case Acquire(_, _) => SlotServes(w, step);
    case Commit(_) => SlotServes(w, step);
    case _ => OthersServe(w, step);
  }

  lemma OthersServe(w: World, step: Step)
    requires Enabled(w, step)
    requires !step.Release? && !step.OrphanCommit? && !step.LateUp? && !step.EngineHit? && !step.EngineCommit?
    requires !step.Close? && !step.Acquire? && !step.Commit?
    ensures RepairedServes(w, step, RepairedNext(w, step))
  {
    hide RepairedNext, Enabled;
  }

  lemma LandServes(w: World, step: Step)
    requires Enabled(w, step) && (step.OrphanCommit? || step.LateUp?)
    ensures RepairedServes(w, step, RepairedNext(w, step))
  {
    hide ShutBackend, Owned, Discard;
    if step.OrphanCommit? {
      DiscardIs(WithoutOrphan(w, step.k), w.orphans[step.k].inst);
    } else {
      DiscardIs(WithoutLate(w, step.id), step.id);
    }
  }

  lemma RepairedSwapServes(w: World, step: Step)
    requires Enabled(w, step) && (step.EngineHit? || step.EngineCommit?)
    ensures RepairedServes(w, step, RepairedNext(w, step))
  {
    hide ShutBackend, BringUp, MustRetire;
  }

  lemma SlotServes(w: World, step: Step)
    requires Enabled(w, step) && (step.Close? || step.Acquire? || step.Commit?)
    ensures RepairedServes(w, step, RepairedNext(w, step))
  {
    hide ShutBackend, BringUp;
  }

  lemma DiscardIs(w: World, id: nat)
    ensures Discard(w, id).orphans == w.orphans && Discard(w, id).pool == w.pool && Discard(w, id).late == w.late
    ensures id < |w.heap| ==> Discard(w, id).heap == w.heap[id := Backend(false, w.heap[id].shutdowns + 1)]
  {
  }

  lemma GiveUpServes(w: World, p: nat)
    ensures RepairedServes(w, Release(p), RepairedNext(w, Release(p)))
  {
    hide GiveUpSlot;
    var stt, tts, llm := SlotKey(p, Stt), SlotKey(p, Tts), SlotKey(p, Llm);
    var u1 := GiveUpSlot(Gone(w, p), stt);
    var u2 := GiveUpSlot(u1, tts);
    GivenUp(Gone(w, p), stt);
    GivenUp(u1, tts);
    GivenUp(u2, llm);
    assert w.slots - {stt} - {tts} - {llm} == w.slots - {stt, tts, llm};
  }

  lemma GivenUp(w: World, k: SlotKey)
    ensures var v := GiveUpSlot(w, k);
            v.slots == w.slots - {k} && v.gone == w.gone && v.pool == w.pool && v.engine == w.engine
  {
    hide ShutBackend;
    if k !in w.slots {
      assert w.slots - {k} == w.slots;
    }
  }

  // ----- whole runs ------------------------------------------------------------------------------------

  lemma StartRepaired()
    ensures RepairedSafe(START)
  {
    StartSafe();
  }

  ghost predicate RepairedRuns(w: World, steps: seq<Step>, v: World)
    decreases |steps|
  {
    if steps == [] then w == v else Enabled(w, steps[0]) && RepairedRuns(RepairedNext(w, steps[0]), steps[1..], v)
  }

  lemma {:induction false} RepairedRunSafe(w: World, steps: seq<Step>, v: World)
    requires RepairedSafe(w) && RepairedRuns(w, steps, v)
    ensures RepairedSafe(v)
    decreases |steps|
  {
    hide RepairedSafe, RepairedNext, Enabled;
    if steps != [] {
      RepairedStepSafe(w, steps[0]);
      RepairedRunSafe(RepairedNext(w, steps[0]), steps[1..], v);
    }
  }

  // From the server's start, in every interleaving: what is pooled, borrowed or the engine's is up and
  // was never shut down, what is up is held by someone, and nothing is shut down twice.
  lemma RepairedServer(steps: seq<Step>, v: World)
    requires RepairedRuns(START, steps, v)
    ensures Safe(v)
    ensures v.engine.Some? ==> v.engine.value < |v.heap| && v.heap[v.engine.value] == Backend(true, 0)
    ensures forall k | k in v.slots && v.slots[k].pooled ::
              v.slots[k].inst < |v.heap| && v.heap[v.slots[k].inst] == Backend(true, 0)
  {
    StartRepaired();
    RepairedRunSafe(START, steps, v);
    ZeroIsOne(v);
    if v.engine.Some? { EngineUp(v); }
    PoolHolds(v);
    hide InPool, Owned, EngineSafe, NoLeak, LoadingSafe, SawsSafe, LateSafe, OrphansSafe;
  }

  lemma ZeroIsOne(w: World)
    requires OrphansSafe(w, 0) && w.shut == map[]
    ensures OrphansSafe(w, 1)
  {
  }
}
