/** Ownership of STT, TTS and LLM backends: the shared pool, the slots of any number of voice
    pipelines, and the conversation engine.  A step is one stretch of code between two awaits. */
module BackendPool {
  import opened Options

  datatype Kind = Stt | Tts | Llm

  datatype Sig = Sig(kind: Kind, backend: string, model: string)

  // Whether it is up, and how often its shutdown was begun.
  datatype Backend = Backend(up: bool, shutdowns: nat)

  // One backend slot of a live pipeline.  A pending slot awaits `initialize()` of the instance it
  // created, to be registered under the signature.
  datatype Slot = Slot(inst: nat, pooled: bool, pending: Option<Sig>)

  datatype SlotKey = SlotKey(pipeline: nat, kind: Kind)

  // A `swap_llm` that missed the pool: its new instance, and the engine backend it saw first.
  datatype Loading = Loading(inst: nat, sig: Sig, saw: Option<nat>)

  // A `swap_llm` that awaits the shutdown of the old backend, to make `next` the engine's.
  datatype Retiring = Retiring(was: nat, next: nat)

  // What a call still awaits for a slot whose pipeline was shut down meanwhile.
  datatype Orphan = Orphan(inst: nat, sig: Sig)

  datatype World = World(
    heap: seq<Backend>,             // every backend ever created, by creation order
    pool: map<Sig, nat>,
    slots: map<SlotKey, Slot>,
    engine: Option<nat>,
    loading: map<nat, Loading>,     // by swap_llm call
    orphans: map<SlotKey, Orphan>,
    late: set<nat>,                 // still initialising, although the gather has raised
    retiring: map<nat, Retiring>,   // by swap_llm call
    shut: map<SlotKey, nat>,        // a slot's own backend, shut down and not yet replaced
    gone: set<nat>)                 // pipelines that were shut down or dropped

  // ----- steps ------------------------------------------------------------------------------

  datatype Step =
    | Close(k: SlotKey)                     // swap_backends begins to shut down what the slot owns
    | CloseAborts(k: SlotKey)               // that await is cancelled or raises
    | Acquire(k: SlotKey, sig: Sig)         // initialize, or swap_backends: look up or create
    | OrphanAcquire(k: SlotKey, sig: Sig)   // the same, after the pipeline's shutdown
    | Commit(k: SlotKey)                    // the gather succeeded: register and flip the flag
    | OrphanCommit(k: SlotKey)
    | CallFails(k: SlotKey, isNew: bool)    // the call fails here; a new pipeline is dropped
    | LateUp(id: nat)                       // a sibling that the gather had left running comes up
    | LateFails(id: nat)
    | Release(p: nat)                       // the pipeline's shutdown, which takes no lock
    | EngineHit(j: nat, sig: Sig)           // swap_llm with a pool hit, up to the old one's shutdown
    | EngineBegin(j: nat, sig: Sig)         // swap_llm with a miss, up to initialize()
    | EngineCommit(j: nat)                  // initialize() succeeded, up to the old one's shutdown
    | EngineFail(j: nat)                    // initialize() raised
    | EngineTakes(j: nat)                   // the old one's shutdown is over
    | EngineAborts(j: nat)                  // the swap is cancelled in that await

  function BringUp(heap: seq<Backend>, id: nat): seq<Backend> {
    if id < |heap| then heap[id := heap[id].(up := true)] else heap
  }

  function ShutBackend(heap: seq<Backend>, id: nat): seq<Backend> {
    if id < |heap| then heap[id := Backend(false, heap[id].shutdowns + 1)] else heap
  }

  ghost predicate InPool(pool: map<Sig, nat>, id: nat) { exists s | s in pool :: pool[s] == id }

  // A live pipeline holds it for itself.
  ghost predicate Owned(slots: map<SlotKey, Slot>, id: nat) {
    exists k | k in slots :: slots[k].inst == id && !slots[k].pooled
  }

  // An engine swap in progress will make it the engine's.
  ghost predicate Taken(retiring: map<nat, Retiring>, id: nat) {
    exists j | j in retiring :: retiring[j].next == id
  }

  predicate Waiting(w: World, k: SlotKey) { k in w.slots && w.slots[k].pending.Some? }

  // Of a new pipeline every backend is borrowed or still awaited.
  ghost predicate Starting(w: World, p: nat) {
    forall l | l in w.slots && l.pipeline == p :: w.slots[l].pooled || Waiting(w, l)
  }

  ghost predicate Enabled(w: World, step: Step) {
    match step
    case Close(k) =>
      if k.pipeline in w.gone then k in w.shut && k !in w.orphans
      else k in w.slots && !w.slots[k].pooled && !Waiting(w, k)
    case CloseAborts(k) => k in w.shut && k !in w.slots && k.pipeline !in w.gone
    case Acquire(k, sig) =>
      && sig.kind == k.kind && k.pipeline !in w.gone && k !in w.orphans
      && (k in w.slots ==> w.slots[k].pooled && !Waiting(w, k))
    case OrphanAcquire(k, sig) => k.pipeline in w.gone && k !in w.orphans && k !in w.slots
    case Commit(k) => Waiting(w, k)
    case OrphanCommit(k) => k in w.orphans
    case CallFails(k, isNew) => (Waiting(w, k) || k in w.orphans) && (isNew ==> Starting(w, k.pipeline))
    case LateUp(id) => id in w.late
    case LateFails(id) => id in w.late
    case Release(_) => true
    case EngineHit(j, sig) => sig in w.pool && j !in w.loading && j !in w.retiring
    case EngineBegin(j, sig) => sig !in w.pool && j !in w.loading && j !in w.retiring
    case EngineCommit(j) => j in w.loading && j !in w.retiring
    case EngineFail(j) => j in w.loading
    case EngineTakes(j) => j in w.retiring
    case EngineAborts(j) => j in w.retiring
  }

  ghost function Next(w: World, step: Step): World
    requires Enabled(w, step)
  {
    match step
    case Close(k) =>
      if k.pipeline in w.gone then ShutAgain(w, k)
      else Detach(w, k).(shut := w.shut[k := w.slots[k].inst])
    case CloseAborts(k) => w.(slots := w.slots[k := Slot(w.shut[k], false, None)], shut := w.shut - {k})
    case Acquire(k, sig) => Fetch(Replaced(if k in w.slots then Detach(w, k) else w, k), k, sig)
    case OrphanAcquire(k, sig) => FetchOrphan(Replaced(w, k), k, sig)
    case Commit(k) =>
      var slot := w.slots[k];
      Put(w, slot.pending.value, slot.inst).(slots := w.slots[k := Slot(slot.inst, true, None)])
    case OrphanCommit(k) => Put(Replaced(WithoutOrphan(w, k), k), w.orphans[k].sig, w.orphans[k].inst)
    case CallFails(k, isNew) => Failed(w, k, isNew)
    case LateUp(id) => w.(heap := BringUp(w.heap, id), late := w.late - {id})
    case LateFails(id) => w.(late := w.late - {id})
    case Release(p) => Released(w, p)
    case EngineHit(j, sig) => Replace(w, j, w.engine, w.pool[sig])
    case EngineBegin(j, sig) => Alloc(w).(loading := w.loading[j := Loading(|w.heap|, sig, w.engine)])
    case EngineCommit(j) => Replace(Registered(w, j), j, w.loading[j].saw, w.loading[j].inst)
    case EngineFail(j) => WithoutLoading(w, j)
    case EngineTakes(j) => Take(WithoutRetiring(w, j), w.retiring[j].next)
    case EngineAborts(j) => WithoutRetiring(w, j)
  }

  // A slot gives up its backend; a pooled one is the pool's to shut down.
  ghost function Detach(w: World, k: SlotKey): World
    requires k in w.slots
  {
    w.(heap := if w.slots[k].pooled then w.heap else ShutBackend(w.heap, w.slots[k].inst),
       slots := w.slots - {k})
  }

  // The slot no longer refers to the backend of its own that was shut down.
  ghost function Replaced(w: World, k: SlotKey): World { w.(shut := w.shut - {k}) }

  ghost function ShutAgain(w: World, k: SlotKey): World
    requires k in w.shut
  {
    w.(heap := ShutBackend(w.heap, w.shut[k]))
  }

  // Borrow from the pool, or create.
  ghost function Fetch(w: World, k: SlotKey, sig: Sig): World {
    if sig in w.pool then Attach(w, k, Slot(w.pool[sig], true, None))
    else Attach(Alloc(w), k, Slot(|w.heap|, false, Some(sig)))
  }

  ghost function FetchOrphan(w: World, k: SlotKey, sig: Sig): World {
    if sig in w.pool then w else WithOrphan(Alloc(w), k, Orphan(|w.heap|, sig))
  }

  ghost function Alloc(w: World): World { w.(heap := w.heap + [Backend(false, 0)]) }

  ghost function Attach(w: World, k: SlotKey, slot: Slot): World { w.(slots := w.slots[k := slot]) }

  ghost function WithOrphan(w: World, k: SlotKey, orphan: Orphan): World {
    w.(orphans := w.orphans[k := orphan])
  }

  ghost function WithoutOrphan(w: World, k: SlotKey): World { w.(orphans := w.orphans - {k}) }

  ghost function WithoutLoading(w: World, j: nat): World { w.(loading := w.loading - {j}) }

  ghost function WithoutRetiring(w: World, j: nat): World { w.(retiring := w.retiring - {j}) }

  // An instance has come up and enters the pool.
  ghost function Put(w: World, sig: Sig, id: nat): World {
    w.(heap := BringUp(w.heap, id), pool := w.pool[sig := id])
  }

  ghost function Gone(w: World, p: nat): World { w.(gone := w.gone + {p}) }

  // One slot of a pipeline that is shut down.  The call that a pending slot waited for goes on; what
  // was shut down or is awaited by such a call is shut down again.
  ghost function ReleaseSlot(w: World, k: SlotKey): World {
    if k in w.slots then if w.slots[k].pooled then Without(w, k) else ShutSlot(w, k)
    else if k in w.shut then ShutAgain(w, k)
    else if k in w.orphans then ShutOrphan(w, k)
    else w
  }

  // A pooled backend stays up.
  ghost function Without(w: World, k: SlotKey): World { w.(slots := w.slots - {k}) }

  ghost function ShutSlot(w: World, k: SlotKey): World
    requires k in w.slots
  {
    var slot := w.slots[k];
    w.(heap := ShutBackend(w.heap, slot.inst), slots := w.slots - {k}, shut := w.shut[k := slot.inst],
       orphans := if slot.pending.Some? then w.orphans[k := Orphan(slot.inst, slot.pending.value)] else w.orphans)
  }

  ghost function ShutOrphan(w: World, k: SlotKey): World
    requires k in w.orphans
  {
    w.(heap := ShutBackend(w.heap, w.orphans[k].inst), shut := w.shut[k := w.orphans[k].inst])
  }

  ghost function Released(w: World, p: nat): World {
    ReleaseSlot(ReleaseSlot(ReleaseSlot(Gone(w, p), SlotKey(p, Stt)), SlotKey(p, Tts)), SlotKey(p, Llm))
  }

  // The instances that the call of k's pipeline awaits besides that of k.
  ghost function Siblings(w: World, k: SlotKey): set<nat> {
    (set l | l in w.slots && Waiting(w, l) && l.pipeline == k.pipeline && l != k :: w.slots[l].inst)
    + (set l | l in w.orphans && l.pipeline == k.pipeline && l != k :: w.orphans[l].inst)
  }

  ghost function Failed(w: World, k: SlotKey, isNew: bool): World {
    w.(slots := if isNew then map l | l in w.slots && l.pipeline != k.pipeline :: w.slots[l]
                else map l | l in w.slots ::
                       if l.pipeline == k.pipeline then w.slots[l].(pending := None) else w.slots[l],
       orphans := map l | l in w.orphans && l.pipeline != k.pipeline :: w.orphans[l],
       late := w.late + Siblings(w, k),
       gone := if isNew then w.gone + {k.pipeline} else w.gone)
  }

  ghost function Registered(w: World, j: nat): World
    requires j in w.loading
  {
    Put(WithoutLoading(w, j), w.loading[j].sig, w.loading[j].inst)
  }

  // The backend that a swap saw is shut down unless it is the new one or the pool holds it.
  ghost predicate MustRetire(pool: map<Sig, nat>, saw: Option<nat>, current: nat) {
    saw.Some? && saw.value != current && !InPool(pool, saw.value)
  }

  // The engine keeps the old backend until its shutdown is over.
  ghost function Replace(w: World, j: nat, saw: Option<nat>, current: nat): World {
    if MustRetire(w.pool, saw, current) then
      w.(heap := ShutBackend(w.heap, saw.value), retiring := w.retiring[j := Retiring(saw.value, current)])
    else Take(w, current)
  }

  ghost function Take(w: World, current: nat): World { w.(engine := Some(current)) }

  // ----- safety --------------------------------------------------------------------------------

  ghost predicate PoolSafe(heap: seq<Backend>, pool: map<Sig, nat>) {
    && (forall s | s in pool :: pool[s] < |heap| && heap[pool[s]] == Backend(true, 0))
    && (forall s, t | s in pool && t in pool && pool[s] == pool[t] :: s == t)
  }

  // A live slot's backend has not been shut down and the flag tells the truth; a pending one is
  // not up yet.
  ghost predicate SlotSafe(heap: seq<Backend>, pool: map<Sig, nat>, k: SlotKey, slot: Slot) {
    && slot.inst < |heap| && heap[slot.inst].shutdowns == 0
    && (slot.pooled <==> InPool(pool, slot.inst))
    && (slot.pending.Some? ==> !slot.pooled && !heap[slot.inst].up && slot.pending.value.kind == k.kind)
  }

  ghost predicate SlotsSafe(heap: seq<Backend>, pool: map<Sig, nat>, slots: map<SlotKey, Slot>) {
    && (forall k | k in slots :: SlotSafe(heap, pool, k, slots[k]))
    && (forall k, l | k in slots && l in slots && slots[k].inst == slots[l].inst && !slots[k].pooled :: k == l)
  }

  ghost predicate LoadingSafe(heap: seq<Backend>, slots: map<SlotKey, Slot>, loading: map<nat, Loading>) {
    && (forall j | j in loading :: loading[j].inst < |heap| && heap[loading[j].inst] == Backend(false, 0))
    && (forall i, j | i in loading && j in loading && i != j :: loading[i].inst != loading[j].inst)
    && (forall j, k | j in loading && k in slots :: loading[j].inst != slots[k].inst)
  }

  // What was the engine's backend and is no longer is pooled or has been shut down, or it is about
  // to be the engine's again; and the key of the swap is not its own.
  ghost predicate SawSafe(w: World, l: Loading) {
    l.saw.Some? ==>
      var saw := l.saw.value;
      && saw < |w.heap| && !Owned(w.slots, saw)
      && (w.engine == Some(saw) || InPool(w.pool, saw) || Taken(w.retiring, saw) || w.heap[saw] == Backend(false, 1))
      && (l.sig in w.pool ==> w.pool[l.sig] != saw)
  }

  ghost predicate SawsSafe(w: World) { forall j | j in w.loading :: SawSafe(w, w.loading[j]) }

  // What a call awaits for a pipeline that is gone; `shutdowns` is how often the pipeline's shutdown
  // has shut it down, if it existed then.
  ghost predicate OrphanSafe(w: World, k: SlotKey, id: nat, shutdowns: nat) {
    && k !in w.slots && id < |w.heap| && !w.heap[id].up
    && w.heap[id].shutdowns == (if k in w.shut then shutdowns else 0)
  }

  ghost predicate OrphansSafe(w: World, shutdowns: nat) {
    && (forall k | k in w.orphans :: OrphanSafe(w, k, w.orphans[k].inst, shutdowns))
    && (forall k, l | k in w.orphans && l in w.orphans && k != l :: w.orphans[k].inst != w.orphans[l].inst)
    && (forall k, l | k in w.orphans && l in w.slots :: w.orphans[k].inst != w.slots[l].inst)
    && (forall k, j | k in w.orphans && j in w.loading :: w.orphans[k].inst != w.loading[j].inst)
  }

  // Nobody awaits a late instance any more.
  ghost predicate LateSafe(w: World) {
    && (forall id | id in w.late :: id < |w.heap| && !w.heap[id].up)
    && (forall k | k in w.slots && w.slots[k].pending.Some? :: w.slots[k].inst !in w.late)
    && (forall k | k in w.orphans :: w.orphans[k].inst !in w.late)
    && (forall j | j in w.loading :: w.loading[j].inst !in w.late)
  }

  // The engine's backend is up, or the swap that shuts it down is about to replace it; and what a
  // swap is about to take is up.
  ghost predicate EngineSafe(heap: seq<Backend>, slots: map<SlotKey, Slot>, engine: Option<nat>,
                             retiring: map<nat, Retiring>) {
    && (engine.Some? ==>
          && engine.value < |heap| && !Owned(slots, engine.value)
          && (heap[engine.value] == Backend(true, 0)
              || (heap[engine.value] == Backend(false, 1) && IsRetired(retiring, engine.value))))
    && (forall j | j in retiring ::
          retiring[j].next < |heap| && heap[retiring[j].next] == Backend(true, 0) && !Owned(slots, retiring[j].next))
  }

  ghost predicate IsRetired(retiring: map<nat, Retiring>, id: nat) {
    exists j | j in retiring :: retiring[j].was == id
  }

  ghost predicate Kept(pool: map<Sig, nat>, slots: map<SlotKey, Slot>, engine: Option<nat>,
                       retiring: map<nat, Retiring>, id: nat) {
    InPool(pool, id) || engine == Some(id) || Owned(slots, id) || Taken(retiring, id)
  }

  // Nothing that is up is forgotten, and nothing is shut down twice.
  ghost predicate NoLeak(heap: seq<Backend>, pool: map<Sig, nat>, slots: map<SlotKey, Slot>, engine: Option<nat>,
                         retiring: map<nat, Retiring>) {
    && (forall id: nat | id < |heap| && heap[id].up :: Kept(pool, slots, engine, retiring, id))
    && (forall id: nat | id < |heap| :: heap[id].shutdowns <= 1)
  }

  // What `shut` records has been shut down.
  ghost predicate ShutSafe(w: World) {
    forall k | k in w.shut :: w.shut[k] < |w.heap| && w.heap[w.shut[k]].shutdowns >= 1
  }

  ghost predicate Core(w: World) {
    && PoolSafe(w.heap, w.pool) && SlotsSafe(w.heap, w.pool, w.slots)
    && EngineSafe(w.heap, w.slots, w.engine, w.retiring)
    && NoLeak(w.heap, w.pool, w.slots, w.engine, w.retiring)
    && LoadingSafe(w.heap, w.slots, w.loading) && SawsSafe(w) && LateSafe(w)
  }

  ghost predicate Safe(w: World) { Core(w) && OrphansSafe(w, 1) && ShutSafe(w) }

  // ----- when a step keeps it --------------------------------------------------------------------

  // No live slot refers to the backend.
  ghost predicate Unheld(w: World, id: nat) { forall l | l in w.slots :: w.slots[l].inst != id }

  // No entry, or one whose backend only the engine holds or is about to hold.
  ghost predicate KeyIsFree(w: World, sig: Sig) {
    sig in w.pool ==> Unheld(w, w.pool[sig]) && (w.engine == Some(w.pool[sig]) || Taken(w.retiring, w.pool[sig]))
  }

  // The engine can let go of its backend.
  ghost predicate Forgettable(w: World, current: nat) {
    w.engine.Some? && w.engine.value < |w.heap| && w.heap[w.engine.value].up && w.engine.value != current ==>
      InPool(w.pool, w.engine.value) || Taken(w.retiring, w.engine.value)
  }

  // What a swap shuts down must be up, and not what another one is about to take.
  ghost predicate CanReplace(w: World, saw: Option<nat>, current: nat) {
    if MustRetire(w.pool, saw, current) then
      saw.value < |w.heap| && w.heap[saw.value].up && !Taken(w.retiring, saw.value)
    else Forgettable(w, current)
  }

  // What must hold before the step.
  ghost predicate Harmless(w: World, step: Step)
    requires Enabled(w, step)
  {
    match step
    case Close(k) => k.pipeline !in w.gone
    case CloseAborts(_) => false
    case Commit(k) => KeyIsFree(w, w.slots[k].pending.value)
    case OrphanCommit(k) => k !in w.shut && KeyIsFree(w, w.orphans[k].sig)
    case LateUp(id) => Owned(w.slots, id)
    case Release(p) => forall k | k in w.shut && k.pipeline == p :: k in w.slots
    case EngineHit(j, sig) => CanReplace(w, w.engine, w.pool[sig])
    case EngineCommit(j) =>
      KeyIsFree(w, w.loading[j].sig) && CanReplace(Registered(w, j), w.loading[j].saw, w.loading[j].inst)
    case EngineTakes(j) => Forgettable(WithoutRetiring(w, j), w.retiring[j].next)
    case EngineAborts(j) => CanAbort(WithoutRetiring(w, j), w.retiring[j].next)
    case _ => true
  }

  // Another swap replaces a backend that was shut down, and the one that is not taken is held elsewhere.
  ghost predicate CanAbort(w: World, next: nat) {
    && (w.engine.Some? && w.engine.value < |w.heap| && !w.heap[w.engine.value].up ==>
          IsRetired(w.retiring, w.engine.value))
    && (InPool(w.pool, next) || w.engine == Some(next) || Taken(w.retiring, next))
  }

  // ----- its parts under the pieces of a step ------------------------------------------------------

  lemma PoolHolds(w: World)
    requires PoolSafe(w.heap, w.pool)
    ensures forall id: nat | InPool(w.pool, id) :: id < |w.heap| && w.heap[id] == Backend(true, 0)
  {
  }

  lemma PoolMembers(pool: map<Sig, nat>)
    ensures forall s | s in pool :: InPool(pool, pool[s])
  {
  }

  lemma PoolAfter(pool: map<Sig, nat>, sig: Sig, id: nat)
    requires !InPool(pool, id)
    requires forall s, t | s in pool && t in pool && pool[s] == pool[t] :: s == t
    ensures forall x: nat :: InPool(pool[sig := id], x) <==>
                             x == id || (InPool(pool, x) && (sig in pool ==> x != pool[sig]))
  {
    var after := pool[sig := id];
    assert after[sig] == id;
    forall x: nat | InPool(pool, x) && (sig in pool ==> x != pool[sig]) ensures InPool(after, x) {
      var s :| s in pool && pool[s] == x;
      assert after[s] == x;
    }
    forall x: nat | InPool(after, x) && x != id ensures InPool(pool, x) && (sig in pool ==> x != pool[sig]) {
      var s :| s in after && after[s] == x;
      assert s in pool && pool[s] == x;
    }
  }

  lemma KeysApart(pool: map<Sig, nat>, sig: Sig, id: nat)
    requires forall s, t | s in pool && t in pool && pool[s] == pool[t] :: s == t
    requires !InPool(pool, id)
    ensures var after := pool[sig := id]; forall s, t | s in after && t in after && after[s] == after[t] :: s == t
  {
  }

  lemma OwnedShrinks(slots: map<SlotKey, Slot>, k: SlotKey)
    requires k in slots
    requires forall l | l in slots && slots[l].inst == slots[k].inst && !slots[k].pooled :: l == k
    ensures forall id :: Owned(slots - {k}, id) <==> Owned(slots, id) && !(slots[k].inst == id && !slots[k].pooled)
  {
    forall id | Owned(slots, id) && !(slots[k].inst == id && !slots[k].pooled) ensures Owned(slots - {k}, id) {
      var l :| l in slots && slots[l].inst == id && !slots[l].pooled;
      assert l != k && (slots - {k})[l] == slots[l];
    }
  }

  lemma OwnedGrows(slots: map<SlotKey, Slot>, k: SlotKey, slot: Slot)
    requires k !in slots
    ensures forall id :: Owned(slots[k := slot], id) <==> Owned(slots, id) || (slot.inst == id && !slot.pooled)
  {
    var grown := slots[k := slot];
    forall id | Owned(slots, id) ensures Owned(grown, id) {
      var l :| l in slots && slots[l].inst == id && !slots[l].pooled;
      assert grown[l] == slots[l];
    }
    assert grown[k] == slot;
  }

  lemma SlotOwns(w: World, k: SlotKey)
    requires k in w.slots
    ensures !w.slots[k].pooled ==> Owned(w.slots, w.slots[k].inst)
  {
  }

  lemma SlotsUnique(w: World, l: SlotKey)
    requires SlotsSafe(w.heap, w.pool, w.slots) && l in w.slots && !w.slots[l].pooled
    ensures forall k | k in w.slots && w.slots[k].inst == w.slots[l].inst :: k == l
  {
  }

  lemma WaitingSlot(w: World, k: SlotKey)
    requires SlotsSafe(w.heap, w.pool, w.slots) && Waiting(w, k)
    ensures var slot := w.slots[k]; slot.inst < |w.heap| && w.heap[slot.inst] == Backend(false, 0) && !slot.pooled
  {
    assert SlotSafe(w.heap, w.pool, k, w.slots[k]);
  }

  lemma UnheldIf(w: World, id: nat)
    requires SlotsSafe(w.heap, w.pool, w.slots) && !Owned(w.slots, id) && !InPool(w.pool, id)
    ensures Unheld(w, id)
  {
  }

  // What is up is held by someone.
  lemma UpIsKept(w: World, id: nat)
    requires NoLeak(w.heap, w.pool, w.slots, w.engine, w.retiring) && id < |w.heap|
    ensures w.heap[id].up ==> Kept(w.pool, w.slots, w.engine, w.retiring, id)
    ensures w.heap[id].shutdowns <= 1
  {
  }

  // The instance number is in use by nobody.
  ghost predicate Unused(w: World, id: nat) {
    && Unheld(w, id)
    && (forall j | j in w.loading :: w.loading[j].inst != id && w.loading[j].saw != Some(id))
    && (forall k | k in w.orphans :: w.orphans[k].inst != id)
    && id !in w.late && w.engine != Some(id)
  }

  // ----- giving a slot up --------------------------------------------------------------------------

  lemma DetachCorePool(w: World, k: SlotKey)
    requires Core(w) && k in w.slots
    ensures var v := Detach(w, k);
            PoolSafe(v.heap, v.pool) && EngineSafe(v.heap, v.slots, v.engine, v.retiring)
  {
    PoolHolds(w);
    OwnedShrinks(w.slots, k);
    hide InPool, Owned, IsRetired, NoLeak, LoadingSafe, SawsSafe, LateSafe;
  }

  lemma DetachCoreLeak(w: World, k: SlotKey)
    requires Core(w) && k in w.slots
    ensures var v := Detach(w, k); NoLeak(v.heap, v.pool, v.slots, v.engine, v.retiring)
  {
    PoolHolds(w);
    OwnedShrinks(w.slots, k);
    hide InPool, Owned, Taken, LoadingSafe, SawsSafe, LateSafe, EngineSafe;
  }

  lemma DetachCoreSlots(w: World, k: SlotKey)
    requires Core(w) && k in w.slots
    ensures var v := Detach(w, k); SlotsSafe(v.heap, v.pool, v.slots)
  {
    PoolHolds(w);
    OwnedShrinks(w.slots, k);
    hide InPool, Owned, NoLeak, EngineSafe, LoadingSafe, SawsSafe, LateSafe;
  }

  lemma DetachCoreLoading(w: World, k: SlotKey)
    requires Core(w) && k in w.slots
    ensures var v := Detach(w, k); LoadingSafe(v.heap, v.slots, v.loading)
  {
    PoolHolds(w);
    OwnedShrinks(w.slots, k);
    hide InPool, Owned, NoLeak, EngineSafe, SawsSafe, LateSafe;
  }

  lemma DetachCoreSaws(w: World, k: SlotKey)
    requires Core(w) && k in w.slots
    ensures var v := Detach(w, k); SawsSafe(v) && LateSafe(v)
  {
    PoolHolds(w);
    OwnedShrinks(w.slots, k);
    SlotOwns(w, k);
    hide InPool, Owned, Taken, PoolSafe, SlotsSafe, NoLeak, EngineSafe, LoadingSafe;
  }

  lemma DetachCore(w: World, k: SlotKey)
    requires Core(w) && k in w.slots
    ensures Core(Detach(w, k))
  {
    hide InPool, Owned, PoolSafe, SlotsSafe, NoLeak, EngineSafe, LoadingSafe, SawsSafe, LateSafe;
    DetachCorePool(w, k);
    DetachCoreLeak(w, k);
    DetachCoreSlots(w, k);
    DetachCoreLoading(w, k);
    DetachCoreSaws(w, k);
  }

  lemma DetachOrphans(w: World, k: SlotKey, shutdowns: nat)
    requires OrphansSafe(w, shutdowns) && k in w.slots
    ensures OrphansSafe(Detach(w, k), shutdowns)
  {
  }

  // The same when nothing is shut down: the slot's backend is pooled or never came up.
  lemma WithoutCore(w: World, k: SlotKey)
    requires Core(w) && k in w.slots && (w.slots[k].pooled || w.heap[w.slots[k].inst].up == false)
    ensures Core(Without(w, k))
  {
    WithoutRest(w, k);
    WithoutSlots(w, k);
    OwnedShrinks(w.slots, k);
    hide InPool, Owned, Taken, IsRetired, SlotsSafe, LoadingSafe, SawsSafe, LateSafe;
  }

  lemma WithoutSlots(w: World, k: SlotKey)
    requires Core(w) && k in w.slots
    ensures SlotsSafe(w.heap, w.pool, Without(w, k).slots)
    ensures forall l | l in w.slots && w.slots[l].inst == w.slots[k].inst && !w.slots[k].pooled :: l == k
  {
    hide InPool, Owned, NoLeak, EngineSafe, LoadingSafe, SawsSafe, LateSafe, PoolSafe;
  }

  lemma WithoutRest(w: World, k: SlotKey)
    requires Core(w) && k in w.slots
    ensures var v := Without(w, k); LoadingSafe(v.heap, v.slots, v.loading) && SawsSafe(v) && LateSafe(v)
  {
    OwnedShrinks(w.slots, k);
    hide InPool, Owned, Taken, PoolSafe, NoLeak, EngineSafe;
  }

  lemma WithoutOrphans(w: World, k: SlotKey, shutdowns: nat)
    requires OrphansSafe(w, shutdowns)
    ensures OrphansSafe(Without(w, k), shutdowns)
  {
  }

  lemma WithoutIsUnused(w: World, k: SlotKey, shutdowns: nat)
    requires Core(w) && OrphansSafe(w, shutdowns) && Waiting(w, k)
    ensures Unused(Without(w, k), w.slots[k].inst)
  {
    WaitingSlot(w, k);
    SlotOwns(w, k);
    SlotsUnique(w, k);
    hide InPool, Owned, PoolSafe, SlotsSafe, NoLeak;
  }

  // ----- looking a signature up --------------------------------------------------------------------

  lemma AllocCore(w: World)
    requires Core(w)
    ensures Core(Alloc(w)) && !InPool(w.pool, |w.heap|)
  {
    AllocSaws(w);
    AllocPool(w);
    AllocLeak(w);
    AllocEngine(w);
    hide InPool, Owned, PoolSafe, NoLeak, EngineSafe, SawsSafe, LateSafe;
  }

  lemma AllocPool(w: World)
    requires Core(w)
    ensures PoolSafe(Alloc(w).heap, w.pool) && !InPool(w.pool, |w.heap|)
  {
    PoolHolds(w);
    hide InPool, Owned, NoLeak, SlotsSafe, LoadingSafe, SawsSafe, LateSafe, EngineSafe;
  }

  lemma AllocLeak(w: World)
    requires Core(w)
    ensures var v := Alloc(w); NoLeak(v.heap, v.pool, v.slots, v.engine, v.retiring)
  {
    hide Kept, PoolSafe, SlotsSafe, LoadingSafe, SawsSafe, LateSafe, EngineSafe;
  }

  lemma AllocEngine(w: World)
    requires Core(w)
    ensures var v := Alloc(w); EngineSafe(v.heap, v.slots, v.engine, v.retiring)
  {
    hide InPool, Owned, IsRetired, PoolSafe, NoLeak, SlotsSafe, LoadingSafe, SawsSafe, LateSafe;
  }

  lemma AllocSaws(w: World)
    requires Core(w)
    ensures SawsSafe(Alloc(w)) && LateSafe(Alloc(w))
  {
    hide InPool, Owned, Taken, PoolSafe, SlotsSafe, NoLeak, EngineSafe, LoadingSafe;
  }

  lemma AllocUnused(w: World, shutdowns: nat)
    requires Core(w) && OrphansSafe(w, shutdowns)
    ensures OrphansSafe(Alloc(w), shutdowns) && Unused(Alloc(w), |w.heap|)
  {
    hide InPool, Owned, Taken, IsRetired, NoLeak, PoolSafe;
  }

  // A slot may be filled with a pooled backend, or with a new one that nobody else uses.
  ghost predicate Fits(w: World, k: SlotKey, slot: Slot) {
    && k !in w.slots && slot.inst < |w.heap|
    && (slot.pooled <==> InPool(w.pool, slot.inst))
    && (!slot.pooled ==> Unused(w, slot.inst) && w.heap[slot.inst] == Backend(false, 0))
    && (slot.pending.Some? ==> !slot.pooled && slot.pending.value.kind == k.kind)
  }

  lemma AttachCorePool(w: World, k: SlotKey, slot: Slot)
    requires Core(w) && Fits(w, k, slot)
    ensures var v := Attach(w, k, slot);
            PoolSafe(v.heap, v.pool) && EngineSafe(v.heap, v.slots, v.engine, v.retiring)
  {
    PoolHolds(w);
    OwnedGrows(w.slots, k, slot);
    hide InPool, Owned, IsRetired, SlotsSafe, NoLeak, LoadingSafe, SawsSafe, LateSafe;
  }

  lemma AttachCoreLeak(w: World, k: SlotKey, slot: Slot)
    requires Core(w) && Fits(w, k, slot)
    ensures var v := Attach(w, k, slot); NoLeak(v.heap, v.pool, v.slots, v.engine, v.retiring)
  {
    PoolHolds(w);
    OwnedGrows(w.slots, k, slot);
    hide InPool, Owned, Taken, PoolSafe, SlotsSafe, EngineSafe, LoadingSafe, SawsSafe, LateSafe;
  }

  lemma AttachCoreSlots(w: World, k: SlotKey, slot: Slot)
    requires Core(w) && Fits(w, k, slot)
    ensures var v := Attach(w, k, slot); SlotsSafe(v.heap, v.pool, v.slots)
  {
    PoolHolds(w);
    hide InPool, Owned, NoLeak, EngineSafe, LoadingSafe, SawsSafe, LateSafe;
  }

  lemma AttachCoreLoading(w: World, k: SlotKey, slot: Slot)
    requires Core(w) && Fits(w, k, slot)
    ensures var v := Attach(w, k, slot); LoadingSafe(v.heap, v.slots, v.loading)
  {
    PoolHolds(w);
    hide InPool, Owned, NoLeak, EngineSafe, SawsSafe, LateSafe, SlotsSafe;
  }

  lemma AttachCoreSaws(w: World, k: SlotKey, slot: Slot)
    requires Core(w) && Fits(w, k, slot)
    ensures var v := Attach(w, k, slot); SawsSafe(v) && LateSafe(v)
  {
    PoolHolds(w);
    OwnedGrows(w.slots, k, slot);
    hide InPool, Owned, Taken, PoolSafe, SlotsSafe, NoLeak, EngineSafe, LoadingSafe;
  }

  lemma AttachCore(w: World, k: SlotKey, slot: Slot)
    requires Core(w) && Fits(w, k, slot)
    ensures Core(Attach(w, k, slot))
  {
    hide InPool, Owned, PoolSafe, SlotsSafe, NoLeak, EngineSafe, LoadingSafe, SawsSafe, LateSafe, Fits;
    AttachCorePool(w, k, slot);
    AttachCoreLeak(w, k, slot);
    AttachCoreSlots(w, k, slot);
    AttachCoreLoading(w, k, slot);
    AttachCoreSaws(w, k, slot);
  }

  lemma AttachOrphans(w: World, k: SlotKey, slot: Slot, shutdowns: nat)
    requires PoolSafe(w.heap, w.pool) && OrphansSafe(w, shutdowns) && k !in w.orphans && Fits(w, k, slot)
    ensures OrphansSafe(Attach(w, k, slot), shutdowns)
  {
    PoolHolds(w);
    hide InPool;
  }

  lemma FetchSafe(w: World, k: SlotKey, sig: Sig, shutdowns: nat)
    requires Core(w) && OrphansSafe(w, shutdowns) && k !in w.slots && k !in w.orphans && sig.kind == k.kind
    ensures Core(Fetch(w, k, sig)) && OrphansSafe(Fetch(w, k, sig), shutdowns)
  {
    hide Core, OrphansSafe, Unused;
    if sig in w.pool {
      PooledHere(w, sig);
      AttachCore(w, k, Slot(w.pool[sig], true, None));
      AttachOrphans(w, k, Slot(w.pool[sig], true, None), shutdowns);
    } else {
      AllocCore(w);
      AllocUnused(w, shutdowns);
      CorePool(Alloc(w));
      AttachCore(Alloc(w), k, Slot(|w.heap|, false, Some(sig)));
      AttachOrphans(Alloc(w), k, Slot(|w.heap|, false, Some(sig)), shutdowns);
    }
  }

  lemma CorePool(w: World)
    requires Core(w)
    ensures PoolSafe(w.heap, w.pool)
  {
  }

  lemma PooledHere(w: World, sig: Sig)
    requires Core(w) && sig in w.pool
    ensures PoolSafe(w.heap, w.pool) && InPool(w.pool, w.pool[sig]) && w.pool[sig] < |w.heap|
  {
    CorePool(w);
    assert w.pool[sig] == w.pool[sig];
  }

  // ----- calls of pipelines that are gone -----------------------------------------------------------

  lemma WithOrphanCore(w: World, k: SlotKey, orphan: Orphan)
    requires Core(w) && Unused(w, orphan.inst)
    ensures Core(WithOrphan(w, k, orphan))
  {
    hide InPool, Owned, Taken, PoolSafe, SlotsSafe, NoLeak, EngineSafe, LoadingSafe;
  }

  lemma WithOrphanSafe(w: World, k: SlotKey, orphan: Orphan, shutdowns: nat)
    requires OrphansSafe(w, shutdowns) && Unused(w, orphan.inst) && OrphanSafe(w, k, orphan.inst, shutdowns)
    ensures OrphansSafe(WithOrphan(w, k, orphan), shutdowns)
  {
  }

  lemma WithoutOrphanSafe(w: World, k: SlotKey, shutdowns: nat)
    requires Core(w) && OrphansSafe(w, shutdowns)
    ensures Core(WithoutOrphan(w, k)) && OrphansSafe(WithoutOrphan(w, k), shutdowns)
  {
    hide InPool, Owned, Taken, PoolSafe, SlotsSafe, NoLeak, EngineSafe, LoadingSafe;
  }

  lemma OrphanUnused(w: World, k: SlotKey, shutdowns: nat)
    requires Core(w) && OrphansSafe(w, shutdowns) && k in w.orphans && w.heap[w.orphans[k].inst].shutdowns == 0
    ensures var id := w.orphans[k].inst;
            Unused(WithoutOrphan(w, k), id) && id < |w.heap| && w.heap[id] == Backend(false, 0)
  {
    NotPooled(w, w.orphans[k].inst);
    hide InPool, Owned, Taken, IsRetired, PoolSafe, SlotsSafe, NoLeak;
  }

  lemma NotPooled(w: World, id: nat)
    requires Core(w) && id < |w.heap| && !w.heap[id].up
    ensures !InPool(w.pool, id)
  {
    PoolHolds(w);
    hide InPool;
  }

  // ----- a registration ------------------------------------------------------------------------------

  // An instance that nobody uses enters the pool under a free key.
  ghost predicate Fresh(w: World, sig: Sig, id: nat) {
    id < |w.heap| && w.heap[id] == Backend(false, 0) && Unused(w, id) && KeyIsFree(w, sig)
  }

  // Who is in the pool after it.
  lemma PutPool(w: World, sig: Sig, id: nat)
    requires Core(w) && id < |w.heap| && w.heap[id] == Backend(false, 0)
    ensures !InPool(w.pool, id)
    ensures forall x: nat :: InPool(Put(w, sig, id).pool, x) <==>
                             x == id || (InPool(w.pool, x) && (sig in w.pool ==> x != w.pool[sig]))
  {
    NotPooled(w, id);
    hide InPool, Owned, NoLeak, EngineSafe, LoadingSafe, SawsSafe, LateSafe, SlotsSafe;
    PoolAfter(w.pool, sig, id);
  }

  lemma PutCorePool(w: World, sig: Sig, id: nat)
    requires Core(w) && Fresh(w, sig, id)
    ensures var v := Put(w, sig, id); PoolSafe(v.heap, v.pool)
  {
    PutPool(w, sig, id);
    PoolMembers(w.pool);
    hide InPool, Owned, NoLeak, EngineSafe, LoadingSafe, SawsSafe, LateSafe, SlotsSafe, Unused, KeyIsFree;
    KeysApart(w.pool, sig, id);
  }

  lemma PutCoreEngine(w: World, sig: Sig, id: nat)
    requires Core(w) && Fresh(w, sig, id)
    ensures var v := Put(w, sig, id); EngineSafe(v.heap, v.slots, v.engine, v.retiring)
  {
    hide InPool, Owned, IsRetired, NoLeak, PoolSafe, LoadingSafe, SawsSafe, LateSafe, SlotsSafe, KeyIsFree;
  }

  lemma PutCoreLeak(w: World, sig: Sig, id: nat)
    requires Core(w) && Fresh(w, sig, id)
    ensures var v := Put(w, sig, id); NoLeak(v.heap, v.pool, v.slots, v.engine, v.retiring)
  {
    PutPool(w, sig, id);
    hide InPool, Owned, Taken, EngineSafe, PoolSafe, LoadingSafe, SawsSafe, LateSafe, SlotsSafe, Unused;
  }

  lemma PutCoreSlots(w: World, sig: Sig, id: nat)
    requires Core(w) && Fresh(w, sig, id)
    ensures var v := Put(w, sig, id);
            SlotsSafe(v.heap, v.pool, v.slots) && LoadingSafe(v.heap, v.slots, v.loading) && LateSafe(v)
  {
    PutPool(w, sig, id);
    hide InPool, Owned, Taken, EngineSafe, PoolSafe, NoLeak, SawsSafe;
  }

  lemma PutSaw(w: World, sig: Sig, id: nat, l: Loading)
    requires Core(w) && Fresh(w, sig, id) && SawSafe(w, l) && l.saw != Some(id)
    ensures SawSafe(Put(w, sig, id), l)
  {
    PutPool(w, sig, id);
    hide InPool, Owned, Taken, EngineSafe, PoolSafe, NoLeak, SlotsSafe, LoadingSafe, LateSafe;
  }

  lemma PutSaws(w: World, sig: Sig, id: nat)
    requires Core(w) && Fresh(w, sig, id)
    ensures SawsSafe(Put(w, sig, id))
  {
    hide PoolSafe, SlotsSafe, NoLeak, EngineSafe, LoadingSafe, LateSafe, SawSafe, KeyIsFree;
    forall j | j in w.loading ensures SawSafe(Put(w, sig, id), w.loading[j]) {
      PutSaw(w, sig, id, w.loading[j]);
    }
  }

  lemma PutCore(w: World, sig: Sig, id: nat)
    requires Core(w) && Fresh(w, sig, id)
    ensures Core(Put(w, sig, id))
  {
    hide PoolSafe, SlotsSafe, NoLeak, EngineSafe, LoadingSafe, SawsSafe, LateSafe, Fresh, Put;
    PutCorePool(w, sig, id);
    PutCoreEngine(w, sig, id);
    PutCoreLeak(w, sig, id);
    PutCoreSlots(w, sig, id);
    PutSaws(w, sig, id);
    PutElse(w, sig, id);
  }

  lemma PutElse(w: World, sig: Sig, id: nat)
    ensures var v := Put(w, sig, id);
            && v.slots == w.slots && v.engine == w.engine && v.loading == w.loading && v.orphans == w.orphans
            && v.late == w.late && v.retiring == w.retiring && v.shut == w.shut && v.gone == w.gone
            && v.pool == w.pool[sig := id]
            && |v.heap| == |w.heap| && forall x: nat | x < |w.heap| && x != id :: v.heap[x] == w.heap[x]
    ensures id < |w.heap| ==> Put(w, sig, id).heap[id] == w.heap[id].(up := true)
  {
  }

  lemma PutOrphans(w: World, sig: Sig, id: nat, shutdowns: nat)
    requires OrphansSafe(w, shutdowns) && Unused(w, id)
    ensures OrphansSafe(Put(w, sig, id), shutdowns)
  {
  }

  // A key that is not free: the entry it loses is still borrowed, or up and held by nobody.
  lemma LostEntry(w: World, v: World, sig: Sig, id: nat)
    requires PoolSafe(w.heap, w.pool) && SlotsSafe(w.heap, w.pool, w.slots)
    requires sig in w.pool && !KeyIsFree(w, sig) && !InPool(w.pool, id) && v.pool == w.pool[sig := id]
    requires w.pool[sig] < |v.heap| && v.heap[w.pool[sig]].up
    requires forall k | k in w.slots && w.slots[k].pooled :: k in v.slots && v.slots[k] == w.slots[k]
    requires forall k | k in v.slots && !v.slots[k].pooled :: k in w.slots && v.slots[k] == w.slots[k]
    requires v.engine in {w.engine, Some(id)}
    requires forall j | j in v.retiring ::
             v.retiring[j].next == id || (j in w.retiring && v.retiring[j] == w.retiring[j])
    ensures !Core(v)
  {
    var lost := w.pool[sig];
    PoolMembers(w.pool);
    PoolAfter(w.pool, sig, id);
    if !Unheld(w, lost) {
      var l :| l in w.slots && w.slots[l].inst == lost;
      BorrowedBy(w, l);
      hide InPool;
      assert !SlotSafe(v.heap, v.pool, l, v.slots[l]);
    } else {
      hide InPool;
      assert !Owned(v.slots, lost) && !Taken(v.retiring, lost);
      assert !Kept(v.pool, v.slots, v.engine, v.retiring, lost);
    }
  }

  lemma BorrowedBy(w: World, l: SlotKey)
    requires SlotsSafe(w.heap, w.pool, w.slots) && l in w.slots && InPool(w.pool, w.slots[l].inst)
    ensures w.slots[l].pooled
  {
    assert SlotSafe(w.heap, w.pool, l, w.slots[l]);
  }

  // ----- commits of a pipeline ------------------------------------------------------------------------

  // Out of the slot, into the pool, and back as a borrowed one.
  lemma CommitIs(w: World, k: SlotKey)
    requires Waiting(w, k)
    ensures var slot := w.slots[k];
            Next(w, Commit(k))
            == Attach(Put(Without(w, k), slot.pending.value, slot.inst), k, Slot(slot.inst, true, None))
  {
    var slot := w.slots[k];
    assert (w.slots - {k})[k := Slot(slot.inst, true, None)] == w.slots[k := Slot(slot.inst, true, None)];
  }

  lemma CommitFresh(w: World, k: SlotKey, shutdowns: nat)
    requires Core(w) && OrphansSafe(w, shutdowns) && Waiting(w, k) && KeyIsFree(w, w.slots[k].pending.value)
    ensures Fresh(Without(w, k), w.slots[k].pending.value, w.slots[k].inst)
  {
    WaitingSlot(w, k);
    WithoutIsUnused(w, k, shutdowns);
    hide InPool, Owned, Taken, Unused, PoolSafe, SlotsSafe, NoLeak, EngineSafe, LoadingSafe, SawsSafe, LateSafe;
  }

  lemma CommitSafe(w: World, k: SlotKey, shutdowns: nat)
    requires Core(w) && OrphansSafe(w, shutdowns) && Waiting(w, k) && KeyIsFree(w, w.slots[k].pending.value)
    ensures Core(Next(w, Commit(k))) && OrphansSafe(Next(w, Commit(k)), shutdowns)
  {
    hide Core, OrphansSafe, Unused, Put, Fits;
    var slot := w.slots[k];
    var v := Without(w, k);
    CommitFresh(w, k, shutdowns);
    WaitingHere(w, k, shutdowns);
    WithoutCore(w, k);
    WithoutOrphans(w, k, shutdowns);
    PutCore(v, slot.pending.value, slot.inst);
    PutOrphans(v, slot.pending.value, slot.inst, shutdowns);
    PutFits(v, k, slot.pending.value, slot.inst);
    var u := Put(v, slot.pending.value, slot.inst);
    CorePool(u);
    AttachCore(u, k, Slot(slot.inst, true, None));
    AttachOrphans(u, k, Slot(slot.inst, true, None), shutdowns);
    CommitIs(w, k);
  }

  lemma WaitingHere(w: World, k: SlotKey, shutdowns: nat)
    requires Core(w) && OrphansSafe(w, shutdowns) && Waiting(w, k)
    ensures w.slots[k].inst < |w.heap| && !w.heap[w.slots[k].inst].up && k !in w.orphans
  {
    WaitingSlot(w, k);
  }

  lemma PutFits(w: World, k: SlotKey, sig: Sig, id: nat)
    requires k !in w.slots && id < |w.heap|
    ensures Fits(Put(w, sig, id), k, Slot(id, true, None))
    ensures Put(w, sig, id).orphans == w.orphans
  {
    assert Put(w, sig, id).pool[sig] == id;
  }

  lemma CommitUnsafe(w: World, k: SlotKey)
    requires Safe(w) && Waiting(w, k) && !KeyIsFree(w, w.slots[k].pending.value)
    ensures !Safe(Next(w, Commit(k)))
  {
    WaitingSlot(w, k);
    NotPooled(w, w.slots[k].inst);
    PoolHolds(w);
    PoolMembers(w.pool);
    hide InPool, Owned, Taken, Core, OrphansSafe, ShutSafe, KeyIsFree;
    LostEntry(w, Next(w, Commit(k)), w.slots[k].pending.value, w.slots[k].inst);
  }

  // ----- commits of a pipeline that is gone --------------------------------------------------------------

  lemma ReplacedSafe(w: World, k: SlotKey, shutdowns: nat)
    requires Core(w) && OrphansSafe(w, shutdowns) && k !in w.orphans
    ensures Core(Replaced(w, k)) && OrphansSafe(Replaced(w, k), shutdowns)
  {
    hide InPool, Owned, Taken, PoolSafe, SlotsSafe, NoLeak, EngineSafe, LoadingSafe;
  }

  lemma OrphanCommitSafe(w: World, k: SlotKey, shutdowns: nat)
    requires Core(w) && OrphansSafe(w, shutdowns) && k in w.orphans && k !in w.shut && KeyIsFree(w, w.orphans[k].sig)
    ensures Core(Next(w, OrphanCommit(k))) && OrphansSafe(Next(w, OrphanCommit(k)), shutdowns)
  {
    hide Core, OrphansSafe, Unused, Put;
    var orphan := w.orphans[k];
    OrphanIsNew(w, k, shutdowns);
    OrphanUnused(w, k, shutdowns);
    WithoutOrphanSafe(w, k, shutdowns);
    ReplacedSafe(WithoutOrphan(w, k), k, shutdowns);
    var v := Replaced(WithoutOrphan(w, k), k);
    assert Unused(v, orphan.inst) && KeyIsFree(v, orphan.sig) by { SameUse(w, k); }
    PutCore(v, orphan.sig, orphan.inst);
    PutOrphans(v, orphan.sig, orphan.inst, shutdowns);
  }

  lemma SameUse(w: World, k: SlotKey)
    requires k in w.orphans && Unused(WithoutOrphan(w, k), w.orphans[k].inst) && KeyIsFree(w, w.orphans[k].sig)
    ensures var v := Replaced(WithoutOrphan(w, k), k);
            Unused(v, w.orphans[k].inst) && KeyIsFree(v, w.orphans[k].sig)
  {
    hide Taken;
  }

  lemma OrphanIsNew(w: World, k: SlotKey, shutdowns: nat)
    requires OrphansSafe(w, shutdowns) && k in w.orphans
    ensures w.orphans[k].inst < |w.heap| && !w.heap[w.orphans[k].inst].up
    ensures w.heap[w.orphans[k].inst].shutdowns == if k in w.shut then shutdowns else 0
  {
    assert OrphanSafe(w, k, w.orphans[k].inst, shutdowns);
  }

  lemma OrphanCommitUnsafe(w: World, k: SlotKey)
    requires Safe(w) && k in w.orphans && !Harmless(w, OrphanCommit(k))
    ensures !Safe(Next(w, OrphanCommit(k)))
  {
    OrphanIsNew(w, k, 1);
    NotPooled(w, w.orphans[k].inst);
    PoolHolds(w);
    PoolMembers(w.pool);
    var v, orphan := Next(w, OrphanCommit(k)), w.orphans[k];
    assert v.pool[orphan.sig] == orphan.inst;
    hide InPool, Owned, Taken, Core, OrphansSafe, KeyIsFree;
    if k in w.shut { DeadEntry(v, orphan.sig); } else { LostEntry(w, v, orphan.sig, orphan.inst); }
  }

  lemma DeadEntry(v: World, sig: Sig)
    requires sig in v.pool && (v.pool[sig] < |v.heap| ==> v.heap[v.pool[sig]].shutdowns >= 1)
    ensures !Core(v)
  {
  }

  // ----- a call that fails ---------------------------------------------------------------------------

  lemma SiblingsAre(w: World, k: SlotKey, id: nat)
    requires id in Siblings(w, k)
    ensures (exists l :: l != k && l.pipeline == k.pipeline && Waiting(w, l) && w.slots[l].inst == id)
         || (exists l :: l != k && l.pipeline == k.pipeline && l in w.orphans && w.orphans[l].inst == id)
  {
  }

  lemma FailedSlots(w: World, k: SlotKey, isNew: bool)
    requires Core(w) && Enabled(w, CallFails(k, isNew))
    ensures var v := Failed(w, k, isNew);
            forall id: nat | id < |w.heap| && w.heap[id].up :: Owned(v.slots, id) <==> Owned(w.slots, id)
    ensures var v := Failed(w, k, isNew);
            (forall id: nat | Owned(v.slots, id) :: Owned(w.slots, id))
            && (forall l | l in v.slots ::
                  && l in w.slots && v.slots[l].inst == w.slots[l].inst && v.slots[l].pooled == w.slots[l].pooled
                  && (v.slots[l].pending == None
                      || (l.pipeline != k.pipeline && v.slots[l].pending == w.slots[l].pending)))
  {
    hide NoLeak, EngineSafe, LoadingSafe, SawsSafe, LateSafe, PoolSafe, InPool;
    var v := Failed(w, k, isNew);
    forall id: nat | id < |w.heap| && w.heap[id].up && Owned(w.slots, id) ensures Owned(v.slots, id) {
      var l :| l in w.slots && w.slots[l].inst == id && !w.slots[l].pooled;
      assert SlotSafe(w.heap, w.pool, l, w.slots[l]);
      assert l in v.slots && v.slots[l].inst == id;
    }
    forall id: nat | Owned(v.slots, id) ensures Owned(w.slots, id) {
      var l :| l in v.slots && v.slots[l].inst == id && !v.slots[l].pooled;
      assert w.slots[l].inst == id && !w.slots[l].pooled;
    }
  }

  lemma FailedLate(w: World, k: SlotKey, isNew: bool, shutdowns: nat)
    requires Core(w) && OrphansSafe(w, shutdowns) && Enabled(w, CallFails(k, isNew))
    ensures LateSafe(Failed(w, k, isNew))
  {
    hide InPool, Owned, PoolSafe, SlotsSafe, NoLeak, EngineSafe, LoadingSafe, SawsSafe, Siblings, OrphansSafe;
    FailedSlots(w, k, isNew);
    SiblingsUnawaited(w, k, isNew, shutdowns);
    LateNotLoading(w, k, shutdowns);
  }

  lemma SiblingsUnawaited(w: World, k: SlotKey, isNew: bool, shutdowns: nat)
    requires Core(w) && OrphansSafe(w, shutdowns) && Enabled(w, CallFails(k, isNew))
    ensures forall id | id in Siblings(w, k) :: NobodyAwaits(Failed(w, k, isNew), id)
  {
    hide InPool, Owned, PoolSafe, SlotsSafe, NoLeak, EngineSafe, LoadingSafe, SawsSafe, LateSafe, OrphansSafe,
         NobodyAwaits;
    forall id | id in Siblings(w, k) ensures NobodyAwaits(Failed(w, k, isNew), id) {
      SiblingsAre(w, k, id);
      if l :| l != k && l.pipeline == k.pipeline && Waiting(w, l) && w.slots[l].inst == id {
        SlotUnawaited(w, k, isNew, l, shutdowns);
      } else {
        var l :| l != k && l.pipeline == k.pipeline && l in w.orphans && w.orphans[l].inst == id;
        OrphanUnawaited(w, k, isNew, l, shutdowns);
      }
    }
  }

  lemma SlotUnawaited(w: World, k: SlotKey, isNew: bool, l: SlotKey, shutdowns: nat)
    requires Core(w) && OrphansSafe(w, shutdowns) && l.pipeline == k.pipeline && Waiting(w, l)
    ensures NobodyAwaits(Failed(w, k, isNew), w.slots[l].inst)
  {
    hide InPool, Owned, PoolSafe, NoLeak, EngineSafe, LoadingSafe, SawsSafe, LateSafe, Siblings;
  }

  lemma OrphanUnawaited(w: World, k: SlotKey, isNew: bool, l: SlotKey, shutdowns: nat)
    requires OrphansSafe(w, shutdowns) && l.pipeline == k.pipeline && l in w.orphans
    ensures NobodyAwaits(Failed(w, k, isNew), w.orphans[l].inst)
  {
    hide Siblings;
  }

  ghost predicate NobodyAwaits(w: World, id: nat) {
    && id < |w.heap| && !w.heap[id].up
    && (forall l | l in w.slots && w.slots[l].pending.Some? :: w.slots[l].inst != id)
    && (forall l | l in w.orphans :: w.orphans[l].inst != id)
  }

  lemma LateNotLoading(w: World, k: SlotKey, shutdowns: nat)
    requires Core(w) && OrphansSafe(w, shutdowns)
    ensures forall id, j | id in Siblings(w, k) && j in w.loading :: w.loading[j].inst != id
  {
    hide NoLeak, EngineSafe, SawsSafe, PoolSafe, InPool, Owned, SlotsSafe, LateSafe;
  }

  lemma FailedSafe(w: World, k: SlotKey, isNew: bool, shutdowns: nat)
    requires Core(w) && OrphansSafe(w, shutdowns) && Enabled(w, CallFails(k, isNew))
    ensures Core(Failed(w, k, isNew)) && OrphansSafe(Failed(w, k, isNew), shutdowns)
  {
    hide InPool, Owned, PoolSafe, SlotsSafe, NoLeak, EngineSafe, LoadingSafe, SawsSafe, LateSafe, Siblings;
    FailedLate(w, k, isNew, shutdowns);
    FailedSaws(w, k, isNew);
    FailedSlotsSafe(w, k, isNew);
    FailedLoading(w, k, isNew);
    FailedEngine(w, k, isNew);
    FailedOrphans(w, k, isNew, shutdowns);
  }

  lemma FailedSlotsSafe(w: World, k: SlotKey, isNew: bool)
    requires Core(w) && Enabled(w, CallFails(k, isNew))
    ensures var v := Failed(w, k, isNew); SlotsSafe(v.heap, v.pool, v.slots)
  {
    FailedSlots(w, k, isNew);
    hide InPool, Owned, PoolSafe, NoLeak, EngineSafe, LoadingSafe, SawsSafe, LateSafe, Siblings;
  }

  lemma FailedLoading(w: World, k: SlotKey, isNew: bool)
    requires Core(w) && Enabled(w, CallFails(k, isNew))
    ensures var v := Failed(w, k, isNew); LoadingSafe(v.heap, v.slots, v.loading)
  {
    FailedSlots(w, k, isNew);
    hide InPool, Owned, PoolSafe, NoLeak, EngineSafe, SlotsSafe, SawsSafe, LateSafe, Siblings;
  }

  lemma FailedEngine(w: World, k: SlotKey, isNew: bool)
    requires Core(w) && Enabled(w, CallFails(k, isNew))
    ensures var v := Failed(w, k, isNew);
            EngineSafe(v.heap, v.slots, v.engine, v.retiring) && NoLeak(v.heap, v.pool, v.slots, v.engine, v.retiring)
  {
    FailedSlots(w, k, isNew);
    hide InPool, Owned, PoolSafe, SlotsSafe, LoadingSafe, SawsSafe, LateSafe, Siblings;
  }

  lemma FailedOrphans(w: World, k: SlotKey, isNew: bool, shutdowns: nat)
    requires Core(w) && OrphansSafe(w, shutdowns) && Enabled(w, CallFails(k, isNew))
    ensures OrphansSafe(Failed(w, k, isNew), shutdowns)
  {
    FailedSlots(w, k, isNew);
    hide InPool, Owned, PoolSafe, SlotsSafe, NoLeak, EngineSafe, LoadingSafe, SawsSafe, LateSafe, Siblings;
  }

  lemma FailedSaws(w: World, k: SlotKey, isNew: bool)
    requires Core(w) && Enabled(w, CallFails(k, isNew))
    ensures SawsSafe(Failed(w, k, isNew))
  {
    FailedSlots(w, k, isNew);
    hide InPool, Owned, LateSafe, LoadingSafe, NoLeak, EngineSafe, SlotsSafe, PoolSafe;
  }

  lemma LateUpCore(w: World, id: nat)
    requires Core(w) && id in w.late && Owned(w.slots, id)
    ensures Core(Next(w, LateUp(id)))
  {
    hide InPool, Owned, PoolSafe, SlotsSafe, NoLeak, EngineSafe, LoadingSafe, SawsSafe, LateSafe;
    LateNotPooled(w, id);
    LateUpSlots(w, id);
    LateUpRest(w, id);
    LateUpSaws(w, id);
  }

  lemma LateNotPooled(w: World, id: nat)
    requires Core(w) && id in w.late
    ensures !InPool(w.pool, id) && id < |w.heap| && !w.heap[id].up
  {
    PoolHolds(w);
    hide InPool, Owned, PoolSafe, SlotsSafe, NoLeak, EngineSafe, LoadingSafe, SawsSafe;
  }

  lemma LateUpSlots(w: World, id: nat)
    requires Core(w) && id in w.late && Owned(w.slots, id)
    ensures var v := Next(w, LateUp(id));
            SlotsSafe(v.heap, v.pool, v.slots) && LoadingSafe(v.heap, v.slots, v.loading) && LateSafe(v)
  {
    hide InPool, Owned, PoolSafe, NoLeak, EngineSafe, SawsSafe;
  }

  lemma LateUpRest(w: World, id: nat)
    requires Core(w) && id in w.late && Owned(w.slots, id) && !InPool(w.pool, id)
    ensures var v := Next(w, LateUp(id));
            PoolSafe(v.heap, v.pool) && EngineSafe(v.heap, v.slots, v.engine, v.retiring)
            && NoLeak(v.heap, v.pool, v.slots, v.engine, v.retiring)
  {
    PoolMembers(w.pool);
    hide InPool, Owned, SlotsSafe, LoadingSafe, SawsSafe, LateSafe;
  }

  lemma LateUpSaws(w: World, id: nat)
    requires Core(w) && id in w.late && Owned(w.slots, id)
    ensures SawsSafe(Next(w, LateUp(id)))
  {
    hide InPool, Owned, PoolSafe, SlotsSafe, NoLeak, EngineSafe, LoadingSafe, LateSafe;
  }

  lemma LateLess(w: World, id: nat, shutdowns: nat)
    requires OrphansSafe(w, shutdowns) && LateSafe(w) && id in w.late
    ensures OrphansSafe(Next(w, LateUp(id)), shutdowns)
  {
  }

  // ----- the engine ----------------------------------------------------------------------------------

  // The engine takes a backend that is up; of the swaps in progress some may end with that.
  ghost predicate MayTake(w: World, current: nat, rest: map<nat, Retiring>) {
    && current < |w.heap| && w.heap[current] == Backend(true, 0) && !Owned(w.slots, current)
    && (forall j | j in rest :: j in w.retiring && rest[j] == w.retiring[j])
    && (forall j | j in w.retiring && j !in rest :: w.retiring[j].next == current)
    && Forgettable(w.(retiring := rest), current)
  }

  ghost function Taking(w: World, current: nat, rest: map<nat, Retiring>): World {
    w.(engine := Some(current), retiring := rest)
  }

  lemma TakenStays(w: World, current: nat, rest: map<nat, Retiring>, id: nat)
    requires forall j | j in w.retiring && j !in rest :: w.retiring[j].next == current
    requires forall j | j in rest :: j in w.retiring && rest[j] == w.retiring[j]
    ensures Taken(w.retiring, id) && id != current ==> Taken(rest, id)
    ensures Taken(rest, id) ==> Taken(w.retiring, id)
  {
    if Taken(w.retiring, id) && id != current {
      var j :| j in w.retiring && w.retiring[j].next == id;
      assert j in rest && rest[j].next == id;
    }
    if Taken(rest, id) {
      var j :| j in rest && rest[j].next == id;
      assert w.retiring[j].next == id;
    }
  }

  lemma TakeLeak(w: World, current: nat, rest: map<nat, Retiring>)
    requires Core(w) && MayTake(w, current, rest)
    ensures var v := Taking(w, current, rest); NoLeak(v.heap, v.pool, v.slots, v.engine, v.retiring)
  {
    hide InPool, Owned, Taken, PoolSafe, SlotsSafe, LoadingSafe, SawsSafe, LateSafe, EngineSafe;
    forall id: nat | id < |w.heap| && w.heap[id].up ensures Kept(w.pool, w.slots, Some(current), rest, id) {
      UpIsKept(w, id);
      TakenStays(w, current, rest, id);
    }
  }

  lemma TakeSaw(w: World, current: nat, rest: map<nat, Retiring>, l: Loading)
    requires Core(w) && MayTake(w, current, rest) && SawSafe(w, l)
    ensures SawSafe(Taking(w, current, rest), l)
  {
    if l.saw.Some? { TakenStays(w, current, rest, l.saw.value); }
    hide InPool, Owned, Taken, IsRetired, PoolSafe, SlotsSafe, LoadingSafe, LateSafe, NoLeak;
  }

  lemma TakeEngine(w: World, current: nat, rest: map<nat, Retiring>)
    requires Core(w) && MayTake(w, current, rest)
    ensures var v := Taking(w, current, rest); EngineSafe(v.heap, v.slots, v.engine, v.retiring) && LateSafe(v)
  {
    hide InPool, Owned, Taken, IsRetired, PoolSafe, SlotsSafe, LoadingSafe, SawsSafe, NoLeak;
  }

  lemma TakeCore(w: World, current: nat, rest: map<nat, Retiring>)
    requires Core(w) && MayTake(w, current, rest)
    ensures Core(Taking(w, current, rest))
  {
    TakeLeak(w, current, rest);
    TakeEngine(w, current, rest);
    hide PoolSafe, SlotsSafe, NoLeak, EngineSafe, LoadingSafe, LateSafe, SawSafe, MayTake;
    forall j | j in w.loading ensures SawSafe(Taking(w, current, rest), w.loading[j]) {
      TakeSaw(w, current, rest, w.loading[j]);
    }
  }

  // The old backend's shutdown begins.  It is the engine's: nobody else could have kept it up.
  ghost predicate MayRetire(w: World, j: nat, saw: nat, current: nat) {
    && j !in w.retiring && current < |w.heap| && w.heap[current] == Backend(true, 0) && !Owned(w.slots, current)
    && saw != current && saw < |w.heap| && w.heap[saw].up && !InPool(w.pool, saw) && !Taken(w.retiring, saw)
    && !Owned(w.slots, saw)
  }

  ghost function Retire(w: World, j: nat, saw: nat, current: nat): World {
    w.(heap := ShutBackend(w.heap, saw), retiring := w.retiring[j := Retiring(saw, current)])
  }

  lemma RetiredIsEngine(w: World, j: nat, saw: nat, current: nat)
    requires Core(w) && MayRetire(w, j, saw, current)
    ensures w.engine == Some(saw) && w.heap[saw] == Backend(true, 0) && Unheld(w, saw)
  {
    UpIsKept(w, saw);
    UnheldIf(w, saw);
    hide InPool, Owned, Taken, Unheld, PoolSafe, SlotsSafe, LoadingSafe, SawsSafe, LateSafe, NoLeak;
  }

  lemma RetiringGrows(retiring: map<nat, Retiring>, j: nat, saw: nat, current: nat)
    requires j !in retiring
    ensures forall id: nat :: Taken(retiring[j := Retiring(saw, current)], id) <==> Taken(retiring, id) || id == current
    ensures forall id: nat | IsRetired(retiring, id) :: IsRetired(retiring[j := Retiring(saw, current)], id)
    ensures IsRetired(retiring[j := Retiring(saw, current)], saw)
  {
    var more := retiring[j := Retiring(saw, current)];
    assert more[j] == Retiring(saw, current);
    forall id: nat | Taken(retiring, id) ensures Taken(more, id) {
      var i :| i in retiring && retiring[i].next == id;
      assert more[i] == retiring[i];
    }
    forall id: nat | IsRetired(retiring, id) ensures IsRetired(more, id) {
      var i :| i in retiring && retiring[i].was == id;
      assert more[i] == retiring[i];
    }
  }

  lemma RetireEngine(w: World, j: nat, saw: nat, current: nat)
    requires Core(w) && MayRetire(w, j, saw, current)
    ensures var v := Retire(w, j, saw, current); EngineSafe(v.heap, v.slots, v.engine, v.retiring)
  {
    RetiredIsEngine(w, j, saw, current);
    RetiringGrows(w.retiring, j, saw, current);
    NotNext(w, saw);
    hide InPool, Owned, Taken, IsRetired, PoolSafe, SlotsSafe, LoadingSafe, SawsSafe, LateSafe, NoLeak;
    var v := Retire(w, j, saw, current);
    assert v.heap[saw] == Backend(false, 1) && IsRetired(v.retiring, saw);
    forall i | i in v.retiring
      ensures v.retiring[i].next < |v.heap| && v.heap[v.retiring[i].next] == Backend(true, 0)
      ensures !Owned(v.slots, v.retiring[i].next)
    {
      assert i == j || (i in w.retiring && v.retiring[i] == w.retiring[i]);
    }
  }

  lemma NotNext(w: World, saw: nat)
    requires !Taken(w.retiring, saw)
    ensures forall i | i in w.retiring :: w.retiring[i].next != saw
  {
  }

  lemma RetireLeak(w: World, j: nat, saw: nat, current: nat)
    requires Core(w) && MayRetire(w, j, saw, current)
    ensures var v := Retire(w, j, saw, current); NoLeak(v.heap, v.pool, v.slots, v.engine, v.retiring)
  {
    RetiredIsEngine(w, j, saw, current);
    RetiringGrows(w.retiring, j, saw, current);
    hide InPool, Owned, Taken, IsRetired, PoolSafe, SlotsSafe, LoadingSafe, SawsSafe, LateSafe, EngineSafe;
  }

  lemma RetireSlots(w: World, j: nat, saw: nat, current: nat)
    requires Core(w) && MayRetire(w, j, saw, current)
    ensures var v := Retire(w, j, saw, current);
            PoolSafe(v.heap, v.pool) && SlotsSafe(v.heap, v.pool, v.slots)
  {
    RetiredIsEngine(w, j, saw, current);
    PoolMembers(w.pool);
    hide InPool, Owned, Taken, IsRetired, NoLeak, LoadingSafe, SawsSafe, LateSafe, EngineSafe;
  }

  lemma RetireLoading(w: World, j: nat, saw: nat, current: nat)
    requires Core(w) && MayRetire(w, j, saw, current)
    ensures var v := Retire(w, j, saw, current);
            LoadingSafe(v.heap, v.slots, v.loading) && LateSafe(v)
  {
    RetiredIsEngine(w, j, saw, current);
    hide InPool, Owned, Taken, IsRetired, NoLeak, PoolSafe, SlotsSafe, SawsSafe, EngineSafe;
  }

  lemma RetireSaws(w: World, j: nat, saw: nat, current: nat)
    requires Core(w) && MayRetire(w, j, saw, current)
    ensures SawsSafe(Retire(w, j, saw, current))
  {
    RetiredIsEngine(w, j, saw, current);
    RetiringGrows(w.retiring, j, saw, current);
    hide InPool, Owned, Taken, IsRetired, NoLeak, PoolSafe, SlotsSafe, LoadingSafe, LateSafe, EngineSafe;
  }

  lemma RetireCore(w: World, j: nat, saw: nat, current: nat)
    requires Core(w) && MayRetire(w, j, saw, current)
    ensures Core(Retire(w, j, saw, current))
  {
    hide PoolSafe, SlotsSafe, NoLeak, EngineSafe, LoadingSafe, LateSafe, SawsSafe, MayRetire;
    RetireEngine(w, j, saw, current);
    RetireLeak(w, j, saw, current);
    RetireSlots(w, j, saw, current);
    RetireLoading(w, j, saw, current);
    RetireSaws(w, j, saw, current);
  }

  // The part of `swap_llm` after the lookup or the registration.
  ghost predicate Replaceable(w: World, j: nat, saw: Option<nat>, current: nat) {
    && j !in w.retiring && InPool(w.pool, current)
    && (saw.Some? ==>
          && saw.value < |w.heap| && !Owned(w.slots, saw.value)
          && (w.engine == saw || InPool(w.pool, saw.value) || Taken(w.retiring, saw.value)
              || w.heap[saw.value] == Backend(false, 1)))
  }

  lemma ReplaceCore(w: World, j: nat, saw: Option<nat>, current: nat)
    requires Core(w) && Replaceable(w, j, saw, current) && CanReplace(w, saw, current)
    ensures Core(Replace(w, j, saw, current))
  {
    hide Core, InPool, Owned, Taken;
    PooledIsUp(w, current);
    if MustRetire(w.pool, saw, current) {
      RetireCore(w, j, saw.value, current);
    } else {
      TakeCore(w, current, w.retiring);
      assert Taking(w, current, w.retiring) == Take(w, current);
    }
  }

  lemma PooledIsUp(w: World, id: nat)
    requires Core(w) && InPool(w.pool, id)
    ensures id < |w.heap| && w.heap[id] == Backend(true, 0) && !Owned(w.slots, id)
  {
    PoolHolds(w);
    hide InPool, NoLeak, EngineSafe, LoadingSafe, SawsSafe, LateSafe;
  }

  lemma ReplaceOrphans(w: World, j: nat, saw: Option<nat>, current: nat, shutdowns: nat)
    requires OrphansSafe(w, shutdowns) && CanReplace(w, saw, current)
    ensures OrphansSafe(Replace(w, j, saw, current), shutdowns)
  {
    hide InPool, Taken, OrphansSafe;
    if MustRetire(w.pool, saw, current) {
      OrphansUp(w, saw.value, shutdowns);
      TakesOrphans(Discard(w, saw.value), 0, w.retiring[j := Retiring(saw.value, current)], shutdowns);
    } else {
      TakesOrphans(w, current, w.retiring, shutdowns);
      assert Taking(w, current, w.retiring) == Take(w, current);
    }
  }

  lemma OrphansUp(w: World, id: nat, shutdowns: nat)
    requires OrphansSafe(w, shutdowns) && id < |w.heap| && w.heap[id].up
    ensures OrphansSafe(Discard(w, id), shutdowns)
  {
  }

  lemma ReplaceUnsafe(w: World, j: nat, saw: Option<nat>, current: nat)
    requires Core(w) && Replaceable(w, j, saw, current) && !CanReplace(w, saw, current)
    ensures !Core(Replace(w, j, saw, current))
  {
    PooledIsUp(w, current);
    PoolHolds(w);
    if MustRetire(w.pool, saw, current) {
      if Taken(w.retiring, saw.value) {
        NextShut(w, j, saw.value, current);
      } else {
        assert w.heap[saw.value] == Backend(false, 1) by { DownIsOne(w, saw.value); }
        assert Replace(w, j, saw, current).heap[saw.value].shutdowns == 2;
      }
    } else {
      hide InPool, Taken;
      Forgotten(w, current, w.retiring);
    }
  }

  lemma DownIsOne(w: World, id: nat)
    requires Core(w) && id < |w.heap| && !w.heap[id].up
    ensures w.engine == Some(id) ==> w.heap[id] == Backend(false, 1)
  {
  }

  lemma NextShut(w: World, j: nat, saw: nat, current: nat)
    requires Taken(w.retiring, saw) && j !in w.retiring && saw < |w.heap|
    ensures !Core(Retire(w, j, saw, current))
  {
    var v := Retire(w, j, saw, current);
    var i :| i in w.retiring && w.retiring[i].next == saw;
    assert v.retiring[i].next == saw && v.heap[saw] != Backend(true, 0);
  }

  // The engine lets go of a backend that stays up.
  lemma Forgotten(w: World, current: nat, rest: map<nat, Retiring>)
    requires EngineSafe(w.heap, w.slots, w.engine, w.retiring) && !Forgettable(w.(retiring := rest), current)
    ensures !Core(Taking(w, current, rest))
  {
    hide InPool, Owned, Taken;
    var v := Taking(w, current, rest);
    assert !Kept(v.pool, v.slots, v.engine, v.retiring, w.engine.value);
  }

  lemma BeginCore(w: World, j: nat, sig: Sig)
    requires Core(w) && Enabled(w, EngineBegin(j, sig))
    ensures Core(Next(w, EngineBegin(j, sig)))
  {
    AllocCore(w);
    BeginLoading(w, j, sig);
    hide InPool, Owned, PoolSafe, SlotsSafe, NoLeak, EngineSafe, LoadingSafe, SawsSafe, LateSafe, Core;
    CoreWith(Alloc(w), Next(w, EngineBegin(j, sig)));
  }

  lemma BeginLoading(w: World, j: nat, sig: Sig)
    requires Core(w) && Enabled(w, EngineBegin(j, sig))
    ensures var v := Next(w, EngineBegin(j, sig));
            LoadingSafe(v.heap, v.slots, v.loading) && SawsSafe(v) && LateSafe(v)
  {
    hide InPool, Owned, Taken, IsRetired, PoolSafe, NoLeak;
  }

  lemma CoreWith(w: World, v: World)
    requires Core(w) && v.heap == w.heap && v.pool == w.pool && v.slots == w.slots && v.engine == w.engine
    requires v.retiring == w.retiring
    requires LoadingSafe(v.heap, v.slots, v.loading) && SawsSafe(v) && LateSafe(v)
    ensures Core(v)
  {
    hide InPool, Owned, PoolSafe, SlotsSafe, NoLeak, EngineSafe, LoadingSafe, SawsSafe, LateSafe;
  }

  lemma BeginOrphans(w: World, j: nat, sig: Sig, shutdowns: nat)
    requires OrphansSafe(w, shutdowns) && Enabled(w, EngineBegin(j, sig))
    ensures OrphansSafe(Next(w, EngineBegin(j, sig)), shutdowns)
  {
  }

  lemma RemovalSafe(w: World, loading: map<nat, Loading>, late: set<nat>, shutdowns: nat)
    requires Core(w) && OrphansSafe(w, shutdowns) && late <= w.late
    requires forall j | j in loading :: j in w.loading && loading[j] == w.loading[j]
    ensures Core(w.(loading := loading, late := late))
    ensures OrphansSafe(w.(loading := loading, late := late), shutdowns)
  {
    hide InPool, Owned, PoolSafe, SlotsSafe, NoLeak, EngineSafe, SawSafe;
    forall j | j in loading ensures SawSafe(w.(loading := loading, late := late), loading[j]) {
      assert SawSafe(w, w.loading[j]);
      SawFrame(w, w.(loading := loading, late := late), loading[j]);
    }
  }

  lemma SawFrame(w: World, v: World, l: Loading)
    requires SawSafe(w, l) && v.heap == w.heap && v.pool == w.pool && v.slots == w.slots && v.engine == w.engine
    requires v.retiring == w.retiring
    ensures SawSafe(v, l)
  {
  }

  // The registration of a swap's new instance.
  lemma LoadedFresh(w: World, j: nat, shutdowns: nat)
    requires Core(w) && OrphansSafe(w, shutdowns) && j in w.loading && KeyIsFree(w, w.loading[j].sig)
    ensures Fresh(WithoutLoading(w, j), w.loading[j].sig, w.loading[j].inst)
    ensures w.loading[j].saw != Some(w.loading[j].inst)
  {
    LoadingIs(w, j);
    NotPooled(w, w.loading[j].inst);
    hide InPool, Owned, Taken, IsRetired, PoolSafe, SlotsSafe, NoLeak, KeyIsFree;
    assert KeyIsFree(WithoutLoading(w, j), w.loading[j].sig) by { SameKeys(w, j, w.loading[j].sig); }
  }

  lemma SameKeys(w: World, j: nat, sig: Sig)
    requires KeyIsFree(w, sig)
    ensures KeyIsFree(WithoutLoading(w, j), sig)
  {
    hide Taken;
  }

  lemma LoadingIs(w: World, j: nat)
    requires Core(w) && j in w.loading
    ensures w.loading[j].inst < |w.heap| && w.heap[w.loading[j].inst] == Backend(false, 0)
    ensures SawSafe(w, w.loading[j])
  {
  }

  lemma RegisteredCore(w: World, j: nat, shutdowns: nat)
    requires Core(w) && OrphansSafe(w, shutdowns) && Enabled(w, EngineCommit(j)) && KeyIsFree(w, w.loading[j].sig)
    ensures var v := Registered(w, j);
            && Core(v) && OrphansSafe(v, shutdowns)
            && Replaceable(v, j, w.loading[j].saw, w.loading[j].inst)
  {
    hide Core, OrphansSafe, Put, SawSafe;
    var l, u := w.loading[j], WithoutLoading(w, j);
    LoadingIs(w, j);
    LoadedFresh(w, j, shutdowns);
    RemovalSafe(w, w.loading - {j}, w.late, shutdowns);
    assert u == w.(loading := w.loading - {j}, late := w.late);
    PutCore(u, l.sig, l.inst);
    PutOrphans(u, l.sig, l.inst, shutdowns);
    SawFrame(w, u, l);
    PutSaw(u, l.sig, l.inst, l);
    NowReplaceable(u, j, l);
  }

  lemma NowReplaceable(u: World, j: nat, l: Loading)
    requires j !in u.retiring && SawSafe(Put(u, l.sig, l.inst), l)
    ensures Replaceable(Put(u, l.sig, l.inst), j, l.saw, l.inst)
  {
    assert Put(u, l.sig, l.inst).pool[l.sig] == l.inst;
  }

  lemma EngineCommitSafe(w: World, j: nat, shutdowns: nat)
    requires Core(w) && OrphansSafe(w, shutdowns) && Enabled(w, EngineCommit(j)) && Harmless(w, EngineCommit(j))
    ensures Core(Next(w, EngineCommit(j))) && OrphansSafe(Next(w, EngineCommit(j)), shutdowns)
  {
    hide Core, OrphansSafe, Replaceable, CanReplace, Registered, Replace;
    var l := w.loading[j];
    RegisteredCore(w, j, shutdowns);
    ReplaceCore(Registered(w, j), j, l.saw, l.inst);
    ReplaceOrphans(Registered(w, j), j, l.saw, l.inst, shutdowns);
  }

  lemma EngineCommitUnsafe(w: World, j: nat)
    requires Safe(w) && Enabled(w, EngineCommit(j)) && !Harmless(w, EngineCommit(j))
    ensures !Safe(Next(w, EngineCommit(j)))
  {
    hide Core, OrphansSafe, Replaceable, CanReplace, Registered, Replace, KeyIsFree;
    if KeyIsFree(w, w.loading[j].sig) {
      RegisteredCore(w, j, 1);
      ReplaceUnsafe(Registered(w, j), j, w.loading[j].saw, w.loading[j].inst);
    } else {
      EntryLost(w, j);
    }
  }

  lemma EntryLost(w: World, j: nat)
    requires Core(w) && Enabled(w, EngineCommit(j)) && !KeyIsFree(w, w.loading[j].sig)
    ensures !Core(Next(w, EngineCommit(j)))
  {
    hide InPool, Owned, Taken, Core, KeyIsFree, SawSafe, PoolSafe, SlotsSafe, LateSafe, EngineSafe, NoLeak;
    LoadingIs(w, j);
    NotPooled(w, w.loading[j].inst);
    SawUp(w, j);
    CoreParts(w);
    LostUp(w, w.loading[j].sig);
    LostEntry(w, Next(w, EngineCommit(j)), w.loading[j].sig, w.loading[j].inst);
  }

  lemma LostUp(w: World, sig: Sig)
    requires PoolSafe(w.heap, w.pool) && !KeyIsFree(w, sig)
    ensures sig in w.pool && w.pool[sig] < |w.heap| && w.heap[w.pool[sig]].up
  {
    hide Taken;
  }

  lemma SawUp(w: World, j: nat)
    requires Core(w) && j in w.loading
    ensures w.loading[j].saw.Some? && w.loading[j].sig in w.pool ==> w.pool[w.loading[j].sig] != w.loading[j].saw.value
  {
    LoadingIs(w, j);
    hide Core;
  }

  lemma CoreParts(w: World)
    requires Core(w)
    ensures PoolSafe(w.heap, w.pool) && SlotsSafe(w.heap, w.pool, w.slots) && LateSafe(w)
    ensures EngineSafe(w.heap, w.slots, w.engine, w.retiring)
    ensures NoLeak(w.heap, w.pool, w.slots, w.engine, w.retiring)
  {
  }

  // The old backend's shutdown is over.
  lemma TakesIs(w: World, j: nat)
    requires j in w.retiring
    ensures Next(w, EngineTakes(j)) == Taking(w, w.retiring[j].next, w.retiring - {j})
  {
  }

  lemma EngineTakesSafe(w: World, j: nat)
    requires Core(w) && j in w.retiring && Harmless(w, EngineTakes(j))
    ensures Core(Next(w, EngineTakes(j)))
  {
    TakesIs(w, j);
    CoreParts(w);
    hide Core, Taken, Owned, InPool, NoLeak, PoolSafe, SlotsSafe, LateSafe;
    TakeCore(w, w.retiring[j].next, w.retiring - {j});
  }

  lemma EngineTakesUnsafe(w: World, j: nat)
    requires Core(w) && j in w.retiring && !Harmless(w, EngineTakes(j))
    ensures !Core(Next(w, EngineTakes(j)))
  {
    TakesIs(w, j);
    CoreParts(w);
    hide Core, Taken, Owned, InPool;
    Forgotten(w, w.retiring[j].next, w.retiring - {j});
  }

  lemma TakesOrphans(w: World, current: nat, rest: map<nat, Retiring>, shutdowns: nat)
    requires OrphansSafe(w, shutdowns)
    ensures OrphansSafe(Taking(w, current, rest), shutdowns) && OrphansSafe(w.(retiring := rest), shutdowns)
  {
  }

  lemma TakenWithout(retiring: map<nat, Retiring>, j: nat, id: nat)
    requires j in retiring
    ensures Taken(retiring, id) <==> Taken(retiring - {j}, id) || retiring[j].next == id
  {
    if Taken(retiring, id) && retiring[j].next != id {
      var i :| i in retiring && retiring[i].next == id;
      assert (retiring - {j})[i].next == id;
    }
    if Taken(retiring - {j}, id) {
      var i :| i in retiring - {j} && (retiring - {j})[i].next == id;
      assert retiring[i].next == id;
    }
  }

  lemma EngineAbortsSafe(w: World, j: nat)
    requires Core(w) && j in w.retiring && Harmless(w, EngineAborts(j))
    ensures Core(Next(w, EngineAborts(j)))
  {
    AbortLeak(w, j);
    AbortSaws(w, j);
    hide InPool, Owned, Taken, IsRetired, PoolSafe, SlotsSafe, NoLeak, LoadingSafe, SawsSafe;
  }

  lemma AbortLeak(w: World, j: nat)
    requires Core(w) && j in w.retiring && Harmless(w, EngineAborts(j))
    ensures var v := WithoutRetiring(w, j); NoLeak(v.heap, v.pool, v.slots, v.engine, v.retiring)
  {
    CoreParts(w);
    hide InPool, Owned, Taken, Core, PoolSafe, SlotsSafe, LateSafe, EngineSafe;
    forall id: nat | id < |w.heap| && w.heap[id].up ensures Kept(w.pool, w.slots, w.engine, w.retiring - {j}, id) {
      UpIsKept(w, id);
      TakenWithout(w.retiring, j, id);
    }
  }

  lemma AbortSaws(w: World, j: nat)
    requires Core(w) && j in w.retiring && Harmless(w, EngineAborts(j))
    ensures SawsSafe(WithoutRetiring(w, j))
  {
    hide InPool, Owned, Taken, IsRetired, PoolSafe, SlotsSafe, NoLeak, LoadingSafe, LateSafe, EngineSafe, SawSafe;
    forall i | i in w.loading ensures SawSafe(WithoutRetiring(w, j), w.loading[i]) {
      AbortSaw(w, j, w.loading[i]);
    }
  }

  lemma AbortSaw(w: World, j: nat, l: Loading)
    requires SawSafe(w, l) && j in w.retiring && Harmless(w, EngineAborts(j))
    ensures SawSafe(WithoutRetiring(w, j), l)
  {
    if l.saw.Some? { TakenWithout(w.retiring, j, l.saw.value); }
    hide InPool, Owned, Taken, IsRetired;
  }

  lemma EngineAbortsUnsafe(w: World, j: nat)
    requires Core(w) && j in w.retiring && !Harmless(w, EngineAborts(j))
    ensures !Core(Next(w, EngineAborts(j)))
  {
    CoreParts(w);
    hide InPool, Owned, Taken, IsRetired, PoolSafe, SlotsSafe, LoadingSafe, SawsSafe, LateSafe;
    var v, next := WithoutRetiring(w, j), w.retiring[j].next;
    assert !Owned(v.slots, next) && v.heap[next].up;
    if !(InPool(v.pool, next) || v.engine == Some(next) || Taken(v.retiring, next)) {
      assert !Kept(v.pool, v.slots, v.engine, v.retiring, next);
    }
  }

  // ----- shutdowns of slots and pipelines ------------------------------------------------------------

  // Safety does not look at these two.
  lemma SameCore(w: World, shut: map<SlotKey, nat>, gone: set<nat>)
    requires Core(w)
    ensures Core(w.(shut := shut, gone := gone))
  {
    hide PoolSafe, SlotsSafe, NoLeak, EngineSafe, LoadingSafe, LateSafe;
    forall j | j in w.loading ensures SawSafe(w.(shut := shut, gone := gone), w.loading[j]) {
      SawFrame(w, w.(shut := shut, gone := gone), w.loading[j]);
    }
    SameLate(w, shut, gone);
  }

  lemma SameLate(w: World, shut: map<SlotKey, nat>, gone: set<nat>)
    requires LateSafe(w)
    ensures LateSafe(w.(shut := shut, gone := gone))
  {
  }

  lemma OrphansWithShut(w: World, k: SlotKey, id: nat, gone: set<nat>, shutdowns: nat)
    requires OrphansSafe(w, shutdowns) && k !in w.orphans
    ensures OrphansSafe(w.(shut := w.shut[k := id], gone := gone), shutdowns)
    ensures OrphansSafe(w.(gone := gone), shutdowns)
  {
  }

  // An instance that nobody refers to and that never came up is shut down.
  ghost function Discard(w: World, id: nat): World { w.(heap := ShutBackend(w.heap, id)) }

  lemma DiscardCore(w: World, id: nat)
    requires Core(w) && id < |w.heap| && w.heap[id] == Backend(false, 0) && Unused(w, id)
    ensures Core(Discard(w, id))
  {
    hide PoolSafe, SlotsSafe, NoLeak, EngineSafe, LoadingSafe, SawsSafe, LateSafe, Unused;
    NotPooled(w, id);
    DiscardSaws(w, id);
    DiscardPool(w, id);
    DiscardRest(w, id);
  }

  lemma DiscardPool(w: World, id: nat)
    requires Core(w) && id < |w.heap| && w.heap[id] == Backend(false, 0) && Unused(w, id) && !InPool(w.pool, id)
    ensures var v := Discard(w, id); PoolSafe(v.heap, v.pool) && SlotsSafe(v.heap, v.pool, v.slots)
    ensures var v := Discard(w, id); EngineSafe(v.heap, v.slots, v.engine, v.retiring)
  {
    PoolMembers(w.pool);
    hide InPool, Owned, Taken, IsRetired, NoLeak, LoadingSafe, SawsSafe, LateSafe;
  }

  lemma DiscardRest(w: World, id: nat)
    requires Core(w) && id < |w.heap| && w.heap[id] == Backend(false, 0) && Unused(w, id)
    ensures var v := Discard(w, id);
            LoadingSafe(v.heap, v.slots, v.loading) && LateSafe(v)
            && NoLeak(v.heap, v.pool, v.slots, v.engine, v.retiring)
  {
    hide Kept, PoolSafe, SlotsSafe, EngineSafe, SawsSafe;
  }

  lemma DiscardSaws(w: World, id: nat)
    requires Core(w) && id < |w.heap| && w.heap[id] == Backend(false, 0)
    ensures SawsSafe(Discard(w, id))
  {
    hide InPool, Owned, Taken, IsRetired, PoolSafe, SlotsSafe, NoLeak, LoadingSafe, LateSafe, EngineSafe;
  }

  lemma DiscardOrphans(w: World, id: nat, shutdowns: nat)
    requires OrphansSafe(w, shutdowns) && Unused(w, id)
    ensures OrphansSafe(Discard(w, id), shutdowns)
  {
  }

  // A slot that owns its backend: the backend is shut down.
  lemma DetachShut(w: World, k: SlotKey)
    requires Core(w) && OrphansSafe(w, 1) && k in w.slots && !w.slots[k].pooled
    ensures var v := Detach(w, k).(shut := w.shut[k := w.slots[k].inst]);
            && Core(v) && OrphansSafe(v, 1) && k !in v.slots
            && v.slots == w.slots - {k} && w.slots[k].inst < |v.heap| && v.heap[w.slots[k].inst] == Backend(false, 1)
  {
    DetachedIs(w, k);
    hide Core, OrphansSafe;
    DetachCore(w, k);
    DetachOrphans(w, k, 1);
    var v := Detach(w, k);
    assert k !in w.orphans by { NotOrphaned(w, k, 1); }
    SameCore(v, w.shut[k := w.slots[k].inst], v.gone);
    OrphansWithShut(v, k, w.slots[k].inst, v.gone, 1);
  }

  lemma NotOrphaned(w: World, k: SlotKey, shutdowns: nat)
    requires OrphansSafe(w, shutdowns) && k in w.slots
    ensures k !in w.orphans
  {
  }

  lemma DetachedIs(w: World, k: SlotKey)
    requires Core(w) && k in w.slots && !w.slots[k].pooled
    ensures w.slots[k].inst < |w.heap| && w.heap[w.slots[k].inst].shutdowns == 0
    ensures Detach(w, k).heap == w.heap[w.slots[k].inst := Backend(false, 1)]
  {
    assert SlotSafe(w.heap, w.pool, k, w.slots[k]);
  }

  lemma DetachUnused(w: World, k: SlotKey)
    requires Core(w) && OrphansSafe(w, 1) && Waiting(w, k)
    ensures Unused(Detach(w, k), w.slots[k].inst)
  {
    WaitingSlot(w, k);
    WithoutIsUnused(w, k, 1);
  }

  lemma ReleaseSlotSafe(w: World, k: SlotKey)
    requires Core(w) && OrphansSafe(w, 1) && (k in w.shut ==> k in w.slots)
    ensures Core(ReleaseSlot(w, k)) && OrphansSafe(ReleaseSlot(w, k), 1)
  {
    hide Core, OrphansSafe, ShutSlot, ShutOrphan;
    if k in w.slots {
      if w.slots[k].pooled {
        WithoutCore(w, k);
        WithoutOrphans(w, k, 1);
      } else {
        ShutSlotSafe(w, k);
      }
    } else if k in w.orphans {
      ShutOrphanSafe(w, k);
    }
  }

  lemma ShutSlotSafe(w: World, k: SlotKey)
    requires Core(w) && OrphansSafe(w, 1) && k in w.slots && !w.slots[k].pooled
    ensures Core(ShutSlot(w, k)) && OrphansSafe(ShutSlot(w, k), 1)
  {
    hide Core, OrphansSafe, Unused;
    var slot, d := w.slots[k], Detach(w, k);
    var v := d.(shut := w.shut[k := slot.inst]);
    DetachShut(w, k);
    if slot.pending.Some? {
      DetachUnused(w, k);
      SameUnused(d, v, slot.inst);
      WithOrphanCore(v, k, Orphan(slot.inst, slot.pending.value));
      WithOrphanSafe(v, k, Orphan(slot.inst, slot.pending.value), 1);
    }
  }

  lemma SameUnused(w: World, v: World, id: nat)
    requires Unused(w, id) && v.slots == w.slots && v.loading == w.loading && v.orphans == w.orphans
    requires v.late == w.late && v.engine == w.engine
    ensures Unused(v, id)
  {
  }

  lemma ShutOrphanSafe(w: World, k: SlotKey)
    requires Core(w) && OrphansSafe(w, 1) && k in w.orphans && k !in w.shut
    ensures Core(ShutOrphan(w, k)) && OrphansSafe(ShutOrphan(w, k), 1)
  {
    hide Core, OrphansSafe, Unused, ShutBackend;
    var orphan := w.orphans[k];
    OrphanIsNew(w, k, 1);
    OrphanUnused(w, k, 1);
    ShutCounts(w.heap, orphan.inst);
    var v := WithoutOrphan(w, k);
    WithoutOrphanSafe(w, k, 1);
    DiscardCore(v, orphan.inst);
    DiscardOrphans(v, orphan.inst, 1);
    ShutOrphanIs(w, k);
    var u := Discard(v, orphan.inst);
    var x := u.(shut := u.shut[k := orphan.inst], gone := u.gone);
    SameCore(u, u.shut[k := orphan.inst], u.gone);
    OrphansWithShut(u, k, orphan.inst, u.gone, 1);
    SameUnused(v, x, orphan.inst);
    WithOrphanCore(x, k, orphan);
    DiscardedOrphan(w, k);
    WithOrphanSafe(x, k, orphan, 1);
  }

  lemma ShutOrphanIs(w: World, k: SlotKey)
    requires k in w.orphans
    ensures var u := Discard(WithoutOrphan(w, k), w.orphans[k].inst);
            ShutOrphan(w, k) == WithOrphan(u.(shut := u.shut[k := w.orphans[k].inst], gone := u.gone), k, w.orphans[k])
  {
    hide ShutBackend;
    assert (w.orphans - {k})[k := w.orphans[k]] == w.orphans;
  }

  lemma DiscardedOrphan(w: World, k: SlotKey)
    requires OrphansSafe(w, 1) && k in w.orphans && k !in w.shut
    ensures var id := w.orphans[k].inst;
            k !in w.slots && id < |w.heap| && ShutBackend(w.heap, id)[id] == Backend(false, 1)
  {
    OrphanIsNew(w, k, 1);
  }

  lemma ReleaseSlotFrame(w: World, k: SlotKey, l: SlotKey)
    requires l != k
    ensures l in ReleaseSlot(w, k).shut ==> l in w.shut
    ensures l in w.slots ==> l in ReleaseSlot(w, k).slots
  {
    hide ShutBackend;
    assert l in w.slots ==> l in w.slots - {k};
  }

  // The condition of a release, slot by slot.
  ghost predicate NotShutYet(w: World, k: SlotKey) { k in w.shut ==> k in w.slots }

  lemma ReleaseSafe(w: World, p: nat)
    requires Safe(w) && Harmless(w, Release(p))
    ensures Safe(Next(w, Release(p)))
  {
    hide Core, OrphansSafe, ShutSafe, ReleaseSlot, NotShutYet;
    var stt, tts, llm := SlotKey(p, Stt), SlotKey(p, Tts), SlotKey(p, Llm);
    var g := Gone(w, p);
    GoneSafe(w, p);
    assert NotShutYet(g, stt) && NotShutYet(g, tts) && NotShutYet(g, llm) by { AllNotShut(w, p); }
    OneReleased(g, stt, tts, llm);
    var v := ReleaseSlot(g, stt);
    OneReleased(v, tts, llm, llm);
    OneReleased(ReleaseSlot(v, tts), llm, stt, stt);
  }

  lemma AllNotShut(w: World, p: nat)
    requires Harmless(w, Release(p))
    ensures forall kind :: NotShutYet(Gone(w, p), SlotKey(p, kind))
  {
  }

  lemma OneReleased(w: World, k: SlotKey, l: SlotKey, m: SlotKey)
    requires Safe(w) && NotShutYet(w, k)
    ensures Safe(ReleaseSlot(w, k))
    ensures l != k && NotShutYet(w, l) ==> NotShutYet(ReleaseSlot(w, k), l)
    ensures m != k && NotShutYet(w, m) ==> NotShutYet(ReleaseSlot(w, k), m)
  {
    hide Core, OrphansSafe, ShutSafe, ReleaseSlot;
    ReleaseSlotSafe(w, k);
    ReleaseSlotShut(w, k);
    if l != k { ReleaseSlotFrame(w, k, l); }
    if m != k { ReleaseSlotFrame(w, k, m); }
  }

  lemma GoneSafe(w: World, p: nat)
    requires Safe(w)
    ensures Safe(Gone(w, p))
  {
    hide Core, OrphansSafe;
    SameCore(w, w.shut, w.gone + {p});
    OrphansGone(w, w.gone + {p}, 1);
  }

  lemma OrphansGone(w: World, gone: set<nat>, shutdowns: nat)
    requires OrphansSafe(w, shutdowns)
    ensures OrphansSafe(w.(gone := gone), shutdowns)
  {
  }

  // Shutdowns are never taken back.
  ghost predicate NeverFewer(heap: seq<Backend>, after: seq<Backend>) {
    |heap| <= |after| && forall id: nat | id < |heap| :: heap[id].shutdowns <= after[id].shutdowns
  }

  lemma ShutCounts(heap: seq<Backend>, id: nat)
    ensures NeverFewer(heap, ShutBackend(heap, id)) && |ShutBackend(heap, id)| == |heap|
    ensures id < |heap| ==> ShutBackend(heap, id)[id].shutdowns == heap[id].shutdowns + 1
  {
  }

  lemma ReleaseSlotShut(w: World, k: SlotKey)
    requires ShutSafe(w) && Core(w) && OrphansSafe(w, 1)
    ensures ShutSafe(ReleaseSlot(w, k))
  {
    hide Core, OrphansSafe, ShutSlot, ShutOrphan, ShutBackend;
    if k in w.slots {
      if !w.slots[k].pooled { ShutSlotShut(w, k); }
    } else if k in w.shut {
      ShutCounts(w.heap, w.shut[k]);
    } else if k in w.orphans {
      ShutOrphanShut(w, k);
    }
  }

  lemma ShutSlotShut(w: World, k: SlotKey)
    requires ShutSafe(w) && Core(w) && k in w.slots && !w.slots[k].pooled
    ensures ShutSafe(ShutSlot(w, k))
  {
    ShutCounts(w.heap, w.slots[k].inst);
    DetachedIs(w, k);
    hide Core, ShutBackend;
  }

  lemma ShutOrphanShut(w: World, k: SlotKey)
    requires ShutSafe(w) && OrphansSafe(w, 1) && k in w.orphans
    ensures ShutSafe(ShutOrphan(w, k))
  {
    ShutCounts(w.heap, w.orphans[k].inst);
    OrphanIsNew(w, k, 1);
    hide OrphansSafe, ShutBackend;
  }

  // What is recorded as shut down is shut down a second time.
  lemma ReleaseUnsafe(w: World, p: nat)
    requires Safe(w) && !Harmless(w, Release(p))
    ensures !Safe(Next(w, Release(p)))
  {
    var k :| k in w.shut && k.pipeline == p && k !in w.slots;
    var stt, tts, llm := SlotKey(p, Stt), SlotKey(p, Tts), SlotKey(p, Llm);
    var v := ReleaseSlot(Gone(w, p), stt);
    var u := ReleaseSlot(v, tts);
    ReleaseSlotTwice(Gone(w, p), stt, k);
    ReleaseSlotTwice(v, tts, k);
    ReleaseSlotTwice(u, llm, k);
    match k.kind {
      case Stt => assert k == stt;
      case Tts => assert k == tts;
      case Llm => assert k == llm;
    }
    ShutTwice(Next(w, Release(p)), w.shut[k]);
  }

  lemma ReleaseSlotTwice(w: World, k: SlotKey, l: SlotKey)
    requires l in w.shut && l !in w.slots && w.shut[l] < |w.heap|
    ensures var v := ReleaseSlot(w, k);
            && l in v.shut && l !in v.slots && v.shut[l] == w.shut[l] && |v.heap| == |w.heap|
            && v.heap[w.shut[l]].shutdowns >= w.heap[w.shut[l]].shutdowns + if k == l then 1 else 0
  {
    if k in w.slots { ShutCounts(w.heap, w.slots[k].inst); }
    if k in w.shut { ShutCounts(w.heap, w.shut[k]); }
    if k in w.orphans { ShutCounts(w.heap, w.orphans[k].inst); }
    hide ShutBackend;
  }

  lemma ShutTwice(w: World, id: nat)
    requires id < |w.heap| && w.heap[id].shutdowns >= 2
    ensures !Core(w)
  {
    hide PoolSafe, SlotsSafe, EngineSafe, LoadingSafe, SawsSafe, LateSafe, Kept;
  }

  lemma CloseSafe(w: World, k: SlotKey)
    requires Safe(w) && Enabled(w, Close(k)) && k.pipeline !in w.gone
    ensures Safe(Next(w, Close(k)))
  {
    hide Core, OrphansSafe;
    DetachShut(w, k);
  }

  lemma CloseUnsafe(w: World, k: SlotKey)
    requires Safe(w) && Enabled(w, Close(k)) && k.pipeline in w.gone
    ensures !Safe(Next(w, Close(k)))
  {
    hide Core, OrphansSafe;
    ShutTwice(Next(w, Close(k)), w.shut[k]);
  }

  lemma CloseAbortsUnsafe(w: World, k: SlotKey)
    requires Safe(w) && Enabled(w, CloseAborts(k))
    ensures !Safe(Next(w, CloseAborts(k)))
  {
    hide Core, OrphansSafe;
    var v := Next(w, CloseAborts(k));
    BrokenSlot(v, k);
  }

  lemma BrokenSlot(w: World, k: SlotKey)
    requires k in w.slots && (w.slots[k].inst < |w.heap| ==> w.heap[w.slots[k].inst].shutdowns >= 1)
    ensures !Core(w)
  {
    assert !SlotSafe(w.heap, w.pool, k, w.slots[k]);
  }

  // ----- the theorem ---------------------------------------------------------------------------------

  lemma AcquireSafe(w: World, k: SlotKey, sig: Sig)
    requires Core(w) && OrphansSafe(w, 1) && Enabled(w, Acquire(k, sig))
    ensures Core(Next(w, Acquire(k, sig))) && OrphansSafe(Next(w, Acquire(k, sig)), 1)
  {
    hide Core, OrphansSafe, Fetch;
    if k in w.slots {
      DetachCore(w, k);
      DetachOrphans(w, k, 1);
    }
    var v := if k in w.slots then Detach(w, k) else w;
    ReplacedSafe(v, k, 1);
    FetchSafe(Replaced(v, k), k, sig, 1);
  }

  lemma OrphanAcquireSafe(w: World, k: SlotKey, sig: Sig, shutdowns: nat)
    requires Core(w) && OrphansSafe(w, shutdowns) && Enabled(w, OrphanAcquire(k, sig))
    ensures Core(Next(w, OrphanAcquire(k, sig))) && OrphansSafe(Next(w, OrphanAcquire(k, sig)), shutdowns)
  {
    hide Core, OrphansSafe, Unused;
    ReplacedSafe(w, k, shutdowns);
    var v := Replaced(w, k);
    if sig !in v.pool {
      AllocCore(v);
      AllocUnused(v, shutdowns);
      WithOrphanCore(Alloc(v), k, Orphan(|v.heap|, sig));
      WithOrphanSafe(Alloc(v), k, Orphan(|v.heap|, sig), shutdowns);
    }
  }

  lemma EngineHitSafe(w: World, j: nat, sig: Sig, shutdowns: nat)
    requires Core(w) && OrphansSafe(w, shutdowns) && Enabled(w, EngineHit(j, sig)) && Harmless(w, EngineHit(j, sig))
    ensures Core(Next(w, EngineHit(j, sig))) && OrphansSafe(Next(w, EngineHit(j, sig)), shutdowns)
  {
    hide Core, OrphansSafe, CanReplace, Replace, Replaceable;
    HitReplaceable(w, j, sig);
    ReplaceCore(w, j, w.engine, w.pool[sig]);
    ReplaceOrphans(w, j, w.engine, w.pool[sig], shutdowns);
  }

  lemma HitReplaceable(w: World, j: nat, sig: Sig)
    requires Core(w) && Enabled(w, EngineHit(j, sig))
    ensures Replaceable(w, j, w.engine, w.pool[sig])
  {
    PoolMembers(w.pool);
    hide InPool, Owned, Taken, IsRetired;
  }

  lemma EngineHitUnsafe(w: World, j: nat, sig: Sig)
    requires Core(w) && Enabled(w, EngineHit(j, sig)) && !Harmless(w, EngineHit(j, sig))
    ensures !Core(Next(w, EngineHit(j, sig)))
  {
    hide Core, CanReplace, Replace, Replaceable;
    HitReplaceable(w, j, sig);
    ReplaceUnsafe(w, j, w.engine, w.pool[sig]);
  }

  lemma CoreLate(w: World)
    requires Core(w)
    ensures LateSafe(w)
  {
  }

  // A harmless step keeps the world safe.
  lemma HarmlessCore(w: World, step: Step)
    requires Safe(w) && Enabled(w, step) && Harmless(w, step)
    ensures Core(Next(w, step)) && OrphansSafe(Next(w, step), 1)
  {
    hide Core, OrphansSafe, ShutSafe;
    match step
    case Close(k) => CloseSafe(w, k);
    case Acquire(k, sig) => AcquireSafe(w, k, sig);
    case OrphanAcquire(k, sig) => OrphanAcquireSafe(w, k, sig, 1);
    case Commit(k) => CommitSafe(w, k, 1);
    case OrphanCommit(k) => OrphanCommitSafe(w, k, 1);
    case CallFails(k, isNew) => FailedSafe(w, k, isNew, 1);
    case LateUp(id) => CoreLate(w); LateUpCore(w, id); LateLess(w, id, 1);
    case LateFails(id) => RemovalSafe(w, w.loading, w.late - {id}, 1);
    case Release(p) => ReleaseSafe(w, p);
    case EngineHit(j, sig) => EngineHitSafe(w, j, sig, 1);
    case EngineBegin(j, sig) => BeginCore(w, j, sig); BeginOrphans(w, j, sig, 1);
    case EngineCommit(j) => EngineCommitSafe(w, j, 1);
    case EngineFail(j) => RemovalSafe(w, w.loading - {j}, w.late, 1);
    case EngineTakes(j) =>
      EngineTakesSafe(w, j); TakesIs(w, j); TakesOrphans(w, w.retiring[j].next, w.retiring - {j}, 1);
    case EngineAborts(j) => EngineAbortsSafe(w, j); TakesOrphans(w, 0, w.retiring - {j}, 1);
  }

  lemma StepCounts(w: World, step: Step)
    requires Enabled(w, step) && !step.Release?
    ensures NeverFewer(w.heap, Next(w, step).heap)
  {
    hide InPool, Siblings, ShutBackend, BringUp, MustRetire;
    match step
    case Close(k) =>
      if k.pipeline in w.gone { ShutCounts(w.heap, w.shut[k]); } else { ShutCounts(w.heap, w.slots[k].inst); }
    case Acquire(k, sig) => if k in w.slots { ShutCounts(w.heap, w.slots[k].inst); }
    case Commit(k) => UpCounts(w.heap, w.slots[k].inst);
    case OrphanCommit(k) => UpCounts(w.heap, w.orphans[k].inst);
    case LateUp(id) => UpCounts(w.heap, id);
    case EngineHit(j, sig) => ReplaceCounts(w, j, w.engine, w.pool[sig]);
    case EngineCommit(j) =>
      UpCounts(w.heap, w.loading[j].inst);
      ReplaceCounts(Registered(w, j), j, w.loading[j].saw, w.loading[j].inst);
    case _ =>
  }

  lemma UpCounts(heap: seq<Backend>, id: nat)
    ensures NeverFewer(heap, BringUp(heap, id)) && |BringUp(heap, id)| == |heap|
  {
  }

  lemma ReplaceCounts(w: World, j: nat, saw: Option<nat>, current: nat)
    ensures NeverFewer(w.heap, Replace(w, j, saw, current).heap) && Replace(w, j, saw, current).shut == w.shut
  {
    hide InPool;
    if saw.Some? { ShutCounts(w.heap, saw.value); }
  }

  lemma StepShut(w: World, step: Step)
    requires Enabled(w, step) && !step.Release? && !step.Close?
    ensures forall k | k in Next(w, step).shut :: k in w.shut && Next(w, step).shut[k] == w.shut[k]
  {
    hide InPool, Siblings, ShutBackend, BringUp;
  }

  lemma ShutStays(w: World, step: Step)
    requires Safe(w) && Enabled(w, step) && Harmless(w, step)
    ensures ShutSafe(Next(w, step))
  {
    if step.Release? {
      ReleaseSafe(w, step.p);
    } else if step.Close? {
      CloseSafe(w, step.k);
    } else {
      StepCounts(w, step);
      StepShut(w, step);
      hide Core, OrphansSafe, Next;
    }
  }

  lemma HarmlessSafe(w: World, step: Step)
    requires Safe(w) && Enabled(w, step) && Harmless(w, step)
    ensures Safe(Next(w, step))
  {
    hide Core, OrphansSafe, ShutSafe, Next;
    HarmlessCore(w, step);
    ShutStays(w, step);
  }

  lemma LateUpUnsafe(w: World, id: nat)
    requires Safe(w) && id in w.late && !Owned(w.slots, id)
    ensures !Safe(Next(w, LateUp(id)))
  {
    LateNotPooled(w, id);
    DownIsOne(w, id);
    DownNotTaken(w, id);
    hide InPool, Owned, Taken, Core, OrphansSafe, ShutSafe;
    var v := Next(w, LateUp(id));
    if w.engine == Some(id) {
      EngineWoken(v);
    } else {
      assert !Kept(v.pool, v.slots, v.engine, v.retiring, id);
      LeakUnsafe(v, id);
    }
  }

  lemma DownNotTaken(w: World, id: nat)
    requires Core(w) && id < |w.heap| && !w.heap[id].up
    ensures !Taken(w.retiring, id)
  {
  }

  lemma EngineWoken(w: World)
    requires w.engine.Some? && (w.engine.value < |w.heap| ==> w.heap[w.engine.value] == Backend(true, 1))
    ensures !Core(w)
  {
  }

  lemma LeakUnsafe(w: World, id: nat)
    requires id < |w.heap| && w.heap[id].up && !Kept(w.pool, w.slots, w.engine, w.retiring, id)
    ensures !Core(w)
  {
    hide Kept;
  }

  // A step that is not harmless does not.
  lemma HarmfulUnsafe(w: World, step: Step)
    requires Safe(w) && Enabled(w, step) && !Harmless(w, step)
    ensures !Safe(Next(w, step))
  {
    hide Core, OrphansSafe, ShutSafe;
    match step
    case Close(k) => CloseUnsafe(w, k);
    case CloseAborts(k) => CloseAbortsUnsafe(w, k);
    case Commit(k) => CommitUnsafe(w, k);
    case OrphanCommit(k) => OrphanCommitUnsafe(w, k);
    case LateUp(id) => LateUpUnsafe(w, id);
    case Release(p) => ReleaseUnsafe(w, p);
    case EngineHit(j, sig) => EngineHitUnsafe(w, j, sig);
    case EngineCommit(j) => EngineCommitUnsafe(w, j);
    case EngineTakes(j) => EngineTakesUnsafe(w, j);
    case EngineAborts(j) => EngineAbortsUnsafe(w, j);
  }

  // Every step of every party keeps the world safe exactly when it is harmless.
  lemma StepSafeIff(w: World, step: Step)
    requires Safe(w) && Enabled(w, step)
    ensures Safe(Next(w, step)) <==> Harmless(w, step)
  {
    hide Safe, Next;
    if Harmless(w, step) {
      HarmlessSafe(w, step);
    } else {
      HarmfulUnsafe(w, step);
    }
  }

  // The engine has created its own backend, and nobody is connected.
  const START: World :=
    World([Backend(true, 0)], map[], map[], Some(0), map[], map[], {}, map[], map[], {})

  lemma StartSafe()
    ensures Safe(START)
  {
  }
}
