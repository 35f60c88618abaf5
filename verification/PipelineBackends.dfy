/** The code that moves backends around: `VoicePipeline.initialize`, `swap_backends` and
    `shutdown`, `swap_one_backend`, and `ConversationEngine.swap_llm`. */
module PipelineBackends {
  import opened Options
  import opened BackendPool

  // ----- signatures and change tests -------------------------------------------------------

  datatype SttConfig = SttConfig(backend: string, model: string)

  datatype TtsConfig = TtsConfig(backend: string, piperModel: string, kokoroModel: string)

  datatype LlmConfig = LlmConfig(
    backend: string, ollamaModel: string, openrouterModel: string, tinkerclawModel: string,
    lmstudioModel: string, dualPicker: string, dualResponder: string)

  datatype Config = Config(stt: SttConfig, tts: TtsConfig, llm: LlmConfig)

  function TtsModel(c: TtsConfig): string { if c.piperModel != "" then c.piperModel else c.kokoroModel }

  function LlmModel(c: LlmConfig): string {
    if c.backend == "ollama" then c.ollamaModel
    else if c.backend == "openrouter" then c.openrouterModel
    else if c.backend == "tinkerclaw" then c.tinkerclawModel
    else if c.backend == "lmstudio" then c.lmstudioModel
    else if c.backend == "dual" then c.dualPicker + "|" + c.dualResponder
    else ""
  }

  function SigOf(c: Config, kind: Kind): Sig {
    match kind
    case Stt => Sig(Stt, c.stt.backend, c.stt.model)
    case Tts => Sig(Tts, c.tts.backend, TtsModel(c.tts))
    case Llm => Sig(Llm, c.llm.backend, LlmModel(c.llm))
  }

  // `stt_changed`, `tts_changed` and `llm_changed` of `swap_backends`.
  predicate Changed(a: Config, b: Config, kind: Kind) {
    match kind
    case Stt => a.stt.backend != b.stt.backend || a.stt.model != b.stt.model
    case Tts => a.tts.backend != b.tts.backend
    case Llm => a.llm.backend != b.llm.backend || a.llm.ollamaModel != b.llm.ollamaModel
  }

  // Two configurations put the same backend and the same model to use.
  predicate SameInUse(a: Config, b: Config, kind: Kind) {
    match kind
    case Stt => a.stt.backend == b.stt.backend && a.stt.model == b.stt.model
    case Tts =>
      && a.tts.backend == b.tts.backend
      && (if a.tts.piperModel != "" then a.tts.piperModel else a.tts.kokoroModel)
         == (if b.tts.piperModel != "" then b.tts.piperModel else b.tts.kokoroModel)
    case Llm =>
      && a.llm.backend == b.llm.backend
      && (a.llm.backend == "ollama" ==> a.llm.ollamaModel == b.llm.ollamaModel)
      && (a.llm.backend == "openrouter" ==> a.llm.openrouterModel == b.llm.openrouterModel)
      && (a.llm.backend == "tinkerclaw" ==> a.llm.tinkerclawModel == b.llm.tinkerclawModel)
      && (a.llm.backend == "lmstudio" ==> a.llm.lmstudioModel == b.llm.lmstudioModel)
      && (a.llm.backend == "dual" ==>
         a.llm.dualPicker + "|" + a.llm.dualResponder == b.llm.dualPicker + "|" + b.llm.dualResponder)
  }

  // The pool key tells two configurations apart exactly when they use another backend or model, and
  // two kinds never meet.
  lemma SigSameIff(a: Config, b: Config, kind: Kind, other: Kind)
    ensures SigOf(a, kind) == SigOf(b, other) <==> kind == other && SameInUse(a, b, kind)
  {
    LlmModelIs(a.llm);
    LlmModelIs(b.llm);
    hide LlmModel;
  }

  lemma LlmModelIs(c: LlmConfig)
    ensures c.backend == "ollama" ==> LlmModel(c) == c.ollamaModel
    ensures c.backend == "openrouter" ==> LlmModel(c) == c.openrouterModel
    ensures c.backend == "tinkerclaw" ==> LlmModel(c) == c.tinkerclawModel
    ensures c.backend == "lmstudio" ==> LlmModel(c) == c.lmstudioModel
    ensures c.backend == "dual" ==> LlmModel(c) == c.dualPicker + "|" + c.dualResponder
    ensures c.backend !in {"ollama", "openrouter", "tinkerclaw", "lmstudio", "dual"} ==> LlmModel(c) == ""
  {
  }

  // A swap is skipped although the signature changed exactly when only a model other than the
  // tested one changed; for speech recognition that cannot happen.
  lemma MissedSwapIff(a: Config, b: Config, kind: Kind)
    ensures (SigOf(a, kind) != SigOf(b, kind) && !Changed(a, b, kind)) <==>
            match kind
            case Stt => false
            case Tts => a.tts.backend == b.tts.backend && !SameInUse(a, b, Tts)
            case Llm => a.llm.backend == b.llm.backend && a.llm.backend != "ollama"
                        && a.llm.ollamaModel == b.llm.ollamaModel && !SameInUse(a, b, Llm)
  {
    hide SigOf;
    SigSameIff(a, b, kind, kind);
  }

  // The joined signature of the dual backend determines its two models exactly when neither name
  // contains the separator.
  lemma DualSigDeterminesIff(a: Config)
    requires a.llm.backend == "dual"
    ensures (forall b: Config | b.llm.backend == "dual" && SigOf(b, Llm) == SigOf(a, Llm) :: SameDual(a, b))
       <==> '|' !in a.llm.dualPicker && '|' !in a.llm.dualResponder
  {
    var p, r := a.llm.dualPicker, a.llm.dualResponder;
    if '|' !in p && '|' !in r {
      forall b: Config | b.llm.backend == "dual" && SigOf(b, Llm) == SigOf(a, Llm) ensures SameDual(a, b) {
        OneSeparator(p, r, b.llm.dualPicker, b.llm.dualResponder);
      }
    } else if '|' in p {
      var i :| 0 <= i < |p| && p[i] == '|';
      var b := WithDual(a, p[..i], p[i + 1..] + "|" + r);
      Regroup(p[..i], p[i + 1..], r);
      assert p == p[..i] + "|" + p[i + 1..];
      assert SigOf(b, Llm) == SigOf(a, Llm) && !SameDual(a, b);
    } else {
      var i :| 0 <= i < |r| && r[i] == '|';
      var b := WithDual(a, p + "|" + r[..i], r[i + 1..]);
      Regroup(p, r[..i], r[i + 1..]);
      assert r == r[..i] + "|" + r[i + 1..];
      assert SigOf(b, Llm) == SigOf(a, Llm) && !SameDual(a, b);
    }
  }

  predicate SameDual(a: Config, b: Config) {
    a.llm.dualPicker == b.llm.dualPicker && a.llm.dualResponder == b.llm.dualResponder
  }

  function WithDual(a: Config, picker: string, responder: string): Config {
    a.(llm := a.llm.(dualPicker := picker, dualResponder := responder))
  }

  lemma Regroup(x: string, y: string, z: string)
    ensures (x + "|" + y) + "|" + z == x + "|" + (y + "|" + z)
  {
  }

  lemma OneSeparator(p: string, r: string, q: string, t: string)
    requires '|' !in p && '|' !in r && p + "|" + r == q + "|" + t
    ensures p == q && r == t
  {
    SeparatorAt(p, r, |q|);
    assert (q + "|" + t)[|q|] == '|';
    var joined := p + "|" + r;
    assert p == joined[..|p|] && r == joined[|p| + 1..];
    assert q == (q + "|" + t)[..|q|] && t == (q + "|" + t)[|q| + 1..];
  }

  lemma SeparatorAt(p: string, r: string, i: nat)
    requires i < |p| + 1 + |r| && '|' !in p && '|' !in r
    ensures (p + "|" + r)[i] == '|' ==> i == |p|
  {
    assert i < |p| ==> (p + "|" + r)[i] == p[i];
    assert i > |p| ==> (p + "|" + r)[i] == r[i - |p| - 1];
  }

  // Two configurations with different models and one signature.
  lemma DualSigCollides()
    ensures exists a: Config, b: Config ::
              a.llm.backend == b.llm.backend == "dual" && a.llm.dualPicker != b.llm.dualPicker
              && SigOf(a, Llm) == SigOf(b, Llm)
  {
    var stt, tts := SttConfig("", ""), TtsConfig("", "", "");
    var a := Config(stt, tts, LlmConfig("dual", "", "", "", "", "x|y", "z"));
    var b := Config(stt, tts, LlmConfig("dual", "", "", "", "", "x", "y|z"));
    assert LlmModel(a.llm) == "x|y|z" == LlmModel(b.llm);
    assert |a.llm.dualPicker| != |b.llm.dualPicker|;
  }

  // ----- one call as a sequence of steps -----------------------------------------------------

  // One slot's share of a call, before the gather and after it.
  ghost function Borrowed(w: World, k: SlotKey, changed: bool, sig: Sig): World {
    if changed then If(If(w, Close(k)), Acquire(k, sig)) else w
  }

  ghost function If(w: World, step: Step): World { if Enabled(w, step) then Next(w, step) else w }

  ghost function Settled(w: World, k: SlotKey): World {
    if Enabled(w, Commit(k)) then Next(w, Commit(k)) else w
  }

  // Which of the three backends a call replaces.
  datatype Ask = Ask(stt: bool, tts: bool, llm: bool)

  predicate Asked(ask: Ask, kind: Kind) { match kind case Stt => ask.stt case Tts => ask.tts case Llm => ask.llm }

  // All three slots of a pipeline: look up or create what is asked for, then register.
  ghost function AllBorrowed(w: World, p: nat, ask: Ask, c: Config): World {
    Borrowed(Borrowed(Borrowed(w, SlotKey(p, Stt), ask.stt, SigOf(c, Stt)),
                      SlotKey(p, Tts), ask.tts, SigOf(c, Tts)),
             SlotKey(p, Llm), ask.llm, SigOf(c, Llm))
  }

  ghost function Moved(w: World, p: nat, ask: Ask, c: Config): World {
    Settled(Settled(Settled(AllBorrowed(w, p, ask, c), SlotKey(p, Stt)), SlotKey(p, Tts)), SlotKey(p, Llm))
  }

  // No call is in progress: every slot holds a registered backend.
  ghost predicate Calm(w: World) {
    Safe(w) && w.loading == map[] && w.late == {} && w.retiring == map[] && Idle(w) && AllRegistered(w.slots)
  }

  // No pipeline was shut down in the middle of a call.
  ghost predicate Idle(w: World) { w.orphans == map[] && w.shut == map[] && w.gone == {} }

  ghost predicate AllRegistered(slots: map<SlotKey, Slot>) {
    forall k | k in slots :: slots[k].pooled && slots[k].pending.None?
  }

  // The slot ends up with the pooled backend of the signature if it was asked for, else as it was.
  ghost predicate Served(w: World, v: World, k: SlotKey, asked: bool, sig: Sig) {
    k in v.slots &&
    if asked then sig in v.pool && v.slots[k] == Slot(v.pool[sig], true, None)
    else k in w.slots && v.slots[k] == w.slots[k]
  }

  // A slot that is served already, or that waits for a free key of its own kind.
  ghost predicate Underway(w: World, v: World, k: SlotKey, asked: bool, sig: Sig) {
    && sig.kind == k.kind && k in v.slots
    && if v.slots[k].pending.Some? then asked && v.slots[k].pending == Some(sig) && sig !in v.pool
       else Served(w, v, k, asked, sig)
  }

  ghost predicate SameCalls(w: World, v: World) {
    && v.loading == w.loading && v.engine == w.engine && v.orphans == w.orphans && v.late == w.late
    && v.retiring == w.retiring && v.shut == w.shut && v.gone == w.gone
  }

  // Everything but slot k, and possibly its key, is as before.
  ghost predicate OnlySlot(w: World, v: World, k: SlotKey, sig: Sig) {
    && k in v.slots && v.slots == w.slots[k := v.slots[k]]
    && SameCalls(w, v)
    && (v.pool == w.pool || (sig !in w.pool && sig in v.pool && v.pool == w.pool[sig := v.pool[sig]]))
  }

  // What a lookup leaves, with the old backend shut down before if the slot owned it.
  ghost function Looked(w: World, k: SlotKey, sig: Sig): World {
    var heap := if k in w.slots && !w.slots[k].pooled then ShutBackend(w.heap, w.slots[k].inst) else w.heap;
    if sig in w.pool then w.(heap := heap, slots := w.slots[k := Slot(w.pool[sig], true, None)])
    else w.(heap := heap + [Backend(false, 0)], slots := w.slots[k := Slot(|heap|, false, Some(sig))])
  }

  lemma BorrowedIs(w: World, k: SlotKey, sig: Sig)
    requires Idle(w) && sig.kind == k.kind && (k in w.slots ==> w.slots[k].pending.None?)
    ensures Borrowed(w, k, true, sig) == Looked(w, k, sig)
  {
    hide ShutBackend, If, Looked;
    ClosedIs(w, k);
    FetchedIs(If(w, Close(k)), k, sig);
    LookedIs(w, If(w, Close(k)), k, sig);
  }

  ghost predicate Closed(w: World, v: World, k: SlotKey) {
    if k in w.slots && !w.slots[k].pooled then
      v == w.(heap := ShutBackend(w.heap, w.slots[k].inst), slots := w.slots - {k}, shut := map[k := w.slots[k].inst])
    else v == w
  }

  lemma ClosedIs(w: World, k: SlotKey)
    requires Idle(w) && (k in w.slots ==> w.slots[k].pending.None?)
    ensures Closed(w, If(w, Close(k)), k)
  {
    hide ShutBackend;
  }

  lemma FetchedIs(w: World, k: SlotKey, sig: Sig)
    requires sig.kind == k.kind && w.orphans == map[] && w.gone == {} && w.shut.Keys <= {k}
    requires k in w.slots ==> w.slots[k].pooled && w.slots[k].pending.None?
    ensures If(w, Acquire(k, sig)) == Fetch(w.(slots := w.slots - {k}, shut := map[]), k, sig)
  {
    hide Fetch, ShutBackend;
    assert w.shut - {k} == map[];
    assert k !in w.slots ==> w.slots - {k} == w.slots;
  }

  lemma LookedIs(w: World, v: World, k: SlotKey, sig: Sig)
    requires Idle(w) && Closed(w, v, k)
    ensures Fetch(v.(slots := v.slots - {k}, shut := map[]), k, sig) == Looked(w, k, sig)
  {
    hide ShutBackend;
    assert v.slots - {k} == w.slots - {k};
    if sig in w.pool {
      assert (w.slots - {k})[k := Slot(w.pool[sig], true, None)] == w.slots[k := Slot(w.pool[sig], true, None)];
    } else {
      assert (w.slots - {k})[k := Slot(|v.heap|, false, Some(sig))] == w.slots[k := Slot(|v.heap|, false, Some(sig))];
    }
  }

  lemma BorrowedOnly(w: World, k: SlotKey, changed: bool, sig: Sig)
    requires sig.kind == k.kind && (k in w.slots ==> w.slots[k].pending.None?) && (k !in w.slots ==> changed)
    requires Idle(w)
    ensures var v := Borrowed(w, k, changed, sig);
            OnlySlot(w, v, k, sig) && Underway(w, v, k, changed, sig) && v.pool == w.pool
  {
    hide If, ShutBackend;
    if changed { BorrowedIs(w, k, sig); }
  }

  // In the middle of a call on pipeline p: old entries and other pipelines are untouched, and each
  // of the three slots is served or waits for a free key.
  ghost predicate InCall(w: World, v: World, p: nat, ask: Ask, c: Config) {
    && SameCalls(w, v)
    && (forall s | s in w.pool :: s in v.pool && v.pool[s] == w.pool[s])
    && (forall k | k in w.slots && k.pipeline != p :: k in v.slots && v.slots[k] == w.slots[k])
    && (forall k | k in v.slots :: k in w.slots || k.pipeline == p)
    && Underway(w, v, SlotKey(p, Stt), ask.stt, SigOf(c, Stt))
    && Underway(w, v, SlotKey(p, Tts), ask.tts, SigOf(c, Tts))
    && Underway(w, v, SlotKey(p, Llm), ask.llm, SigOf(c, Llm))
  }

  // What a finished call leaves: nothing waits any more.
  ghost predicate MovedBy(w: World, v: World, p: nat, ask: Ask, c: Config) {
    && InCall(w, v, p, ask, c)
    && Served(w, v, SlotKey(p, Stt), ask.stt, SigOf(c, Stt))
    && Served(w, v, SlotKey(p, Tts), ask.tts, SigOf(c, Tts))
    && Served(w, v, SlotKey(p, Llm), ask.llm, SigOf(c, Llm))
  }

  lemma InCallSettled(w: World, v: World, p: nat, ask: Ask, c: Config, kind: Kind)
    requires InCall(w, v, p, ask, c)
    ensures InCall(w, Settled(v, SlotKey(p, kind)), p, ask, c)
    ensures Pending(Settled(v, SlotKey(p, kind)), p) == Pending(v, p) - {kind}
    ensures Free(v, SlotKey(p, kind))
  {
    FreeInCall(w, v, p, ask, c, kind);
    PendingSettled(v, p, kind);
  }

  lemma FreeInCall(w: World, v: World, p: nat, ask: Ask, c: Config, kind: Kind)
    requires InCall(w, v, p, ask, c)
    ensures Free(v, SlotKey(p, kind)) && SlotKey(p, kind) in v.slots
  {
  }

  lemma PendingSettled(v: World, p: nat, kind: Kind)
    ensures Pending(Settled(v, SlotKey(p, kind)), p) == Pending(v, p) - {kind}
  {
  }

  ghost function Pending(w: World, p: nat): set<Kind> {
    set kind | kind in {Stt, Tts, Llm} && SlotKey(p, kind) in w.slots && w.slots[SlotKey(p, kind)].pending.Some?
  }

  lemma SigKinds(c: Config)
    ensures SigOf(c, Stt).kind == Stt && SigOf(c, Tts).kind == Tts && SigOf(c, Llm).kind == Llm
  {
  }

  // After the three lookups.
  lemma BorrowPhase(w: World, p: nat, ask: Ask, c: Config)
    requires AllRegistered(w.slots) && Complete(w.slots, p, ask) && Idle(w)
    ensures InCall(w, AllBorrowed(w, p, ask, c), p, ask, c)
  {
    SigKinds(c);
    hide Borrowed, SigOf, InCall, Served;
    var stt, tts, llm := SlotKey(p, Stt), SlotKey(p, Tts), SlotKey(p, Llm);
    var w1 := Borrowed(w, stt, ask.stt, SigOf(c, Stt));
    BorrowedOnly(w, stt, ask.stt, SigOf(c, Stt));
    var w2 := Borrowed(w1, tts, ask.tts, SigOf(c, Tts));
    BorrowedOnly(w1, tts, ask.tts, SigOf(c, Tts));
    BorrowedOnly(w2, llm, ask.llm, SigOf(c, Llm));
    InCallFrom(w, w1, w2, AllBorrowed(w, p, ask, c), p, ask, c);
  }

  lemma InCallFrom(w: World, w1: World, w2: World, v: World, p: nat, ask: Ask, c: Config)
    requires OnlySlot(w, w1, SlotKey(p, Stt), SigOf(c, Stt)) && w1.pool == w.pool
    requires OnlySlot(w1, w2, SlotKey(p, Tts), SigOf(c, Tts)) && w2.pool == w.pool
    requires OnlySlot(w2, v, SlotKey(p, Llm), SigOf(c, Llm)) && v.pool == w.pool
    requires Underway(w, w1, SlotKey(p, Stt), ask.stt, SigOf(c, Stt))
    requires Underway(w1, w2, SlotKey(p, Tts), ask.tts, SigOf(c, Tts))
    requires Underway(w2, v, SlotKey(p, Llm), ask.llm, SigOf(c, Llm))
    ensures InCall(w, v, p, ask, c)
  {
    hide SigOf;
  }

  // A new pipeline asks for all three kinds.
  ghost predicate Complete(slots: map<SlotKey, Slot>, p: nat, ask: Ask) {
    && (SlotKey(p, Stt) !in slots ==> ask.stt)
    && (SlotKey(p, Tts) !in slots ==> ask.tts)
    && (SlotKey(p, Llm) !in slots ==> ask.llm)
  }

  // A whole `initialize` or `swap_backends`, uninterrupted: what it leaves.
  lemma MovedShape(w: World, p: nat, ask: Ask, c: Config)
    requires AllRegistered(w.slots) && Complete(w.slots, p, ask) && Idle(w)
    ensures MovedBy(w, Moved(w, p, ask, c), p, ask, c)
    ensures var w3 := AllBorrowed(w, p, ask, c);
            var w4 := Settled(w3, SlotKey(p, Stt));
            var w5 := Settled(w4, SlotKey(p, Tts));
            Free(w3, SlotKey(p, Stt)) && Free(w4, SlotKey(p, Tts)) && Free(w5, SlotKey(p, Llm))
  {
    hide InCall, Borrowed, AllBorrowed, Settled, Free, Pending, MovedBy, Complete, SigOf;
    BorrowPhase(w, p, ask, c);
    var w3 := AllBorrowed(w, p, ask, c);
    InCallSettled(w, w3, p, ask, c, Stt);
    var w4 := Settled(w3, SlotKey(p, Stt));
    InCallSettled(w, w4, p, ask, c, Tts);
    var w5 := Settled(w4, SlotKey(p, Tts));
    InCallSettled(w, w5, p, ask, c, Llm);
    AllKinds(Pending(w3, p));
    MovedIs(w, p, ask, c);
    NothingWaits(w, Settled(w5, SlotKey(p, Llm)), p, ask, c);
  }

  lemma AllKinds(kinds: set<Kind>)
    ensures kinds - {Stt} - {Tts} - {Llm} == {}
  {
    forall kind | kind in kinds ensures kind == Stt || kind == Tts || kind == Llm {
    }
  }

  lemma MovedIs(w: World, p: nat, ask: Ask, c: Config)
    ensures Moved(w, p, ask, c)
         == Settled(Settled(Settled(AllBorrowed(w, p, ask, c), SlotKey(p, Stt)), SlotKey(p, Tts)), SlotKey(p, Llm))
  {
    hide Settled, AllBorrowed;
  }

  lemma NothingWaits(w: World, v: World, p: nat, ask: Ask, c: Config)
    requires InCall(w, v, p, ask, c) && Pending(v, p) == {}
    ensures MovedBy(w, v, p, ask, c)
  {
    assert Stt !in Pending(v, p) && Tts !in Pending(v, p) && Llm !in Pending(v, p);
  }

  ghost predicate Free(w: World, k: SlotKey) { Enabled(w, Commit(k)) ==> Harmless(w, Commit(k)) }

  lemma MovedSafe(w: World, p: nat, ask: Ask, c: Config)
    requires Safe(w) && AllRegistered(w.slots) && Complete(w.slots, p, ask) && Idle(w)
    ensures Safe(Moved(w, p, ask, c))
  {
    SigKinds(c);
    hide Safe, Borrowed, Settled, SigOf;
    var stt, tts, llm := SlotKey(p, Stt), SlotKey(p, Tts), SlotKey(p, Llm);
    MovedShape(w, p, ask, c);
    var w1 := Borrowed(w, stt, ask.stt, SigOf(c, Stt));
    BorrowedSafe(w, stt, ask.stt, SigOf(c, Stt));
    var w2 := Borrowed(w1, tts, ask.tts, SigOf(c, Tts));
    BorrowedSafe(w1, tts, ask.tts, SigOf(c, Tts));
    BorrowedSafe(w2, llm, ask.llm, SigOf(c, Llm));
    var w3 := AllBorrowed(w, p, ask, c);
    SettledSafe(w3, stt);
    var w4 := Settled(w3, stt);
    SettledSafe(w4, tts);
    SettledSafe(Settled(w4, tts), llm);
  }

  lemma IfSafe(w: World, step: Step)
    requires Safe(w) && (Enabled(w, step) ==> Harmless(w, step))
    ensures Safe(If(w, step))
  {
    hide Safe;
    if Enabled(w, step) { HarmlessSafe(w, step); }
  }

  lemma BorrowedSafe(w: World, k: SlotKey, changed: bool, sig: Sig)
    requires Safe(w) && Idle(w) && sig.kind == k.kind
    requires (k in w.slots ==> w.slots[k].pending.None?) && (k !in w.slots ==> changed)
    ensures Safe(Borrowed(w, k, changed, sig)) && Idle(Borrowed(w, k, changed, sig))
    ensures forall l | l != k && l in Borrowed(w, k, changed, sig).slots ::
              l in w.slots && w.slots[l] == Borrowed(w, k, changed, sig).slots[l]
    ensures forall l | l != k && l in w.slots :: l in Borrowed(w, k, changed, sig).slots
  {
    hide Safe, If;
    BorrowedOnly(w, k, changed, sig);
    if changed {
      IfSafe(w, Close(k));
      IfSafe(If(w, Close(k)), Acquire(k, sig));
    }
  }

  lemma SettledSafe(w: World, k: SlotKey)
    requires Safe(w) && Free(w, k)
    ensures Safe(Settled(w, k))
  {
    hide Safe;
    IfSafe(w, Commit(k));
  }

  // The slot holds the pooled backend of the signature.
  ghost predicate HoldsFor(w: World, k: SlotKey, sig: Sig) {
    k in w.slots && sig in w.pool && w.pool[sig] == w.slots[k].inst
  }

  // For which signature each slot's backend was fetched last.
  ghost function Fetched(held: map<SlotKey, Sig>, p: nat, ask: Ask, c: Config): map<SlotKey, Sig> {
    FetchedOne(FetchedOne(FetchedOne(held, SlotKey(p, Stt), ask.stt, SigOf(c, Stt)),
                          SlotKey(p, Tts), ask.tts, SigOf(c, Tts)),
               SlotKey(p, Llm), ask.llm, SigOf(c, Llm))
  }

  ghost function FetchedOne(held: map<SlotKey, Sig>, k: SlotKey, asked: bool, sig: Sig): map<SlotKey, Sig> {
    if asked then held[k := sig] else held
  }

  ghost predicate HoldsAll(w: World, held: map<SlotKey, Sig>) {
    forall k | k in w.slots :: k in held && HoldsFor(w, k, held[k])
  }

  // What a call on one pipeline does to what any slot holds.
  lemma StillHolds(w: World, v: World, p: nat, ask: Ask, c: Config, held: map<SlotKey, Sig>)
    requires MovedBy(w, v, p, ask, c) && HoldsAll(w, held)
    ensures HoldsAll(v, Fetched(held, p, ask, c))
  {
    var after := Fetched(held, p, ask, c);
    forall k | k in v.slots ensures k in after && HoldsFor(v, k, after[k]) {
      if k.pipeline == p {
        assert k == SlotKey(p, Stt) || k == SlotKey(p, Tts) || k == SlotKey(p, Llm);
      } else {
        assert HoldsFor(w, k, held[k]);
      }
    }
  }

  // `swap_llm`, uninterrupted.
  ghost function EngineMoved(w: World, sig: Sig): World
    requires w.loading == map[] && w.retiring == map[]
  {
    If(if sig in w.pool then Next(w, EngineHit(0, sig)) else Next(Next(w, EngineBegin(0, sig)), EngineCommit(0)),
       EngineTakes(0))
  }

  // What it comes to: the old backend is shut down if need be, and the engine has the new one.
  ghost function EngineSwapped(w: World, current: nat): World {
    w.(heap := RetiredHeap(w.heap, w.pool, w.engine, current), engine := Some(current))
  }

  ghost function RetiredHeap(heap: seq<Backend>, pool: map<Sig, nat>, saw: Option<nat>, current: nat): seq<Backend> {
    if MustRetire(pool, saw, current) then ShutBackend(heap, saw.value) else heap
  }

  lemma ReplacedAndTaken(w: World, current: nat)
    requires w.retiring == map[]
    ensures If(Replace(w, 0, w.engine, current), EngineTakes(0)) == EngineSwapped(w, current)
  {
    hide MustRetire, ShutBackend;
    var v := Replace(w, 0, w.engine, current);
    assert v.retiring - {0} == map[];
  }

  lemma EngineMovedIs(w: World, sig: Sig)
    requires w.loading == map[] && w.retiring == map[]
    ensures sig in w.pool ==> EngineMoved(w, sig) == EngineSwapped(w, w.pool[sig])
    ensures sig !in w.pool ==>
              EngineMoved(w, sig)
              == EngineSwapped(w.(heap := w.heap + [Backend(true, 0)], pool := w.pool[sig := |w.heap|]), |w.heap|)
  {
    hide MustRetire, ShutBackend;
    if sig in w.pool {
      ReplacedAndTaken(w, w.pool[sig]);
    } else {
      var v := Next(w, EngineBegin(0, sig));
      assert v.loading - {0} == map[];
      assert BringUp(v.heap, |w.heap|) == w.heap + [Backend(true, 0)];
      ReplacedAndTaken(w.(heap := w.heap + [Backend(true, 0)], pool := w.pool[sig := |w.heap|]), |w.heap|);
    }
  }

  lemma EngineMovedCalm(w: World, sig: Sig)
    requires Calm(w)
    ensures Calm(EngineMoved(w, sig))
  {
    hide Safe, EngineSwapped, EngineMoved;
    EngineMovedIs(w, sig);
    EngineMovedSafe(w, sig);
    EngineMovedElse(w, sig);
  }

  lemma EngineMovedElse(w: World, sig: Sig)
    requires w.loading == map[] && w.retiring == map[]
    ensures var v := EngineMoved(w, sig);
            && v.loading == w.loading && v.orphans == w.orphans && v.late == w.late && v.retiring == w.retiring
            && v.shut == w.shut && v.gone == w.gone && v.slots == w.slots
  {
    hide EngineMoved, RetiredHeap;
    EngineMovedIs(w, sig);
  }

  lemma EngineMovedSafe(w: World, sig: Sig)
    requires Calm(w)
    ensures Safe(EngineMoved(w, sig))
  {
    hide Safe, Replace, CanReplace, Registered, If;
    CalmEngine(w);
    if sig in w.pool {
      SoleSwap(w, w.pool[sig]);
      IfSafe(w, EngineHit(0, sig));
      assert If(w, EngineHit(0, sig)) == Next(w, EngineHit(0, sig)) by { IfEnabled(w, EngineHit(0, sig)); }
      IfSafe(Next(w, EngineHit(0, sig)), EngineTakes(0));
    } else {
      var v := Next(w, EngineBegin(0, sig));
      IfSafe(w, EngineBegin(0, sig));
      IfEnabled(w, EngineBegin(0, sig));
      RegisteredAlone(v, 0);
      SoleSwap(Registered(v, 0), |w.heap|);
      IfSafe(v, EngineCommit(0));
      IfEnabled(v, EngineCommit(0));
      IfSafe(Next(v, EngineCommit(0)), EngineTakes(0));
    }
  }

  lemma IfEnabled(w: World, step: Step)
    requires Enabled(w, step)
    ensures If(w, step) == Next(w, step)
  {
    hide Enabled, Next;
  }

  lemma CalmEngine(w: World)
    requires Calm(w)
    ensures EngineAlone(w)
  {
  }

  // No other swap is in progress.
  ghost predicate EngineAlone(w: World) {
    w.retiring == map[] && (w.engine.Some? ==> w.engine.value < |w.heap| && w.heap[w.engine.value].up)
  }

  lemma RegisteredAlone(w: World, j: nat)
    requires EngineAlone(w) && j in w.loading
    ensures EngineAlone(Registered(w, j)) && Registered(w, j).engine == w.engine
  {
  }

  // A swap that no other one overlaps is harmless to its end.
  lemma SoleSwap(w: World, current: nat)
    requires EngineAlone(w)
    ensures CanReplace(w, w.engine, current)
    ensures var v := Replace(w, 0, w.engine, current);
            0 in v.retiring ==> Forgettable(WithoutRetiring(v, 0), v.retiring[0].next)
  {
  }

  // After an uninterrupted swap the engine's backend is the pooled one of the signature.
  lemma SwappedEngineIsPooled(w: World, sig: Sig)
    requires w.loading == map[] && w.retiring == map[]
    ensures var v := EngineMoved(w, sig); sig in v.pool && v.engine == Some(v.pool[sig])
  {
    hide EngineMoved, RetiredHeap;
    EngineMovedIs(w, sig);
  }

  // Every slot refers to a backend that exists.
  ghost predicate Allocated(w: World) {
    && (forall k | k in w.slots :: w.slots[k].inst < |w.heap|)
    && (forall s | s in w.pool :: w.pool[s] < |w.heap|)
  }

  lemma NotWaiting(w: World, k: SlotKey)
    ensures k in w.slots && w.slots[k].pending.None? ==> Settled(w, k) == w
  {
  }

  // What a slot's backend was fetched for and what the configuration now says: the change tests see
  // every backend, the recogniser's model and Ollama's.
  predicate UpToDate(sig: Sig, c: Config, kind: Kind) {
    match kind
    case Stt => sig == Sig(Stt, c.stt.backend, c.stt.model)
    case Tts => sig.kind == Tts && sig.backend == c.tts.backend
    case Llm => sig.kind == Llm && sig.backend == c.llm.backend
                && (sig.backend == "ollama" ==> sig.model == c.llm.ollamaModel)
  }

  lemma StaysUpToDate(sig: Sig, a: Config, b: Config, kind: Kind)
    ensures UpToDate(SigOf(b, kind), b, kind)
    ensures UpToDate(sig, a, kind) && !Changed(a, b, kind) ==> UpToDate(sig, b, kind)
  {
  }

  // Between calls every slot of every live pipeline holds the initialised pooled backend of the
  // signature it was fetched for, and that signature is up to date.
  ghost predicate ValidWorld(w: World, configs: map<nat, Config>, held: map<SlotKey, Sig>) {
    && Calm(w) && HoldsAll(w, held)
    && (forall k :: k in w.slots <==> k.pipeline in configs)
    && AllUpToDate(configs, held)
  }

  ghost predicate AllUpToDate(configs: map<nat, Config>, held: map<SlotKey, Sig>) {
    forall k: SlotKey | k.pipeline in configs :: k in held && UpToDate(held[k], configs[k.pipeline], k.kind)
  }

  lemma ReadyForCall(w: World, configs: map<nat, Config>, held: map<SlotKey, Sig>, p: nat, ask: Ask)
    requires ValidWorld(w, configs, held) && (p in configs || ask == Ask(true, true, true))
    ensures Safe(w) && AllRegistered(w.slots) && Complete(w.slots, p, ask) && Allocated(w) && Idle(w)
  {
  }

  lemma CallKeepsValid(w: World, configs: map<nat, Config>, held: map<SlotKey, Sig>, p: nat, ask: Ask, c: Config)
    requires ValidWorld(w, configs, held) && (p in configs || ask == Ask(true, true, true))
    requires p in configs ==> forall kind :: Asked(ask, kind) || !Changed(configs[p], c, kind)
    ensures ValidWorld(Moved(w, p, ask, c), configs[p := c], Fetched(held, p, ask, c))
    ensures !ask.stt && !ask.tts && !ask.llm ==> Moved(w, p, ask, c) == w
  {
    hide Safe, Moved, HoldsAll, Fetched, SigOf, MovedBy, Complete, Changed, UpToDate;
    ReadyForCall(w, configs, held, p, ask);
    MovedSafe(w, p, ask, c);
    MovedShape(w, p, ask, c);
    var v := Moved(w, p, ask, c);
    MovedSlots(w, v, p, ask, c);
    StillHolds(w, v, p, ask, c, held);
    MovedElse(w, v, p, ask, c);
    FetchedUpToDate(configs, held, p, ask, c);
    NothingAsked(w, p, ask, c);
  }

  lemma FetchedUpToDate(configs: map<nat, Config>, held: map<SlotKey, Sig>, p: nat, ask: Ask, c: Config)
    requires AllUpToDate(configs, held) && (p in configs || ask == Ask(true, true, true))
    requires p in configs ==> forall kind :: Asked(ask, kind) || !Changed(configs[p], c, kind)
    ensures AllUpToDate(configs[p := c], Fetched(held, p, ask, c))
  {
    hide Fetched, SigOf, Changed, UpToDate;
    FetchedKinds(held, p, ask, c);
    FetchedOthers(held, p, ask, c);
    var after := Fetched(held, p, ask, c);
    forall k: SlotKey | k.pipeline in configs[p := c]
      ensures k in after && UpToDate(after[k], configs[p := c][k.pipeline], k.kind)
    {
      if k.pipeline == p {
        assert FetchedRight(held, p, ask, c, k.kind) && k == SlotKey(p, k.kind);
        StaysUpToDate(if Asked(ask, k.kind) then SigOf(c, k.kind) else held[k],
                      if p in configs then configs[p] else c, c, k.kind);
      }
    }
  }

  lemma MovedElse(w: World, v: World, p: nat, ask: Ask, c: Config)
    requires MovedBy(w, v, p, ask, c)
    ensures SameCalls(w, v)
  {
  }

  lemma FetchedOthers(held: map<SlotKey, Sig>, p: nat, ask: Ask, c: Config)
    ensures forall k: SlotKey | k.pipeline != p ::
              (k in Fetched(held, p, ask, c) <==> k in held) && (k in held ==> Fetched(held, p, ask, c)[k] == held[k])
  {
    hide SigOf;
  }

  lemma FetchedKinds(held: map<SlotKey, Sig>, p: nat, ask: Ask, c: Config)
    ensures forall kind :: FetchedRight(held, p, ask, c, kind)
  {
    hide SigOf, FetchedRight, FetchedOne;
    forall kind ensures FetchedRight(held, p, ask, c, kind) {
      FetchedKind(held, p, ask, c, kind);
    }
  }

  lemma FetchedKind(held: map<SlotKey, Sig>, p: nat, ask: Ask, c: Config, kind: Kind)
    ensures FetchedRight(held, p, ask, c, kind)
  {
    hide SigOf;
    match kind
    case Stt => assert Asked(ask, kind) == ask.stt;
    case Tts => assert Asked(ask, kind) == ask.tts;
    case Llm => assert Asked(ask, kind) == ask.llm;
  }

  ghost predicate FetchedRight(held: map<SlotKey, Sig>, p: nat, ask: Ask, c: Config, kind: Kind) {
    var k, after := SlotKey(p, kind), Fetched(held, p, ask, c);
    && (k in after <==> Asked(ask, kind) || k in held)
    && (k in after ==> after[k] == if Asked(ask, kind) then SigOf(c, kind) else held[k])
  }

  lemma NothingAsked(w: World, p: nat, ask: Ask, c: Config)
    requires AllRegistered(w.slots)
    ensures ask == Ask(false, false, false) ==> Moved(w, p, ask, c) == w
  {
  }

  lemma MovedSlots(w: World, v: World, p: nat, ask: Ask, c: Config)
    requires AllRegistered(w.slots) && MovedBy(w, v, p, ask, c)
    ensures AllRegistered(v.slots)
    ensures forall k: SlotKey :: k in v.slots <==> k in w.slots || k.pipeline == p
  {
    forall k: SlotKey | k.pipeline == p ensures k in v.slots && v.slots[k].pending.None? && v.slots[k].pooled {
      assert k == SlotKey(p, Stt) || k == SlotKey(p, Tts) || k == SlotKey(p, Llm);
    }
  }

  ghost function WithoutPipeline(w: World, p: nat): World {
    w.(slots := w.slots - {SlotKey(p, Stt), SlotKey(p, Tts), SlotKey(p, Llm)})
  }

  ghost predicate AllPooled(w: World, p: nat) {
    forall kind :: SlotKey(p, kind) in w.slots && w.slots[SlotKey(p, kind)].pooled
  }

  // The three slots given up one after the other.
  ghost function WithoutAll(w: World, p: nat): World
    requires AllPooled(w, p)
  {
    Detach(Detach(Detach(w, SlotKey(p, Stt)), SlotKey(p, Tts)), SlotKey(p, Llm))
  }

  lemma PipelinePooled(w: World, configs: map<nat, Config>, held: map<SlotKey, Sig>, p: nat)
    requires ValidWorld(w, configs, held) && p in configs
    ensures AllPooled(w, p) && Allocated(w)
  {
    ReadyForCall(w, configs, held, p, Ask(false, false, false));
  }

  // Nothing is shut down when a pipeline whose slots are all pooled goes away.
  lemma WithoutAllIs(w: World, p: nat)
    requires AllPooled(w, p)
    ensures WithoutAll(w, p) == WithoutPipeline(w, p)
  {
    var stt, tts, llm := SlotKey(p, Stt), SlotKey(p, Tts), SlotKey(p, Llm);
    assert w.slots[stt].pooled && w.slots[tts].pooled && w.slots[llm].pooled;
    assert w.slots - {stt} - {tts} - {llm} == w.slots - {stt, tts, llm};
  }

  lemma WithoutAllSafe(w: World, p: nat)
    requires Safe(w) && AllPooled(w, p)
    ensures Safe(WithoutAll(w, p))
  {
    hide Safe;
    var v := Detach(w, SlotKey(p, Stt));
    PooledDetachSafe(w, SlotKey(p, Stt));
    PooledDetachSafe(v, SlotKey(p, Tts));
    PooledDetachSafe(Detach(v, SlotKey(p, Tts)), SlotKey(p, Llm));
  }

  lemma PooledDetachSafe(w: World, k: SlotKey)
    requires Safe(w) && k in w.slots && w.slots[k].pooled
    ensures Safe(Detach(w, k))
  {
    hide Core, OrphansSafe;
    DetachCore(w, k);
    DetachOrphans(w, k, 1);
  }

  lemma ReleaseKeepsValid(w: World, configs: map<nat, Config>, held: map<SlotKey, Sig>, p: nat)
    requires ValidWorld(w, configs, held) && p in configs
    ensures ValidWorld(WithoutPipeline(w, p), configs - {p}, held)
  {
    hide Safe, Detach;
    PipelinePooled(w, configs, held, p);
    WithoutAllIs(w, p);
    WithoutAllSafe(w, p);
    forall k: SlotKey ensures k in WithoutPipeline(w, p).slots <==> k.pipeline in configs - {p} {
      if k.pipeline == p { assert k == SlotKey(p, Stt) || k == SlotKey(p, Tts) || k == SlotKey(p, Llm); }
    }
  }

  lemma EngineKeepsValid(w: World, configs: map<nat, Config>, held: map<SlotKey, Sig>, sig: Sig)
    requires ValidWorld(w, configs, held)
    ensures ValidWorld(EngineMoved(w, sig), configs, held)
  {
    hide Safe, EngineMoved, EngineSwapped;
    EngineMovedCalm(w, sig);
    EngineMovedIs(w, sig);
    EngineSlots(w, sig);
  }

  lemma EngineSlots(w: World, sig: Sig)
    requires w.loading == map[] && w.retiring == map[]
    ensures EngineMoved(w, sig).slots == w.slots
    ensures forall s | s in w.pool :: s in EngineMoved(w, sig).pool && EngineMoved(w, sig).pool[s] == w.pool[s]
  {
    hide EngineMoved, RetiredHeap;
    EngineMovedIs(w, sig);
  }

  // A slot that is not asked for keeps its backend; one that is keeps it only if it was fetched for
  // the same signature.
  lemma OneMoved(w: World, held: map<SlotKey, Sig>, p: nat, ask: Ask, c: Config, kind: Kind)
    requires Safe(w) && AllRegistered(w.slots) && Complete(w.slots, p, ask) && Idle(w)
    requires HoldsAll(w, held) && SlotKey(p, kind) in w.slots
    ensures var k, v := SlotKey(p, kind), Moved(w, p, ask, c);
            && k in v.slots && k in held
            && (v.slots[k].inst == w.slots[k].inst <==> Asked(ask, kind) ==> held[k] == SigOf(c, kind))
    ensures var v := Moved(w, p, ask, c);
            forall k | k in w.slots && k.pipeline != p :: k in v.slots && v.slots[k] == w.slots[k]
  {
    hide Safe, Moved, SigOf, Underway, Complete;
    var k, v := SlotKey(p, kind), Moved(w, p, ask, c);
    MovedSafe(w, p, ask, c);
    MovedShape(w, p, ask, c);
    PoolInjective(v);
    assert HoldsFor(w, k, held[k]);
    assert Served(w, v, k, Asked(ask, kind), SigOf(c, kind)) by {
      match kind
      case Stt =>
      case Tts =>
      case Llm =>
    }
  }

  // Which slots one swap gives another backend, from the two configurations alone.
  lemma SwapChanges(w: World, configs: map<nat, Config>, held: map<SlotKey, Sig>, p: nat, c: Config)
    requires ValidWorld(w, configs, held) && p in configs
    ensures var v := Moved(w, p, AskFor(configs[p], c), c);
            && (forall kind :: SlotKey(p, kind) in w.slots && SlotKey(p, kind) in v.slots)
            && (forall k | k in w.slots && k.pipeline != p :: k in v.slots && v.slots[k] == w.slots[k])
            && SwappedFrom(w.slots, v.slots, p, configs[p], c)
  {
    hide Safe, Moved, HoldsAll, SigOf, Complete, AllRegistered, SwappedFrom;
    var ask := AskFor(configs[p], c);
    ReadyForCall(w, configs, held, p, ask);
    OneMoved(w, held, p, ask, c, Stt);
    OneMoved(w, held, p, ask, c, Tts);
    OneMoved(w, held, p, ask, c, Llm);
    SwappedIs(w.slots, Moved(w, p, ask, c).slots, held, p, configs[p], c);
  }

  // The recogniser changes with its backend or model, the synthesiser with its backend, the language
  // model with its backend and, for Ollama, its model.
  ghost predicate SwappedFrom(was: map<SlotKey, Slot>, now: map<SlotKey, Slot>, p: nat, a: Config, b: Config) {
    var stt, tts, llm := SlotKey(p, Stt), SlotKey(p, Tts), SlotKey(p, Llm);
    && stt in was && stt in now && tts in was && tts in now && llm in was && llm in now
    && (now[stt].inst == was[stt].inst <==> a.stt.backend == b.stt.backend && a.stt.model == b.stt.model)
    && (now[tts].inst == was[tts].inst <==> a.tts.backend == b.tts.backend)
    && (a.llm.backend == b.llm.backend && a.llm.ollamaModel == b.llm.ollamaModel ==> now[llm].inst == was[llm].inst)
    && (now[llm].inst == was[llm].inst ==>
       a.llm.backend == b.llm.backend && (a.llm.backend == "ollama" ==> a.llm.ollamaModel == b.llm.ollamaModel))
  }

  lemma SwappedIs(
    was: map<SlotKey, Slot>, now: map<SlotKey, Slot>, held: map<SlotKey, Sig>, p: nat, a: Config, b: Config)
    requires forall kind: Kind ::
               var k := SlotKey(p, kind);
               && k in was && k in now && k in held && UpToDate(held[k], a, kind)
               && (now[k].inst == was[k].inst <==> Asked(AskFor(a, b), kind) ==> held[k] == SigOf(b, kind))
    ensures SwappedFrom(was, now, p, a, b)
  {
    assert SlotKey(p, Stt) in was && SlotKey(p, Tts) in was && SlotKey(p, Llm) in was;
    LlmModelIs(b.llm);
    hide LlmModel, TtsModel;
  }

  // Two slots share one backend exactly when they were fetched for the same backend and model.
  lemma SharedIff(w: World, kind: Kind, p: nat, q: nat, a: Config, b: Config)
    requires Safe(w) && HoldsFor(w, SlotKey(p, kind), SigOf(a, kind)) && HoldsFor(w, SlotKey(q, kind), SigOf(b, kind))
    ensures w.slots[SlotKey(p, kind)].inst == w.slots[SlotKey(q, kind)].inst <==> SameInUse(a, b, kind)
  {
    hide Safe, SigOf, SameInUse;
    PoolInjective(w);
    SigSameIff(a, b, kind, kind);
  }

  // Between calls two pipelines share a recogniser exactly when backend and model are the same.
  lemma RecognisersSharedIff(w: World, configs: map<nat, Config>, held: map<SlotKey, Sig>, p: nat, q: nat)
    requires ValidWorld(w, configs, held) && p in configs && q in configs
    ensures SlotKey(p, Stt) in w.slots && SlotKey(q, Stt) in w.slots
    ensures w.slots[SlotKey(p, Stt)].inst == w.slots[SlotKey(q, Stt)].inst <==>
            configs[p].stt.backend == configs[q].stt.backend && configs[p].stt.model == configs[q].stt.model
  {
    hide Safe, AllRegistered;
    assert HoldsFor(w, SlotKey(p, Stt), held[SlotKey(p, Stt)]);
    assert HoldsFor(w, SlotKey(q, Stt), held[SlotKey(q, Stt)]);
    SharedIff(w, Stt, p, q, configs[p], configs[q]);
  }

  // ----- the server's backends -----------------------------------------------------------------

  // Pipelines are numbered; every one of them uses the pool, as the server sets them up.
  class Server {
    var heap: seq<Backend>
    var pool: map<Sig, nat>
    var slots: map<SlotKey, Slot>
    var engine: Option<nat>
    var configs: map<nat, Config>
    ghost var held: map<SlotKey, Sig>

    ghost function World(): World
      reads this
    {
      BackendPool.World(heap, pool, slots, engine, map[], map[], {}, map[], map[], {})
    }

    ghost predicate Valid()
      reads this
    {
      ValidWorld(World(), configs, held)
    }

    constructor ()
      ensures Valid() && World() == START && configs == map[]
    {
      heap, pool, slots, engine, configs, held := [Backend(true, 0)], map[], map[], Some(0), map[], map[];
      new;
      StartSafe();
    }

    // `swap_one_backend`: the caller must initialise and register what was created.
    method SwapOneBackend(k: SlotKey, changed: bool, sig: Sig) returns (created: bool)
      requires Allocated(World()) && sig.kind == k.kind
      requires k in slots ==> slots[k].pending.None?
      requires k !in slots ==> changed
      modifies this`heap, this`slots
      ensures World() == Borrowed(old(World()), k, changed, sig)
      ensures Allocated(World()) && k in slots && created == slots[k].pending.Some?
      ensures forall l | l != k :: l in slots <==> l in old(slots)
      ensures forall l | l != k && l in slots :: slots[l] == old(slots)[l]
    {
      if !changed { return false; }
      hide Borrowed;
      BorrowedIs(World(), k, sig);
      if k in slots && !slots[k].pooled {
        var id := slots[k].inst;
        heap := heap[id := Backend(false, heap[id].shutdowns + 1)];
      }
      if sig in pool {
        slots := slots[k := Slot(pool[sig], true, None)];
        created := false;
      } else {
        slots := slots[k := Slot(|heap|, false, Some(sig))];
        heap := heap + [Backend(false, 0)];
        created := true;
      }
    }

    // `initialize()` of a created instance succeeded: register it and flip the flag.
    method Register(k: SlotKey)
      requires Allocated(World()) && k in slots && slots[k].pending.Some?
      modifies this`heap, this`pool, this`slots
      ensures World() == Settled(old(World()), k) && Allocated(World())
      ensures slots.Keys == old(slots.Keys)
      ensures forall l | l != k && l in slots :: slots[l] == old(slots)[l]
    {
      var slot := slots[k];
      heap := heap[slot.inst := heap[slot.inst].(up := true)];
      pool := pool[slot.pending.value := slot.inst];
      slots := slots[k := Slot(slot.inst, true, None)];
    }

    // `initialize()` of a new pipeline: borrow or create all three, then register the new ones.
    method Initialize(p: nat, config: Config)
      requires Valid() && p !in configs
      modifies this
      ensures World() == Moved(old(World()), p, Ask(true, true, true), config)
      ensures Valid() && configs == old(configs)[p := config]
      ensures held == Fetched(old(held), p, Ask(true, true, true), config)
      ensures forall kind :: HoldsFor(World(), SlotKey(p, kind), SigOf(config, kind))
    {
      hide ValidWorld, Moved, Fetched, HoldsFor, SigOf, HeldFor;
      var ask := Ask(true, true, true);
      ReadyForCall(World(), configs, held, p, ask);
      CallKeepsValid(World(), configs, held, p, ask, config);
      RunCall(p, ask, config);
      configs := configs[p := config];
      FirstHeld(held, p, config);
      held := Fetched(held, p, ask, config);
      AllHeld(World(), configs, held, p, [config]);
    }

    // `swap_backends()`: replace what the change tests ask for, then register the new ones.
    method SwapBackends(p: nat, config: Config)
      requires Valid() && p in configs
      modifies this
      ensures var before := old(configs)[p];
              World() == Moved(old(World()), p, AskFor(before, config), config)
      ensures Valid() && configs == old(configs)[p := config]
      ensures var before := old(configs)[p];
              held == Fetched(old(held), p, AskFor(before, config), config)
      ensures config == old(configs)[p] ==> World() == old(World())
      ensures SwappedFrom(old(slots), slots, p, old(configs)[p], config)
      ensures forall k | k in old(slots) && k.pipeline != p :: k in slots && slots[k] == old(slots)[k]
    {
      hide ValidWorld, Moved, SwappedFrom;
      var before := configs[p];
      SwapChanges(World(), configs, held, p, config);
      var ask := Ask(Changed(before, config, Stt), Changed(before, config, Tts), Changed(before, config, Llm));
      MissedSwapIff(before, config, Stt);
      ReadyForCall(World(), configs, held, p, ask);
      CallKeepsValid(World(), configs, held, p, ask, config);
      RunCall(p, ask, config);
      configs := configs[p := config];
      held := Fetched(held, p, ask, config);
    }

    // The part the two share: three lookups, then the registrations.
    method RunCall(p: nat, ask: Ask, config: Config)
      requires AllRegistered(slots) && Complete(slots, p, ask) && Allocated(World())
      modifies this`heap, this`pool, this`slots
      ensures World() == Moved(old(World()), p, ask, config)
    {
      hide Borrowed, Settled, Allocated;
      var stt, tts, llm := SlotKey(p, Stt), SlotKey(p, Tts), SlotKey(p, Llm);
      var sttNew := SwapOneBackend(stt, ask.stt, SigOf(config, Stt));
      var ttsNew := SwapOneBackend(tts, ask.tts, SigOf(config, Tts));
      var llmNew := SwapOneBackend(llm, ask.llm, SigOf(config, Llm));
      NotWaiting(World(), stt);
      if sttNew { Register(stt); }
      NotWaiting(World(), tts);
      if ttsNew { Register(tts); }
      NotWaiting(World(), llm);
      if llmNew { Register(llm); }
    }

    // `shutdown()`: only what the pipeline owns itself is shut down, and here that is nothing.
    method Shutdown(p: nat)
      requires Valid() && p in configs
      modifies this
      ensures Valid() && configs == old(configs) - {p}
      ensures World() == WithoutPipeline(old(World()), p)
    {
      hide ValidWorld, Allocated, Detach;
      PipelinePooled(World(), configs, held, p);
      WithoutAllIs(World(), p);
      ReleaseKeepsValid(World(), configs, held, p);
      Drop(SlotKey(p, Stt));
      Drop(SlotKey(p, Tts));
      Drop(SlotKey(p, Llm));
      configs := configs - {p};
    }

    method Drop(k: SlotKey)
      requires Allocated(World()) && k in slots
      modifies this`heap, this`slots
      ensures World() == Detach(old(World()), k) && Allocated(World())
      ensures slots == old(slots) - {k}
    {
      if !slots[k].pooled {
        var id := slots[k].inst;
        heap := heap[id := Backend(false, heap[id].shutdowns + 1)];
      }
      slots := slots - {k};
    }

    // `swap_llm()` without a router.
    method SwapLlm(config: Config) returns (wasPooled: bool)
      requires Valid()
      modifies this`heap, this`pool, this`engine
      ensures World() == EngineMoved(old(World()), SigOf(config, Llm))
      ensures Valid() && wasPooled == (SigOf(config, Llm) in old(pool))
    {
      hide SigOf, HoldsAll, InPool, EngineMoved, EngineSwapped;
      var sig := SigOf(config, Llm);
      EngineKeepsValid(World(), configs, held, sig);
      EngineMovedIs(World(), sig);
      hide ValidWorld;
      var current := |heap|;
      wasPooled := sig in pool;
      if wasPooled {
        current := pool[sig];
      } else {
        heap := heap + [Backend(true, 0)];
        pool := pool[sig := current];
      }
      TakeNew(current);
    }

    // The end of it: the old backend is shut down first.
    method TakeNew(current: nat)
      modifies this`heap, this`engine
      ensures World() == EngineSwapped(old(World()), current)
    {
      RetireOld(engine, current);
      engine := Some(current);
    }

    method RetireOld(saw: Option<nat>, current: nat)
      modifies this`heap
      ensures heap == RetiredHeap(old(heap), pool, saw, current)
    {
      if saw.Some? && saw.value != current && saw.value !in pool.Values && saw.value < |heap| {
        heap := heap[saw.value := Backend(false, heap[saw.value].shutdowns + 1)];
      }
    }
  }

  // ----- what a slot holds after any sequence of swaps ---------------------------------------------

  // The last configuration that the change test let through.
  function LastFetch(configs: seq<Config>, kind: Kind): (m: nat)
    requires configs != []
    ensures m < |configs|
  {
    var n := |configs| - 1;
    if n == 0 || Changed(configs[n - 1], configs[n], kind) then n else LastFetch(configs[..n], kind)
  }

  predicate SameModel(a: Config, b: Config, kind: Kind) {
    match kind
    case Stt => a.stt.model == b.stt.model
    case Tts => TtsModel(a.tts) == TtsModel(b.tts)
    case Llm => LlmModel(a.llm) == LlmModel(b.llm)
  }

  lemma {:induction false} BackendKept(configs: seq<Config>, kind: Kind)
    requires configs != []
    ensures !Changed(configs[LastFetch(configs, kind)], configs[|configs| - 1], kind)
  {
    var n := |configs| - 1;
    if n > 0 && !Changed(configs[n - 1], configs[n], kind) {
      BackendKept(configs[..n], kind);
    }
  }

  // Of a swapped pipeline, the slot holds the backend of the current configuration exactly when the
  // model then fetched is the current one; for speech recognition and for Ollama it always does.
  lemma SlotTracksIff(w: World, k: SlotKey, configs: seq<Config>)
    requires Safe(w) && configs != [] && HoldsFor(w, k, SigOf(configs[LastFetch(configs, k.kind)], k.kind))
    ensures var last := configs[|configs| - 1];
            && (HoldsFor(w, k, SigOf(last, k.kind)) <==> SameModel(configs[LastFetch(configs, k.kind)], last, k.kind))
            && (k.kind == Stt || (k.kind == Llm && last.llm.backend == "ollama") ==>
                HoldsFor(w, k, SigOf(last, k.kind)))
  {
    hide SigOf, Changed, SameModel, LastFetch, Safe;
    var fetched, last := configs[LastFetch(configs, k.kind)], configs[|configs| - 1];
    BackendKept(configs, k.kind);
    SameSigIff(fetched, last, k.kind);
    PoolInjective(w);
  }

  lemma SameSigIff(a: Config, b: Config, kind: Kind)
    requires !Changed(a, b, kind)
    ensures SigOf(a, kind) == SigOf(b, kind) <==> SameModel(a, b, kind)
    ensures kind == Stt || (kind == Llm && b.llm.backend == "ollama") ==> SameModel(a, b, kind)
  {
  }

  lemma PoolInjective(w: World)
    requires Safe(w)
    ensures forall s, t | s in w.pool && t in w.pool && w.pool[s] == w.pool[t] :: s == t
  {
  }

  // What the call recorded for the slots of p, after these configurations.
  ghost predicate HeldFor(held: map<SlotKey, Sig>, p: nat, configs: seq<Config>)
    requires configs != []
  {
    forall kind :: SlotKey(p, kind) in held && held[SlotKey(p, kind)] == SigOf(configs[LastFetch(configs, kind)], kind)
  }

  ghost function AskFor(a: Config, b: Config): Ask { Ask(Changed(a, b, Stt), Changed(a, b, Tts), Changed(a, b, Llm)) }

  lemma FirstHeld(held: map<SlotKey, Sig>, p: nat, c: Config)
    ensures HeldFor(Fetched(held, p, Ask(true, true, true), c), p, [c])
  {
    hide Fetched, SigOf, Changed;
    var ask := Ask(true, true, true);
    FetchedKinds(held, p, ask, c);
    forall kind
      ensures SlotKey(p, kind) in Fetched(held, p, ask, c)
      ensures Fetched(held, p, ask, c)[SlotKey(p, kind)] == SigOf(c, kind)
    {
      assert FetchedRight(held, p, ask, c, kind);
    }
    forall kind ensures LastFetch([c], kind) == 0 {
    }
  }

  lemma NextHeld(held: map<SlotKey, Sig>, p: nat, configs: seq<Config>, n: nat)
    requires 1 <= n < |configs| && HeldFor(held, p, configs[..n])
    ensures HeldFor(Fetched(held, p, AskFor(configs[n - 1], configs[n]), configs[n]), p, configs[..n + 1])
  {
    hide Fetched, SigOf, Changed, LastFetch;
    var ask := AskFor(configs[n - 1], configs[n]);
    FetchedKinds(held, p, ask, configs[n]);
    var after := Fetched(held, p, ask, configs[n]);
    forall kind
      ensures SlotKey(p, kind) in after
      ensures after[SlotKey(p, kind)] == SigOf(configs[..n + 1][LastFetch(configs[..n + 1], kind)], kind)
    {
      NextFetch(configs, n, kind);
      assert FetchedRight(held, p, ask, configs[n], kind);
    }
  }

  // A new pipeline and any number of swaps: each slot holds the backend of its last fetch.
  method SwapThrough(server: Server, p: nat, configs: seq<Config>)
    requires server.Valid() && p !in server.configs && configs != []
    modifies server
    ensures server.Valid() && server.configs == old(server.configs)[p := configs[|configs| - 1]]
    ensures forall kind :: HoldsFor(server.World(), SlotKey(p, kind), SigOf(configs[LastFetch(configs, kind)], kind))
  {
    hide Moved, ValidWorld, Fetched, HeldFor, SigOf, Changed, LastFetch, HoldsFor;
    server.Initialize(p, configs[0]);
    FirstHeld(old(server.held), p, configs[0]);
    assert configs[..1] == [configs[0]];
    for n := 1 to |configs|
      invariant server.Valid() && server.configs == old(server.configs)[p := configs[n - 1]]
      invariant HeldFor(server.held, p, configs[..n])
    {
      ghost var before := server.held;
      server.SwapBackends(p, configs[n]);
      NextHeld(before, p, configs, n);
    }
    assert configs[..|configs|] == configs;
    AllHeld(server.World(), server.configs, server.held, p, configs);
  }

  lemma AllHeld(w: World, configs: map<nat, Config>, held: map<SlotKey, Sig>, p: nat, swaps: seq<Config>)
    requires ValidWorld(w, configs, held) && p in configs && swaps != [] && HeldFor(held, p, swaps)
    ensures forall kind :: HoldsFor(w, SlotKey(p, kind), SigOf(swaps[LastFetch(swaps, kind)], kind))
  {
    hide Calm, SigOf, LastFetch;
  }

  lemma NextFetch(configs: seq<Config>, n: nat, kind: Kind)
    requires 1 <= n < |configs|
    ensures LastFetch(configs[..n + 1], kind)
         == if Changed(configs[n - 1], configs[n], kind) then n else LastFetch(configs[..n], kind)
  {
    assert configs[..n + 1][..n] == configs[..n];
  }

  // ----- a pipeline without a pool --------------------------------------------------------------

  // One of its slots: how often each backend it created was shut down, and which one it holds.
  datatype LoneSlot = LoneSlot(shutdowns: seq<nat>, inst: nat, pooled: bool)

  const LONE_INITIALISED: LoneSlot := LoneSlot([0], 0, false)

  function ShutHeld(s: LoneSlot): LoneSlot {
    if s.pooled || s.inst >= |s.shutdowns| then s
    else s.(shutdowns := s.shutdowns[s.inst := s.shutdowns[s.inst] + 1])
  }

  // `swap_backends` with `pool is None`: the flag is flipped all the same.
  function LoneSwap(s: LoneSlot, changed: bool): LoneSlot {
    if !changed then s
    else var t := ShutHeld(s); LoneSlot(t.shutdowns + [0], |t.shutdowns|, true)
  }

  function LoneSwaps(changes: seq<bool>): LoneSlot {
    if changes == [] then LONE_INITIALISED
    else LoneSwap(LoneSwaps(changes[..|changes| - 1]), changes[|changes| - 1])
  }

  // Only the first backend is ever shut down; every later one is taken for the pool's.
  lemma {:induction false} LoneSwapsShape(changes: seq<bool>)
    ensures var s := LoneSwaps(changes);
            && s.inst == |s.shutdowns| - 1
            && s.pooled == (true in changes)
            && (true !in changes ==> s.shutdowns == [0])
            && (true in changes ==> |s.shutdowns| >= 2 && s.shutdowns[0] == 1)
            && (forall i | 0 < i < |s.shutdowns| :: s.shutdowns[i] == 0)
  {
    if changes != [] {
      var n := |changes| - 1;
      LoneSwapsShape(changes[..n]);
      assert changes == changes[..n] + [changes[n]];
    }
  }

  // After initialize, any swaps and shutdown, every backend the slot created has been shut down
  // exactly once if and only if no swap replaced it.
  lemma LoneExactlyOnceIff(changes: seq<bool>)
    ensures (forall i | 0 <= i < |ShutHeld(LoneSwaps(changes)).shutdowns| ::
            ShutHeld(LoneSwaps(changes)).shutdowns[i] == 1)
       <==> true !in changes
  {
    LoneSwapsShape(changes);
    var s := ShutHeld(LoneSwaps(changes));
    if true in changes {
      assert s.shutdowns[|s.shutdowns| - 1] == 0;
    }
  }
}
