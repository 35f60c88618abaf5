/** Audio ingestion: the two capped buffers of a voice pipeline, the latches of their cap events and
    the debounced voice-activity detector. */
module AudioIngest {
  import opened Bytes

  const MAX_AUDIO_BUFFER: nat := 9600000
  const SILENCE_THRESHOLD: nat := 900
  const MIN_SPEECH_FRAMES: nat := 3
  const MIN_AUDIO_BYTES: nat := 4000
  const MIN_SEGMENT_BYTES: nat := 1600

  // Times are in seconds. Of the pipeline's fields, those that ingestion reads or writes.
  datatype State = State(
    audio: seq<byte>, segment: seq<byte>,
    lastVoice: real, speaking: bool, consec: nat,
    dictation: bool, swapping: bool, processing: bool,
    dictationCapEmitted: bool, audioCapEmitted: bool)

  const INITIAL: State := State([], [], 0.0, false, 0, false, false, false, false, false)

  datatype Reason = TooShort | NewRecording | Cancelled | Swapped | DictationOver

  datatype Buffer = Audio | Segment

  datatype Output =
    | Process(bytes: seq<byte>, byVad: bool)      // an utterance goes to _process_utterance
    | Transcribe(bytes: seq<byte>)                // a dictation segment goes to the recogniser
    | Discard(buffer: Buffer, bytes: seq<byte>, reason: Reason)
    | CapEvent(buffer: Buffer)
    | TooShortEvent

  datatype Effect = Effect(state: State, accepted: seq<byte>, outputs: seq<Output>)

  // ----- the detector -----------------------------------------------------------------------------

  // A little-endian int16 sample.
  function Sample(low: byte, high: byte): int {
    var v := low + 256 * high;
    if v < 32768 then v else v - 65536
  }

  function Energy(chunk: seq<byte>): nat {
    if |chunk| < 2 then 0 else Sample(chunk[0], chunk[1]) * Sample(chunk[0], chunk[1]) + Energy(chunk[2..])
  }

  // The root mean square of the samples is above the threshold.
  predicate Loud(chunk: seq<byte>) {
    Energy(chunk) > SILENCE_THRESHOLD * SILENCE_THRESHOLD * (|chunk| / 2)
  }

  // A chunk of odd length makes the conversion to samples raise, an empty one ends the method.
  predicate Analysed(chunk: seq<byte>) { |chunk| > 0 && |chunk| % 2 == 0 }

  // ----- the operations ---------------------------------------------------------------------------

  function Dropped(b: Buffer, bytes: seq<byte>, reason: Reason): seq<Output> {
    if bytes == [] then [] else [Discard(b, bytes, reason)]
  }

  function FreshLatches(s: State): State {
    if s.audio == [] && s.segment == [] then s.(dictationCapEmitted := false, audioCapEmitted := false) else s
  }

  function FeedSegment(s: State, chunk: seq<byte>): Effect {
    if |s.segment| + |chunk| > MAX_AUDIO_BUFFER then
      Effect(s.(dictationCapEmitted := true), [], if s.dictationCapEmitted then [] else [CapEvent(Segment)])
    else Effect(s.(segment := s.segment + chunk), chunk, [])
  }

  function FeedAudio(s: State, chunk: seq<byte>, now: real, vad: bool, silenceMs: nat): Effect {
    if |s.audio| + |chunk| > MAX_AUDIO_BUFFER then
      Effect(s.(audioCapEmitted := true), [], if s.audioCapEmitted then [] else [CapEvent(Audio)])
    else
      var t := s.(audio := s.audio + chunk);
      if !vad || !Analysed(chunk) then Effect(t, chunk, []) else Detect(t, chunk, now, silenceMs)
  }

  function Detect(s: State, chunk: seq<byte>, now: real, silenceMs: nat): Effect {
    if Loud(chunk) then
      var heard := s.(consec := s.consec + 1);
      Effect(if heard.consec >= MIN_SPEECH_FRAMES then heard.(speaking := true, lastVoice := now) else heard, chunk, [])
    else if s.speaking && (now - s.lastVoice) * 1000.0 >= silenceMs as real then
      Effect(s.(audio := [], speaking := false, consec := 0), chunk, [Process(s.audio, true)])
    else Effect(s.(consec := 0), chunk, [])
  }

  function Feed(s: State, chunk: seq<byte>, now: real, vad: bool, silenceMs: nat): Effect {
    if s.swapping then Effect(s, [], [])
    else if s.dictation then FeedSegment(FreshLatches(s), chunk)
    else if s.processing then Effect(FreshLatches(s), [], [])
    else FeedAudio(FreshLatches(s), chunk, now, vad, silenceMs)
  }

  function Stop(s: State): Effect {
    if s.processing then Effect(s, [], [])
    else if |s.audio| < MIN_AUDIO_BYTES then
      Effect(s.(audio := []), [], Dropped(Audio, s.audio, TooShort) + if s.audio == [] then [] else [TooShortEvent])
    else Effect(s.(audio := [], speaking := false, consec := 0), [], [Process(s.audio, false)])
  }

  function Cancel(s: State): Effect {
    Effect(s.(audio := [], segment := [], processing := false, dictationCapEmitted := false, audioCapEmitted := false),
           [], Dropped(Audio, s.audio, Cancelled) + Dropped(Segment, s.segment, Cancelled))
  }

  function StartCommand(s: State, dictate: bool): Effect {
    Effect(s.(audio := [], segment := if dictate then [] else s.segment, dictation := dictate), [],
           Dropped(Audio, s.audio, NewRecording) + if dictate then Dropped(Segment, s.segment, NewRecording) else [])
  }

  function SegmentOut(s: State): seq<Output> {
    if |s.segment| < MIN_SEGMENT_BYTES then Dropped(Segment, s.segment, TooShort) else [Transcribe(s.segment)]
  }

  function ProcessSegment(s: State): Effect { Effect(s.(segment := []), [], SegmentOut(s)) }

  function FinishDictation(s: State): Effect {
    Effect(s.(segment := [], audio := [], dictation := false), [],
           SegmentOut(s) + Dropped(Audio, s.audio, DictationOver))
  }

  // swap_backends after it has cancelled what was running.
  function SwapClears(s: State): Effect {
    Effect(s.(audio := [], segment := [], speaking := false), [],
           Dropped(Audio, s.audio, Swapped) + Dropped(Segment, s.segment, Swapped))
  }

  datatype Step =
    | Fed(chunk: seq<byte>, now: real, vad: bool, silenceMs: nat)
    | Stopped
    | CancelDone
    | Started(dictate: bool)
    | SegmentMarked
    | DictationFinished
    | SwapBegan
    | SwapCleared
    | SwapEnded
    | ProcessingBegan
    | ProcessingEnded

  function Run(s: State, step: Step): Effect {
    match step
    case Fed(chunk, now, vad, silenceMs) => Feed(s, chunk, now, vad, silenceMs)
    case Stopped => Stop(s)
    case CancelDone => Cancel(s)
    case Started(dictate) => StartCommand(s, dictate)
    case SegmentMarked => ProcessSegment(s)
    case DictationFinished => FinishDictation(s)
    case SwapBegan => Effect(s.(swapping := true), [], [])
    case SwapCleared => SwapClears(s)
    case SwapEnded => Effect(s.(swapping := false), [], [])
    case ProcessingBegan => Effect(s.(processing := true), [], [])
    case ProcessingEnded => Effect(s.(processing := false), [], [])
  }

  // The pipeline object itself; its methods are the operations above.
  class Pipeline {
    var audioBuffer: seq<byte>
    var segmentBuffer: seq<byte>
    var lastVoiceTime: real
    var isSpeaking: bool
    var consecVoiceFrames: nat
    var dictationMode: bool
    var swapping: bool
    var processing: bool
    var dictationCapEmitted: bool
    var audioCapEmitted: bool

    ghost function Now(): State
      reads this
    {
      State(audioBuffer, segmentBuffer, lastVoiceTime, isSpeaking, consecVoiceFrames, dictationMode,
            swapping, processing, dictationCapEmitted, audioCapEmitted)
    }

    constructor ()
      ensures Now() == INITIAL
    {
      audioBuffer, segmentBuffer, lastVoiceTime, isSpeaking, consecVoiceFrames := [], [], 0.0, false, 0;
      dictationMode, swapping, processing, dictationCapEmitted, audioCapEmitted := false, false, false, false, false;
    }

    method FeedChunk(chunk: seq<byte>, now: real, vadEnabled: bool, vadSilenceMs: nat)
      returns (outputs: seq<Output>, ghost accepted: seq<byte>)
      modifies this
      ensures Effect(Now(), accepted, outputs) == Feed(old(Now()), chunk, now, vadEnabled, vadSilenceMs)
    {
      hide Detect;
      outputs, accepted := [], [];
      if swapping {
        return;
      }
      if audioBuffer == [] && segmentBuffer == [] {
        dictationCapEmitted := false;
        audioCapEmitted := false;
      }
      if dictationMode {
        if |segmentBuffer| + |chunk| > MAX_AUDIO_BUFFER {
          if !dictationCapEmitted {
            dictationCapEmitted := true;
            outputs := [CapEvent(Segment)];
          }
          return;
        }
        segmentBuffer, accepted := segmentBuffer + chunk, chunk;
        return;
      }
      if processing {
        return;
      }
      if |audioBuffer| + |chunk| > MAX_AUDIO_BUFFER {
        if !audioCapEmitted {
          audioCapEmitted := true;
          outputs := [CapEvent(Audio)];
        }
        return;
      }
      audioBuffer, accepted := audioBuffer + chunk, chunk;
      if !vadEnabled || |chunk| % 2 != 0 || |chunk| == 0 {
        return;
      }
      outputs := DetectSpeech(chunk, now, vadSilenceMs);
    }

    // The detector at the end of feed_audio, on a chunk that is already buffered.
    method DetectSpeech(chunk: seq<byte>, now: real, vadSilenceMs: nat) returns (outputs: seq<Output>)
      modifies this
      ensures Effect(Now(), chunk, outputs) == Detect(old(Now()), chunk, now, vadSilenceMs)
    {
      hide Loud, Energy;
      outputs := [];
      var loud := Loud(chunk);
      if loud {
        consecVoiceFrames := consecVoiceFrames + 1;
        if consecVoiceFrames >= MIN_SPEECH_FRAMES {
          isSpeaking := true;
          lastVoiceTime := now;
        }
      } else {
        consecVoiceFrames := 0;
      }
      if !loud && isSpeaking {
        var silenceMs := (now - lastVoiceTime) * 1000.0;
        if silenceMs >= vadSilenceMs as real {
          isSpeaking := false;
          consecVoiceFrames := 0;
          outputs := [Process(audioBuffer, true)];
          audioBuffer := [];
        }
      }
    }

    method StartProcessing() returns (outputs: seq<Output>)
      modifies this
      ensures Effect(Now(), [], outputs) == Stop(old(Now()))
    {
      outputs := [];
      if processing {
        return;
      }
      if |audioBuffer| < MIN_AUDIO_BYTES {
        if |audioBuffer| > 0 {
          outputs := [Discard(Audio, audioBuffer, TooShort), TooShortEvent];
        }
        audioBuffer := [];
        return;
      }
      outputs := [Process(audioBuffer, false)];
      audioBuffer := [];
      isSpeaking := false;
      consecVoiceFrames := 0;
    }

    // cancel(), once the tasks it awaits are over.
    method FinishCancel() returns (outputs: seq<Output>)
      modifies this
      ensures Effect(Now(), [], outputs) == Cancel(old(Now()))
    {
      outputs := Drop(Audio, audioBuffer, Cancelled);
      var more := Drop(Segment, segmentBuffer, Cancelled);
      outputs := outputs + more;
      processing := false;
      audioBuffer, segmentBuffer := [], [];
      dictationCapEmitted := false;
      audioCapEmitted := false;
    }

    method HandleStart(dictate: bool) returns (outputs: seq<Output>)
      modifies this
      ensures Effect(Now(), [], outputs) == StartCommand(old(Now()), dictate)
    {
      outputs := Drop(Audio, audioBuffer, NewRecording);
      audioBuffer := [];
      dictationMode := dictate;
      if dictate {
        var more := Drop(Segment, segmentBuffer, NewRecording);
        outputs := outputs + more;
        segmentBuffer := [];
      } else {
        assert outputs == outputs + [];
      }
    }

    method TakeSegment() returns (outputs: seq<Output>)
      modifies this
      ensures Effect(Now(), [], outputs) == ProcessSegment(old(Now()))
    {
      if |segmentBuffer| < MIN_SEGMENT_BYTES {
        outputs := Drop(Segment, segmentBuffer, TooShort);
      } else {
        outputs := [Transcribe(segmentBuffer)];
      }
      segmentBuffer := [];
    }

    method EndDictation() returns (outputs: seq<Output>)
      modifies this
      ensures Effect(Now(), [], outputs) == FinishDictation(old(Now()))
    {
      outputs := TakeSegment();
      var more := Drop(Audio, audioBuffer, DictationOver);
      outputs := outputs + more;
      audioBuffer := [];
      dictationMode := false;
    }
  }

  method Drop(b: Buffer, bytes: seq<byte>, reason: Reason) returns (outputs: seq<Output>)
    ensures outputs == Dropped(b, bytes, reason)
  {
    outputs := if bytes == [] then [] else [Discard(b, bytes, reason)];
  }

  // ----- every run --------------------------------------------------------------------------------

  function Final(s: State, steps: seq<Step>): State
    decreases |steps|
  {
    if steps == [] then s else Final(Run(s, steps[0]).state, steps[1..])
  }

  predicate WithinCaps(s: State) { |s.audio| <= MAX_AUDIO_BUFFER && |s.segment| <= MAX_AUDIO_BUFFER }

  lemma {:induction false} CapsHold(s: State, steps: seq<Step>)
    requires WithinCaps(s)
    ensures WithinCaps(Final(s, steps))
    decreases |steps|
  {
    hide Run, WithinCaps;
    if steps != [] {
      StepWithinCaps(s, steps[0]);
      CapsHold(Run(s, steps[0]).state, steps[1..]);
    }
  }

  lemma StepWithinCaps(s: State, step: Step)
    requires WithinCaps(s)
    ensures WithinCaps(Run(s, step).state)
  {
    hide Loud, Dropped, SegmentOut;
  }

  function BytesOf(o: Output, b: Buffer): seq<byte> {
    match o
    case Process(bytes, _) => if b == Audio then bytes else []
    case Transcribe(bytes) => if b == Segment then bytes else []
    case Discard(from, bytes, _) => if b == from then bytes else []
    case _ => []
  }

  // What left a buffer, for processing or under a named discard, in order.
  function Released(outputs: seq<Output>, b: Buffer): seq<byte> {
    if outputs == [] then [] else BytesOf(outputs[0], b) + Released(outputs[1..], b)
  }

  function Held(s: State, b: Buffer): seq<byte> { if b == Audio then s.audio else s.segment }

  function Accepted(s: State, step: Step, b: Buffer): seq<byte> {
    if (b == Segment) == s.dictation then Run(s, step).accepted else []
  }

  lemma {:induction false} ReleasedAppend(x: seq<Output>, y: seq<Output>, b: Buffer)
    ensures Released(x + y, b) == Released(x, b) + Released(y, b)
  {
    if x == [] {
      assert x + y == y;
    } else {
      assert (x + y)[1..] == x[1..] + y;
      ReleasedAppend(x[1..], y, b);
    }
  }

  lemma ReleasedDropped(bytes: seq<byte>, from: Buffer, reason: Reason, b: Buffer)
    ensures Released(Dropped(from, bytes, reason), b) == if b == from then bytes else []
  {
    ReleasedOne(Discard(from, bytes, reason), b);
  }

  lemma ReleasedOne(o: Output, b: Buffer)
    ensures Released([o], b) == BytesOf(o, b)
  {
    assert [o][1..] == [];
    assert Released([o][1..], b) == [];
  }

  ghost predicate Conserves(s: State, accepted: seq<byte>, e: Effect, b: Buffer) {
    Held(s, b) + accepted == Released(e.outputs, b) + Held(e.state, b)
  }

  lemma SegmentFeedConserves(s: State, chunk: seq<byte>, b: Buffer)
    ensures Conserves(s, if b == Segment then FeedSegment(s, chunk).accepted else [], FeedSegment(s, chunk), b)
  {
    ReleasedOne(CapEvent(Segment), b);
    ReleasedNone(b);
    Nothing(Held(s, b));
  }

  lemma AudioFeedConserves(s: State, chunk: seq<byte>, now: real, vad: bool, silenceMs: nat, b: Buffer)
    ensures var e := FeedAudio(s, chunk, now, vad, silenceMs);
            Conserves(s, if b == Audio then e.accepted else [], e, b)
  {
    hide Analysed, Released, Detect;
    ReleasedOne(CapEvent(Audio), b);
    ReleasedNone(b);
    Nothing(Held(s, b));
    DetectConserves(s.(audio := s.audio + chunk), chunk, now, silenceMs, b);
  }

  lemma DetectConserves(s: State, chunk: seq<byte>, now: real, silenceMs: nat, b: Buffer)
    ensures var e := Detect(s, chunk, now, silenceMs);
            e.accepted == chunk && Held(s, b) == Released(e.outputs, b) + Held(e.state, b)
  {
    hide Loud, Released;
    ReleasedOne(Process(s.audio, true), b);
    ReleasedNone(b);
    Nothing(Held(s, b));
  }

  lemma ReleasedNone(b: Buffer)
    ensures Released([], b) == []
  {
  }

  lemma Nothing(bytes: seq<byte>)
    ensures bytes + [] == bytes && [] + bytes == bytes
  {
  }

  lemma FeedConserves(s: State, step: Step, b: Buffer)
    requires step.Fed?
    ensures Conserves(s, Accepted(s, step, b), Run(s, step), b)
  {
    hide Released, FeedSegment, FeedAudio;
    SegmentFeedConserves(FreshLatches(s), step.chunk, b);
    AudioFeedConserves(FreshLatches(s), step.chunk, step.now, step.vad, step.silenceMs, b);
    ReleasedNone(b);
    Nothing(Held(s, b));
  }

  lemma StopConserves(s: State, b: Buffer)
    ensures Conserves(s, [], Stop(s), b)
  {
    hide Released, Dropped;
    ReleasedDropped(s.audio, Audio, TooShort, b);
    ReleasedAppend(Dropped(Audio, s.audio, TooShort), if s.audio == [] then [] else [TooShortEvent], b);
    ReleasedOne(TooShortEvent, b);
    ReleasedOne(Process(s.audio, false), b);
    ReleasedNone(b);
    Nothing(Held(s, b));
  }

  lemma ClearConserves(s: State, step: Step, b: Buffer)
    requires !step.Fed? && !step.Stopped?
    ensures Conserves(s, Accepted(s, step, b), Run(s, step), b)
  {
    hide Released, Dropped, SegmentOut;
    Nothing(Held(s, b));
    match step
    case CancelDone => TwoDropped(s.audio, s.segment, Cancelled, b);
    case Started(dictate) =>
      TwoDropped(s.audio, s.segment, NewRecording, b);
      ReleasedDropped(s.audio, Audio, NewRecording, b);
      assert Dropped(Audio, s.audio, NewRecording) + [] == Dropped(Audio, s.audio, NewRecording);
    case SegmentMarked => SegmentReleased(s, b);
    case DictationFinished =>
      SegmentReleased(s, b);
      ReleasedDropped(s.audio, Audio, DictationOver, b);
      ReleasedAppend(SegmentOut(s), Dropped(Audio, s.audio, DictationOver), b);
    case SwapCleared => TwoDropped(s.audio, s.segment, Swapped, b);
    case _ => ReleasedNone(b);
  }

  lemma StepConserves(s: State, step: Step, b: Buffer)
    ensures Conserves(s, Accepted(s, step, b), Run(s, step), b)
  {
    hide Conserves, Accepted, Stop;
    match step
    case Fed(_, _, _, _) => FeedConserves(s, step, b);
    case Stopped => StopConserves(s, b); NothingAccepted(s, b);
    case _ => ClearConserves(s, step, b);
  }

  lemma StepConserved(s: State, step: Step, b: Buffer)
    requires Conserves(s, Accepted(s, step, b), Run(s, step), b)
    ensures Held(s, b) + Accepted(s, step, b) == Released(Run(s, step).outputs, b) + Held(Run(s, step).state, b)
  {
  }

  lemma NothingAccepted(s: State, b: Buffer)
    ensures Accepted(s, Stopped, b) == []
  {
  }

  lemma TwoDropped(audio: seq<byte>, segment: seq<byte>, reason: Reason, b: Buffer)
    ensures Released(Dropped(Audio, audio, reason) + Dropped(Segment, segment, reason), b)
         == if b == Audio then audio else segment
  {
    ReleasedAppend(Dropped(Audio, audio, reason), Dropped(Segment, segment, reason), b);
    ReleasedDropped(audio, Audio, reason, b);
    ReleasedDropped(segment, Segment, reason, b);
  }

  lemma SegmentReleased(s: State, b: Buffer)
    ensures Released(SegmentOut(s), b) == if b == Segment then s.segment else []
  {
    ReleasedDropped(s.segment, Segment, TooShort, b);
    ReleasedOne(Transcribe(s.segment), b);
  }

  function AcceptedIn(s: State, steps: seq<Step>, b: Buffer): seq<byte>
    decreases |steps|
  {
    if steps == [] then []
    else Accepted(s, steps[0], b) + AcceptedIn(Run(s, steps[0]).state, steps[1..], b)
  }

  function Outputs(s: State, steps: seq<Step>): seq<Output>
    decreases |steps|
  {
    if steps == [] then [] else Run(s, steps[0]).outputs + Outputs(Run(s, steps[0]).state, steps[1..])
  }

  // No audio is lost, doubled or reordered: over every run, what a buffer held and accepted is
  // what was handed on or discarded by name, followed by what it still holds.
  lemma {:induction false} AudioConserved(s: State, steps: seq<Step>, b: Buffer)
    ensures Held(s, b) + AcceptedIn(s, steps, b) == Released(Outputs(s, steps), b) + Held(Final(s, steps), b)
    decreases |steps|
  {
    hide Run, Held, Accepted, Released, Conserves;
    if steps == [] {
      ReleasedNone(b);
      Nothing(Held(s, b));
    } else {
      var e := Run(s, steps[0]);
      var rest := Outputs(e.state, steps[1..]);
      StepConserves(s, steps[0], b);
      StepConserved(s, steps[0], b);
      AudioConserved(e.state, steps[1..], b);
      ReleasedAppend(e.outputs, rest, b);
      LedgerChains(Held(s, b), Accepted(s, steps[0], b), Released(e.outputs, b), Held(e.state, b),
                   AcceptedIn(e.state, steps[1..], b), Released(rest, b), Held(Final(e.state, steps[1..]), b));
    }
  }

  lemma LedgerChains(held: seq<byte>, accepted: seq<byte>, released: seq<byte>, mid: seq<byte>,
                     more: seq<byte>, later: seq<byte>, final: seq<byte>)
    requires held + accepted == released + mid && mid + more == later + final
    ensures held + (accepted + more) == (released + later) + final
  {
    calc {
      held + (accepted + more);
      (held + accepted) + more;
      released + (mid + more);
      (released + later) + final;
    }
  }

  // ----- the cap events ---------------------------------------------------------------------------

  function CapEvents(outputs: seq<Output>, b: Buffer): nat {
    if outputs == [] then 0 else (if outputs[0] == CapEvent(b) then 1 else 0) + CapEvents(outputs[1..], b)
  }

  predicate BothEmpty(s: State) { s.audio == [] && s.segment == [] }

  // No state of the run, the last one apart, has both buffers empty.
  ghost predicate NeverBothEmpty(s: State, steps: seq<Step>)
    decreases |steps|
  {
    steps == [] || (!BothEmpty(s) && NeverBothEmpty(Run(s, steps[0]).state, steps[1..]))
  }

  function Latch(s: State, b: Buffer): bool { if b == Audio then s.audioCapEmitted else s.dictationCapEmitted }

  lemma {:induction false} CapEventsAppend(x: seq<Output>, y: seq<Output>, b: Buffer)
    ensures CapEvents(x + y, b) == CapEvents(x, b) + CapEvents(y, b)
  {
    if x == [] {
      assert x + y == y;
    } else {
      assert (x + y)[1..] == x[1..] + y;
      CapEventsAppend(x[1..], y, b);
    }
  }

  // A chunk is dropped because its buffer would exceed five minutes of 16 kHz audio.
  predicate Overflows(s: State, step: Step, b: Buffer) {
    && step.Fed? && !s.swapping
    && if b == Segment then s.dictation && |s.segment| + |step.chunk| > 5 * 60 * 16000 * 2
       else !s.dictation && !s.processing && |s.audio| + |step.chunk| > 5 * 60 * 16000 * 2
  }

  predicate OverflowsIn(s: State, steps: seq<Step>, b: Buffer)
    decreases |steps|
  {
    steps != [] && (Overflows(s, steps[0], b) || OverflowsIn(Run(s, steps[0]).state, steps[1..], b))
  }

  lemma StepLatches(s: State, step: Step, b: Buffer)
    requires !BothEmpty(s)
    ensures var e := Run(s, step);
            && CapEvents(e.outputs, b) == (if !Latch(s, b) && Overflows(s, step, b) then 1 else 0)
            && (!BothEmpty(e.state) ==> (Latch(e.state, b) <==> Latch(s, b) || Overflows(s, step, b)))
  {
    hide Loud, Analysed, CapEvents;
    NoCapEvents(b);
    var e := Run(s, step);
    match step
    case Fed(_, _, _, _) =>
      if e.outputs != [] {
        CapEventsOne(e.outputs[0], b);
      }
    case _ => OthersSendNone(s, step, b);
  }

  lemma CapEventsOne(o: Output, b: Buffer)
    ensures CapEvents([o], b) == if o == CapEvent(b) then 1 else 0
  {
    assert CapEvents([o][1..], b) == 0;
  }

  lemma DroppedSendsNone(bytes: seq<byte>, from: Buffer, reason: Reason, b: Buffer)
    ensures CapEvents(Dropped(from, bytes, reason), b) == 0
  {
    CapEventsOne(Discard(from, bytes, reason), b);
  }

  lemma SegmentSendsNone(s: State, b: Buffer)
    ensures CapEvents(SegmentOut(s), b) == 0
  {
    DroppedSendsNone(s.segment, Segment, TooShort, b);
    CapEventsOne(Transcribe(s.segment), b);
  }

  lemma TwoSendNone(x: seq<Output>, y: seq<Output>, b: Buffer)
    requires CapEvents(x, b) == 0 && CapEvents(y, b) == 0
    ensures CapEvents(x + y, b) == 0
  {
    CapEventsAppend(x, y, b);
  }

  lemma OthersSendNone(s: State, step: Step, b: Buffer)
    requires !step.Fed?
    ensures CapEvents(Run(s, step).outputs, b) == 0
  {
    hide CapEvents, Dropped, SegmentOut;
    NoCapEvents(b);
    forall reason: Reason, from: Buffer, bytes: seq<byte> ensures CapEvents(Dropped(from, bytes, reason), b) == 0 {
      DroppedSendsNone(bytes, from, reason, b);
    }
    SegmentSendsNone(s, b);
    match step
    case Stopped =>
      CapEventsOne(TooShortEvent, b);
      CapEventsOne(Process(s.audio, false), b);
      TwoSendNone(Dropped(Audio, s.audio, TooShort), if s.audio == [] then [] else [TooShortEvent], b);
    case CancelDone => TwoSendNone(Dropped(Audio, s.audio, Cancelled), Dropped(Segment, s.segment, Cancelled), b);
    case Started(dictate) =>
      TwoSendNone(Dropped(Audio, s.audio, NewRecording),
                  if dictate then Dropped(Segment, s.segment, NewRecording) else [], b);
    case DictationFinished => TwoSendNone(SegmentOut(s), Dropped(Audio, s.audio, DictationOver), b);
    case SwapCleared => TwoSendNone(Dropped(Audio, s.audio, Swapped), Dropped(Segment, s.segment, Swapped), b);
    case _ =>
  }

  // Between two moments at which both buffers are empty, a cap event is sent exactly once if a chunk
  // is dropped for it and its latch was not set before, and otherwise not at all.
  lemma {:induction false} CapEventOncePerFill(s: State, steps: seq<Step>, b: Buffer)
    requires NeverBothEmpty(s, steps)
    ensures CapEvents(Outputs(s, steps), b) == if !Latch(s, b) && OverflowsIn(s, steps, b) then 1 else 0
    decreases |steps|
  {
    if steps != [] {
      hide Run, Latch, BothEmpty, CapEvents, Overflows;
      var e := Run(s, steps[0]);
      StepLatches(s, steps[0], b);
      CapEventsAppend(e.outputs, Outputs(e.state, steps[1..]), b);
      if steps[1..] == [] {
        NoCapEvents(b);
      } else {
        CapEventOncePerFill(e.state, steps[1..], b);
      }
    } else {
      NoCapEvents(b);
    }
  }

  // The first chunk after such a moment makes the events due again, whatever was sent before it.
  lemma CapEventAgainAfterEmpty(s: State, steps: seq<Step>, b: Buffer)
    requires BothEmpty(s) && !s.swapping && steps != [] && steps[0].Fed?
    requires NeverBothEmpty(Run(s, steps[0]).state, steps[1..])
    ensures CapEvents(Outputs(s, steps), b) == if OverflowsIn(s, steps, b) then 1 else 0
  {
    hide Run, CapEvents, Overflows, Latch;
    var e := Run(s, steps[0]);
    FirstLatches(s, steps[0], b);
    CapEventsAppend(e.outputs, Outputs(e.state, steps[1..]), b);
    CapEventOncePerFill(e.state, steps[1..], b);
    if steps[1..] == [] {
      NoCapEvents(b);
    }
  }

  lemma FirstLatches(s: State, step: Step, b: Buffer)
    requires BothEmpty(s) && !s.swapping && step.Fed?
    ensures var e := Run(s, step);
            && CapEvents(e.outputs, b) == (if Overflows(s, step, b) then 1 else 0)
            && (Latch(e.state, b) <==> Overflows(s, step, b))
  {
    hide Loud, Analysed, CapEvents;
    NoCapEvents(b);
    var e := Run(s, step);
    if e.outputs != [] {
      CapEventsOne(e.outputs[0], b);
    }
  }

  lemma NoCapEvents(b: Buffer)
    ensures CapEvents([], b) == 0
  {
  }

  // ----- what is accepted and handed on -----------------------------------------------------------

  // When a chunk is kept and where, and when audio goes on, with the limits in bytes.
  lemma StepHandsOn(s: State, step: Step)
    ensures var e := Run(s, step);
            step.Fed? ==>
              e.accepted == if s.swapping || Overflows(s, step, Segment) || Overflows(s, step, Audio)
                               || (s.processing && !s.dictation) then []
                            else step.chunk
    ensures var e := Run(s, step);
            step.Stopped? ==>
              e.outputs == if s.processing || s.audio == [] then []
                           else if |s.audio| < 4000 then [Discard(Audio, s.audio, TooShort), TooShortEvent]
                           else [Process(s.audio, false)]
    ensures step.SegmentMarked? || step.DictationFinished? ==>
              (Transcribe(s.segment) in Run(s, step).outputs <==> |s.segment| >= 1600)
    ensures !step.Fed? && !step.Stopped? ==> forall o | o in Run(s, step).outputs :: !o.Process?
  {
    hide Loud;
  }

  // The pipeline's modes, as the commands of a run set them.
  datatype Modes = Modes(dictation: bool, swapping: bool, processing: bool)

  function ModesOf(s: State): Modes { Modes(s.dictation, s.swapping, s.processing) }

  function ModesNext(m: Modes, step: Step): Modes {
    match step
    case Started(dictate) => m.(dictation := dictate)
    case DictationFinished => m.(dictation := false)
    case SwapBegan => m.(swapping := true)
    case SwapEnded => m.(swapping := false)
    case ProcessingBegan => m.(processing := true)
    case ProcessingEnded => m.(processing := false)
    case CancelDone => m.(processing := false)
    case _ => m
  }

  function ModesAfter(m: Modes, steps: seq<Step>): Modes
    decreases |steps|
  {
    if steps == [] then m else ModesAfter(ModesNext(m, steps[0]), steps[1..])
  }

  lemma ModesStep(s: State, step: Step)
    ensures ModesOf(Run(s, step).state) == ModesNext(ModesOf(s), step)
  {
    hide Loud, Dropped, SegmentOut;
  }

  // Feeding, stopping, segments and the swap's clearing change no mode.
  lemma {:induction false} ModesFollow(s: State, steps: seq<Step>)
    ensures ModesOf(Final(s, steps)) == ModesAfter(ModesOf(s), steps)
    decreases |steps|
  {
    hide Run, ModesOf, ModesNext;
    if steps != [] {
      ModesStep(s, steps[0]);
      ModesFollow(Run(s, steps[0]).state, steps[1..]);
    }
  }

  // ----- when an utterance ends -------------------------------------------------------------------

  // What the detector has been given: the analysed chunks with their times, and where a swap silenced it.
  datatype Mark = Heard(loud: bool, at: real) | Muted

  // A chunk that reaches the detector.
  predicate Seen(s: State, step: Step) {
    && step.Fed? && !s.swapping && !s.dictation && !s.processing && !Overflows(s, step, Audio)
    && step.vad && |step.chunk| > 0 && |step.chunk| % 2 == 0
  }

  // The marks since the last utterance went on.
  function MarksAfter(s: State, marks: seq<Mark>, step: Step): seq<Mark> {
    if exists o :: o in Run(s, step).outputs && o.Process? then []
    else if Seen(s, step) then marks + [Heard(Loud(step.chunk), step.now)]
    else if step.SwapCleared? then marks + [Muted]
    else marks
  }

  function Marks(s: State, marks: seq<Mark>, steps: seq<Step>): seq<Mark>
    decreases |steps|
  {
    if steps == [] then marks else Marks(Run(s, steps[0]).state, MarksAfter(s, marks, steps[0]), steps[1..])
  }

  // How many loud chunks came last, without a silent one between them.
  function Row(marks: seq<Mark>): nat {
    if marks == [] then 0
    else
      var last := marks[|marks| - 1];
      if last.Muted? then Row(marks[..|marks| - 1])
      else if last.loud then Row(marks[..|marks| - 1]) + 1
      else 0
  }

  // A loud chunk that is the third or a later one of its row.
  predicate VoiceAt(marks: seq<Mark>, i: nat) {
    i < |marks| && marks[i].Heard? && marks[i].loud && Row(marks[..i + 1]) >= 3
  }

  ghost predicate LastVoiceAt(marks: seq<Mark>, i: nat) {
    VoiceAt(marks, i) && forall k | i < k < |marks| :: !VoiceAt(marks, k)
  }

  // The last such chunk, with no swap since.
  ghost predicate SpeakingSince(marks: seq<Mark>, i: nat) {
    LastVoiceAt(marks, i) && forall k | i < k < |marks| :: marks[k].Heard?
  }

  ghost predicate Tracks(s: State, marks: seq<Mark>) {
    && s.consec == Row(marks)
    && (s.speaking <==> exists i :: 0 <= i < |marks| && SpeakingSince(marks, i))
    && (forall i | 0 <= i < |marks| && LastVoiceAt(marks, i) :: s.lastVoice == marks[i].at)
  }

  lemma NewMark(marks: seq<Mark>, m: Mark)
    ensures var more, n := marks + [m], |marks|;
            && Row(more) == (if m.Muted? then Row(marks) else if m.loud then Row(marks) + 1 else 0)
            && (VoiceAt(more, n) <==> m.Heard? && m.loud && Row(more) >= 3)
            && (forall i | 0 <= i < n :: VoiceAt(more, i) == VoiceAt(marks, i))
            && (LastVoiceAt(more, n) == VoiceAt(more, n))
            && (forall i | 0 <= i < n :: LastVoiceAt(more, i) <==> LastVoiceAt(marks, i) && !VoiceAt(more, n))
            && (SpeakingSince(more, n) == VoiceAt(more, n))
            && (forall i | 0 <= i < n ::
               SpeakingSince(more, i) <==> SpeakingSince(marks, i) && !VoiceAt(more, n) && m.Heard?)
  {
    RowOfNew(marks, m);
    VoicesOfNew(marks, m);
    hide Row, VoiceAt;
    var more, n := marks + [m], |marks|;
    assert more[n] == m && forall i | 0 <= i < n :: more[i] == marks[i];
  }

  lemma RowOfNew(marks: seq<Mark>, m: Mark)
    ensures Row(marks + [m]) == if m.Muted? then Row(marks) else if m.loud then Row(marks) + 1 else 0
  {
    assert (marks + [m])[..|marks|] == marks;
  }

  lemma VoicesOfNew(marks: seq<Mark>, m: Mark)
    ensures var more, n := marks + [m], |marks|;
            && (VoiceAt(more, n) <==> m.Heard? && m.loud && Row(more) >= 3)
            && (forall i | 0 <= i < n :: VoiceAt(more, i) == VoiceAt(marks, i))
  {
    hide Row;
    var more, n := marks + [m], |marks|;
    assert more[..n + 1] == more;
    forall i | 0 <= i < n ensures VoiceAt(more, i) == VoiceAt(marks, i) {
      assert more[..i + 1] == marks[..i + 1];
    }
  }

  lemma MarkTracks(s: State, marks: seq<Mark>, m: Mark, t: State)
    requires Tracks(s, marks)
    requires t.consec == (if m.Muted? then s.consec else if m.loud then s.consec + 1 else 0)
    requires t.speaking == if m.Muted? then false else s.speaking || (m.loud && s.consec + 1 >= 3)
    requires t.lastVoice == if m.Heard? && m.loud && s.consec + 1 >= 3 then m.at else s.lastVoice
    ensures Tracks(t, marks + [m])
  {
    hide Row, VoiceAt, LastVoiceAt, SpeakingSince;
    var more, n := marks + [m], |marks|;
    NewMark(marks, m);
    LastVoiceHeard(more);
    if VoiceAt(more, n) {
      assert SpeakingSince(more, n);
    } else if m.Heard? && s.speaking {
      var i :| 0 <= i < |marks| && SpeakingSince(marks, i);
      assert SpeakingSince(more, i);
    }
    forall i | 0 <= i < |more| && more[i].Heard? && LastVoiceAt(more, i) ensures t.lastVoice == more[i].at {
      assert i < n ==> LastVoiceAt(marks, i);
    }
  }

  lemma LastVoiceHeard(marks: seq<Mark>)
    ensures forall i | 0 <= i < |marks| && LastVoiceAt(marks, i) :: marks[i].Heard?
  {
  }

  // A silent chunk ends the utterance exactly when the detector speaks and the silence since its last
  // voice is long enough.
  ghost predicate EndsUtterance(s: State, marks: seq<Mark>, step: Step) {
    && Seen(s, step) && !Loud(step.chunk)
    && exists i :: 0 <= i < |marks| && SpeakingSince(marks, i)
                   && (step.now - marks[i].at) * 1000.0 >= step.silenceMs as real
  }

  lemma SeenTracks(s: State, marks: seq<Mark>, step: Step)
    requires Tracks(s, marks) && Seen(s, step)
    ensures Tracks(Run(s, step).state, MarksAfter(s, marks, step))
    ensures EndsUtterance(s, marks, step) <==> Run(s, step).outputs == [Process(s.audio + step.chunk, true)]
    ensures !EndsUtterance(s, marks, step) ==> Run(s, step).outputs == []
  {
    hide Loud, Row, VoiceAt, Tracks, SpeakingSince;
    var e := Run(s, step);
    SilenceSince(s, marks, step);
    if e.outputs == [] {
      MarkTracks(s, marks, Heard(Loud(step.chunk), step.now), e.state);
    } else {
      assert e.outputs[0] in e.outputs && e.outputs[0].Process?;
      NothingTracks(e.state);
    }
  }

  lemma NothingTracks(s: State)
    requires s.consec == 0 && !s.speaking
    ensures Tracks(s, [])
  {
  }

  lemma SilenceSince(s: State, marks: seq<Mark>, step: Step)
    requires Tracks(s, marks) && step.Fed?
    ensures EndsUtterance(s, marks, step) <==>
            Seen(s, step) && !Loud(step.chunk) && s.speaking
            && (step.now - s.lastVoice) * 1000.0 >= step.silenceMs as real
  {
    hide Loud, Row, VoiceAt;
  }

  lemma StepTracks(s: State, marks: seq<Mark>, step: Step)
    requires Tracks(s, marks)
    ensures Tracks(Run(s, step).state, MarksAfter(s, marks, step))
  {
    hide Loud, Row, VoiceAt, SpeakingSince, LastVoiceAt, Tracks;
    if Seen(s, step) {
      SeenTracks(s, marks, step);
    } else if step.SwapCleared? {
      StepHandsOn(s, step);
      MarkTracks(s, marks, Muted, Run(s, step).state);
    } else {
      UnseenTracks(s, marks, step);
    }
  }

  lemma UnseenTracks(s: State, marks: seq<Mark>, step: Step)
    requires Tracks(s, marks) && !Seen(s, step) && !step.SwapCleared?
    ensures Tracks(Run(s, step).state, MarksAfter(s, marks, step))
  {
    hide Loud, Row, VoiceAt, SpeakingSince, LastVoiceAt;
    StepHandsOn(s, step);
    var e := Run(s, step);
    if step.Stopped? && e.outputs == [Process(s.audio, false)] {
      assert e.outputs[0] in e.outputs;
      NothingTracks(e.state);
    } else {
      assert forall o | o in e.outputs :: !o.Process?;
      assert MarksAfter(s, marks, step) == marks;
    }
  }

  lemma {:induction false} RunTracks(s: State, marks: seq<Mark>, steps: seq<Step>)
    requires Tracks(s, marks)
    ensures Tracks(Final(s, steps), Marks(s, marks, steps))
    decreases |steps|
  {
    hide Run, MarksAfter, Tracks;
    if steps != [] {
      StepTracks(s, marks, steps[0]);
      RunTracks(Run(s, steps[0]).state, MarksAfter(s, marks, steps[0]), steps[1..]);
    }
  }

  // After any run of a new pipeline, a fed chunk ends the utterance exactly when it is silent, a loud
  // chunk since the last utterance was the third or a later one of its row, no swap silenced the
  // detector since the last such chunk, and at least silenceMs have passed since that one.
  lemma UtteranceEndsIff(steps: seq<Step>, step: Step)
    requires step.Fed?
    ensures var s, marks := Final(INITIAL, steps), Marks(INITIAL, [], steps);
            && (TriggersByVad(s, step) <==> EndsUtterance(s, marks, step))
            && (TriggersByVad(s, step) ==> Run(s, step).outputs == [Process(s.audio + step.chunk, true)])
  {
    hide Loud, Row, VoiceAt, Tracks, EndsUtterance, Final, Marks;
    NothingTracks(INITIAL);
    RunTracks(INITIAL, [], steps);
    var s, marks := Final(INITIAL, steps), Marks(INITIAL, [], steps);
    if Seen(s, step) {
      SeenTracks(s, marks, step);
      if EndsUtterance(s, marks, step) {
        assert Run(s, step).outputs[0] in Run(s, step).outputs;
      }
    } else {
      SilenceSince(s, marks, step);
      UnseenSilent(s, step);
    }
  }

  lemma UnseenSilent(s: State, step: Step)
    requires step.Fed? && !Seen(s, step)
    ensures !TriggersByVad(s, step)
  {
    hide Loud;
  }

  // ----- the debounce -----------------------------------------------------------------------------

  // The loudness of the chunks analysed since the audio buffer was last cleared.
  function FramesAfter(s: State, frames: seq<bool>, step: Step): seq<bool> {
    var e := Run(s, step);
    if e.state.audio == [] then []
    else if step.Fed? && e.accepted != [] && !s.dictation && step.vad && Analysed(step.chunk) then
      frames + [Loud(step.chunk)]
    else frames
  }

  ghost predicate HasBurst(frames: seq<bool>) {
    exists i :: 0 <= i && i + 3 <= |frames| && Burst(frames, i)
  }

  predicate Burst(frames: seq<bool>, i: nat)
    requires i + 3 <= |frames|
  {
    frames[i] && frames[i + 1] && frames[i + 2]
  }

  predicate TriggersByVad(s: State, step: Step) {
    exists o | o in Run(s, step).outputs :: o.Process? && o.byVad
  }

  // The runs the debounce is about: feeding and stopping, with processing beginning and ending.
  predicate FeedOrStop(step: Step) {
    step.Fed? || step.Stopped? || step.ProcessingBegan? || step.ProcessingEnded?
  }

  // Every utterance that the detector triggers contains MIN_SPEECH_FRAMES loud frames in a row.
  ghost predicate Debounced(s: State, frames: seq<bool>, steps: seq<Step>)
    decreases |steps|
  {
    steps != [] ==>
      (TriggersByVad(s, steps[0]) ==> HasBurst(frames))
      && Debounced(Run(s, steps[0]).state, FramesAfter(s, frames, steps[0]), steps[1..])
  }

  // A stop that drops a short buffer leaves the detector's memory as it is.
  predicate ShortStop(s: State, step: Step) {
    step.Stopped? && !s.processing && |s.audio| < MIN_AUDIO_BYTES
  }

  predicate Forgotten(s: State) { !s.speaking && s.consec == 0 }

  ghost predicate ShortStopsForgotten(s: State, steps: seq<Step>)
    decreases |steps|
  {
    steps != [] ==>
      (ShortStop(s, steps[0]) ==> Forgotten(s)) && ShortStopsForgotten(Run(s, steps[0]).state, steps[1..])
  }

  // The detector remembers no more than the frames since the last clear.
  ghost predicate Remembers(s: State, frames: seq<bool>) {
    RemembersMost(s, frames) && (s.audio == [] ==> frames == [])
  }

  ghost predicate RemembersMost(s: State, frames: seq<bool>) {
    && s.consec <= |frames| && (forall k | |frames| - s.consec <= k < |frames| :: frames[k])
    && (s.speaking ==> HasBurst(frames))
  }

  lemma BurstStays(frames: seq<bool>, loud: bool)
    requires HasBurst(frames)
    ensures HasBurst(frames + [loud])
  {
    var i :| 0 <= i && i + 3 <= |frames| && Burst(frames, i);
    assert Burst(frames + [loud], i);
  }

  lemma StepRemembers(s: State, frames: seq<bool>, step: Step)
    requires Remembers(s, frames) && FeedOrStop(step) && (ShortStop(s, step) ==> Forgotten(s))
    ensures Remembers(Run(s, step).state, FramesAfter(s, frames, step))
    ensures TriggersByVad(s, step) ==> HasBurst(frames)
  {
    hide Loud, HasBurst;
    if step.Fed? {
      hide Remembers;
      FeedRemembers(s, frames, step);
    }
  }

  lemma FeedRemembers(s: State, frames: seq<bool>, step: Step)
    requires Remembers(s, frames) && step.Fed?
    ensures Remembers(Run(s, step).state, FramesAfter(s, frames, step))
    ensures TriggersByVad(s, step) ==> HasBurst(frames)
  {
    hide Loud, HasBurst, Detect;
    var t := FreshLatches(s);
    if s.swapping || s.dictation || s.processing || |t.audio| + |step.chunk| > MAX_AUDIO_BUFFER || !step.vad
       || !Analysed(step.chunk) {
      DroppedRemembers(s, frames, step);
    } else {
      var heard := t.(audio := t.audio + step.chunk);
      assert Run(s, step) == Detect(heard, step.chunk, step.now, step.silenceMs);
      DetectRemembers(heard, frames, step.chunk, step.now, step.silenceMs);
    }
  }

  // A chunk that the detector does not see.
  lemma DroppedRemembers(s: State, frames: seq<bool>, step: Step)
    requires Remembers(s, frames) && step.Fed?
    requires s.swapping || s.dictation || s.processing || |s.audio| + |step.chunk| > MAX_AUDIO_BUFFER || !step.vad
          || !Analysed(step.chunk)
    ensures Remembers(Run(s, step).state, FramesAfter(s, frames, step)) && !TriggersByVad(s, step)
  {
    hide HasBurst, Detect;
  }

  lemma DetectRemembers(s: State, frames: seq<bool>, chunk: seq<byte>, now: real, silenceMs: nat)
    requires RemembersMost(s, frames) && s.audio != []
    ensures var e := Detect(s, chunk, now, silenceMs);
            && e.accepted == chunk
            && Remembers(e.state, if e.state.audio == [] then [] else frames + [Loud(chunk)])
            && (e.outputs != [] ==> HasBurst(frames))
  {
    hide Loud, HasBurst;
    var more := frames + [Loud(chunk)];
    if HasBurst(frames) {
      BurstStays(frames, Loud(chunk));
    }
    if s.consec + 1 >= MIN_SPEECH_FRAMES && Loud(chunk) {
      LastThree(more);
    }
  }

  lemma LastThree(frames: seq<bool>)
    requires |frames| >= 3 && frames[|frames| - 3] && frames[|frames| - 2] && frames[|frames| - 1]
    ensures HasBurst(frames)
  {
    assert Burst(frames, |frames| - 3);
  }

  lemma {:induction false} ForgottenRunDebounced(s: State, frames: seq<bool>, steps: seq<Step>)
    requires Remembers(s, frames) && ShortStopsForgotten(s, steps)
    requires forall k | 0 <= k < |steps| :: FeedOrStop(steps[k])
    ensures Debounced(s, frames, steps)
    decreases |steps|
  {
    if steps != [] {
      hide Run, FramesAfter, TriggersByVad, HasBurst, Remembers;
      StepRemembers(s, frames, steps[0]);
      ForgottenRunDebounced(Run(s, steps[0]).state, FramesAfter(s, frames, steps[0]), steps[1..]);
    }
  }

  lemma FreshPipelineDebounced(steps: seq<Step>)
    requires ShortStopsForgotten(INITIAL, steps)
    requires forall k | 0 <= k < |steps| :: FeedOrStop(steps[k])
    ensures Debounced(INITIAL, [], steps)
  {
    ForgottenRunDebounced(INITIAL, [], steps);
  }

  // ----- what is loud -------------------------------------------------------------------------------

  // The two bytes of a sample, low byte first.
  function SampleBytes(v: int): seq<byte>
    requires -32768 <= v < 32768
  {
    [v % 65536 % 256, v % 65536 / 256]
  }

  function ChunkOf(samples: seq<int>): seq<byte>
    requires forall k | 0 <= k < |samples| :: -32768 <= samples[k] < 32768
  {
    if samples == [] then [] else SampleBytes(samples[0]) + ChunkOf(samples[1..])
  }

  lemma SampleRoundTrip(v: int)
    requires -32768 <= v < 32768
    ensures Sample(SampleBytes(v)[0], SampleBytes(v)[1]) == v
  {
  }

  function Squares(samples: seq<int>): nat {
    if samples == [] then 0 else samples[0] * samples[0] + Squares(samples[1..])
  }

  lemma {:induction false} EnergyOfChunk(samples: seq<int>)
    requires forall k | 0 <= k < |samples| :: -32768 <= samples[k] < 32768
    ensures |ChunkOf(samples)| == 2 * |samples| && Energy(ChunkOf(samples)) == Squares(samples)
  {
    if samples != [] {
      SampleRoundTrip(samples[0]);
      EnergyOfChunk(samples[1..]);
      assert ChunkOf(samples)[2..] == ChunkOf(samples[1..]);
    }
  }

  // A chunk of samples is loud exactly when the mean of their squares is above 900 squared.
  lemma LoudIff(samples: seq<int>)
    requires forall k | 0 <= k < |samples| :: -32768 <= samples[k] < 32768
    ensures Loud(ChunkOf(samples)) <==> Squares(samples) > 900 * 900 * |samples|
  {
    hide Energy, Squares, ChunkOf;
    EnergyOfChunk(samples);
    assert |ChunkOf(samples)| / 2 == |samples|;
  }

  // ----- where the debounce fails -----------------------------------------------------------------

  const LOUD_CHUNK: seq<byte> := [232, 3]    // one sample of 1000
  const SILENT_CHUNK: seq<byte> := [0, 0]

  lemma ChunkLoudness()
    ensures Loud(LOUD_CHUNK) && !Loud(SILENT_CHUNK) && Analysed(LOUD_CHUNK) && Analysed(SILENT_CHUNK)
  {
    assert LOUD_CHUNK[2..] == [] && SILENT_CHUNK[2..] == [];
    assert Sample(232, 3) == 1000;
    assert Energy(LOUD_CHUNK) == 1000000 + Energy(LOUD_CHUNK[2..]);
    assert Energy(SILENT_CHUNK) == 0 + Energy(SILENT_CHUNK[2..]);
  }

  function LoudFeed(now: real): Step { Fed(LOUD_CHUNK, now, true, 0) }

  function SilentFeed(now: real): Step { Fed(SILENT_CHUNK, now, true, 0) }

  ghost predicate Listening(s: State) {
    !s.dictation && !s.swapping && !s.processing && |s.audio| <= 100
  }

  // One silent chunk ends the utterance of a speaking detector, and it is no loud frame.
  lemma SilenceTriggers(s: State, frames: seq<bool>)
    requires Listening(s) && s.speaking && !HasBurst(frames)
    ensures !Debounced(s, frames, [SilentFeed(s.lastVoice)])
  {
    hide Loud, HasBurst, Analysed;
    ChunkLoudness();
    var steps := [SilentFeed(s.lastVoice)];
    var e := Run(s, steps[0]);
    assert e.outputs == [Process(s.audio + SILENT_CHUNK, true)];
    assert e.outputs[0] in e.outputs;
  }

  // A detector that remembers more loud frames than it has seen since the clear comes to speak,
  // and then to trigger, on fewer than it should.
  lemma {:induction false} RememberedFramesTrigger(s: State, frames: seq<bool>) returns (steps: seq<Step>)
    requires Listening(s) && |s.audio| <= 2 * |frames| && |frames| <= 1 && !s.speaking && s.consec > |frames|
    ensures !Debounced(s, frames, steps)
    ensures forall k | 0 <= k < |steps| :: FeedOrStop(steps[k]) && !steps[k].Stopped?
    decreases 1 - |frames|
  {
    hide Loud, Analysed, HasBurst;
    ChunkLoudness();
    var step := LoudFeed(s.lastVoice);
    var t := Run(s, step).state;
    assert t.audio == s.audio + LOUD_CHUNK && t.consec == s.consec + 1;
    var more := FramesAfter(s, frames, step);
    assert more == frames + [true];
    var rest;
    if t.speaking {
      ShortHasNoBurst(more);
      SilenceTriggers(t, more);
      rest := [SilentFeed(t.lastVoice)];
    } else {
      rest := RememberedFramesTrigger(t, more);
    }
    steps := [step] + rest;
    assert steps[1..] == rest;
  }

  lemma ShortHasNoBurst(frames: seq<bool>)
    requires |frames| < 3
    ensures !HasBurst(frames)
  {
  }

  ghost predicate AlwaysDebounced(s: State) {
    forall steps: seq<Step> | (forall k | 0 <= k < |steps| :: FeedOrStop(steps[k]) && !steps[k].Stopped?) ::
      Debounced(s, [], steps)
  }

  // After a stop that dropped a short buffer, every utterance the detector goes on to trigger is
  // debounced exactly when at the stop the detector was neither speaking nor counting.
  lemma ShortStopDebouncedIff(s: State)
    requires ShortStop(s, Stopped) && !s.dictation && !s.swapping
    ensures AlwaysDebounced(Run(s, Stopped).state) <==> Forgotten(s)
  {
    hide Debounced, HasBurst;
    var t := Run(s, Stopped).state;
    ShortHasNoBurst([]);
    if Forgotten(s) {
      forall steps: seq<Step> | forall k | 0 <= k < |steps| :: FeedOrStop(steps[k]) && !steps[k].Stopped?
        ensures Debounced(t, [], steps)
      {
        NoStopsForgotten(t, steps);
        ForgottenRunDebounced(t, [], steps);
      }
    } else if s.speaking {
      SilenceTriggers(t, []);
      var steps := [SilentFeed(t.lastVoice)];
      assert forall k | 0 <= k < |steps| :: FeedOrStop(steps[k]) && !steps[k].Stopped?;
    } else {
      var steps := RememberedFramesTrigger(t, []);
    }
  }

  lemma {:induction false} NoStopsForgotten(s: State, steps: seq<Step>)
    requires forall k | 0 <= k < |steps| :: FeedOrStop(steps[k]) && !steps[k].Stopped?
    ensures ShortStopsForgotten(s, steps)
    decreases |steps|
  {
    if steps != [] {
      hide Run;
      NoStopsForgotten(Run(s, steps[0]).state, steps[1..]);
    }
  }

  lemma FinalOfThree(s: State, a: Step, b: Step, c: Step)
    ensures Final(s, [a, b, c]) == Run(Run(Run(s, a).state, b).state, c).state
  {
    hide Run;
    assert [a, b, c][1..] == [b, c] && [b, c][1..] == [c] && [c][1..] == [];
    var t := Run(Run(s, a).state, b).state;
    assert Final(t, [c]) == Run(t, c).state;
    assert Final(Run(s, a).state, [b, c]) == Final(t, [c]);
  }

  // Three loud chunks and two silent ones: the first silence, 20 ms after the last voice, does not end
  // the utterance, the second, at 800 ms, does.
  lemma SilenceOf800Triggers()
    ensures var loud, silent := (now: real) => Fed(LOUD_CHUNK, now, true, 800), SILENT_CHUNK;
            var s := Final(INITIAL, [loud(0.0), loud(0.02), loud(0.04)]);
            var early := Run(s, Fed(silent, 0.06, true, 800));
            && early.outputs == [] && early.state.speaking
            && TriggersByVad(early.state, Fed(silent, 0.84, true, 800))
  {
    hide Loud, Analysed;
    ChunkLoudness();
    var loud := (now: real) => Fed(LOUD_CHUNK, now, true, 800);
    var steps := [loud(0.0), loud(0.02), loud(0.04)];
    var s1 := Run(INITIAL, steps[0]).state;
    var s2 := Run(s1, steps[1]).state;
    var s3 := Run(s2, steps[2]).state;
    assert s1.consec == 1 && s2.consec == 2 && s3.speaking && s3.lastVoice == 0.04 && |s3.audio| == 6;
    FinalOfThree(INITIAL, steps[0], steps[1], steps[2]);
    var early := Run(s3, Fed(SILENT_CHUNK, 0.06, true, 800)).state;
    var e := Run(early, Fed(SILENT_CHUNK, 0.84, true, 800));
    assert e.outputs == [Process(early.audio + SILENT_CHUNK, true)];
    assert e.outputs[0] in e.outputs;
  }

  // A run of a new pipeline that breaks the debounce: one loud chunk and a stop, then two loud
  // chunks, which with the remembered one count as three, and a silent one.
  lemma TapBreaksDebounce() returns (steps: seq<Step>)
    ensures !Debounced(INITIAL, [], steps) && forall k | 0 <= k < |steps| :: FeedOrStop(steps[k])
  {
    hide Loud, HasBurst, Analysed;
    ChunkLoudness();
    var tap := LoudFeed(0.0);
    var s := Run(INITIAL, tap).state;
    var t := Run(s, Stopped).state;
    assert [] + LOUD_CHUNK == LOUD_CHUNK && s.audio == LOUD_CHUNK;
    assert t.audio == [] && t.consec == 1;
    var rest := RememberedFramesTrigger(t, []);
    var fromStop := [Stopped] + rest;
    assert fromStop[1..] == rest;
    steps := [tap] + fromStop;
    assert steps[1..] == fromStop;
  }
}
