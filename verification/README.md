# TinkerBox: a verified model

This project models the logic at the heart of the Dragon voice server and proves properties of it
over every input, every run or every interleaving. `dafny verify dfyconfig.toml` checks all of it.

| file | what it models |
|---|---|
| `MarkerSplit.dfy` | holding back tool-call markers while a reply streams |
| `ToolBlocks.dfy` | the tool-block pattern, stripping it, and where a text can be cut before stripping |
| `ToolMarkup.dfy` | what is left of tool blocks in the shown text, and the second filter before the client |
| `SpeechStream.dfy` | the token stream of a voice turn: hallucination scan, sentence, clause and timeout flush |
| `BackendPool.dfy` | the shared backends of many pipelines and one engine, one step per stretch between awaits |
| `BackendRuns.dfy`, `BackendRepair.dfy` | whole runs of them, runs that go wrong, and a repair |
| `PipelineBackends.dfy` | the operations on them as whole calls, with signatures and change tests |
| `HandlerSlots.dfy` | per-connection task slots, the FIFO lock, cancel and disconnect |
| `Messages.dfy`, `History.dfy` | the message log, the tail window, the tool-history filter, the token budget |
| `ToolLoop.dfy` | the prose and the native tool loop, with an arbitrary model |
| `AudioIngest.dfy` | capped buffers, latched cap events, the debounced voice detector |
| `DictationPost.dfy` | the post-processing tasks of dictation and their turn ids |
| `FallbackCache.dfy` | the race to fill the fallback recogniser's cell |
| `Purge.dfy` | the batched purge with other coroutines between the batches |
| `DocumentChunks.dfy`, `UdpFrames.dfy`, `Resample.dfy` | loops with exact arithmetic |
| `Text.dfy`, `Bytes.dfy`, `Options.dfy` | shared vocabulary |

Objects whose methods update fields are classes whose methods are proved against a specification
function; concurrent behaviour is a state machine whose steps are the stretches between two awaits.

## Where the code and its promises differ

- `[NAME]` openers are not held as partials, so a tokenization can show one
  (`BracketNameEscapes`; `StreamEqualsOneSplitIff` says exactly when).
- The comment on the tail scan says it finds the longest partial; it stops at the shortest. That is
  the only one (`OnePartialPerOpener`).
- A tool block in upper case can be shown raw (`UpperCaseBlockIsShown`; exact condition in
  `ShownIsStoredStrippedIff`).
- The second filter is documented never to flush part of a block. It holds from the rightmost marker
  on, so an earlier one is flushed (`SplitBlockLeaks`), and an opening can be split over two flushes
  (`SplitOpeningLeaks`; exact condition over a stream in `FilteredCleanIff`).
- Two misses of one pool key overwrite each other (`ConcurrentMissesUnsafe`); two engine swaps can shut
  one backend down twice (`ConcurrentEngineSwapsUnsafe`, `SwapDuringRetirementRepeats`), and a cancelled
  one leaves the engine on a dead backend (`CancelledSwapLeavesDeadEngine`); a failed `initialize` loses
  the backends that still come up (`FailedInitializeLeaks`); a shutdown during a call leaves a dead
  backend in the pool (`ShutdownDuringCallPoisonsPool`) or shuts one down twice
  (`ShutdownDuringCloseRepeats`). `StepSafeIff` says for every step exactly when it is harmless,
  `RepairedServer` proves a repair of all of them.
- `swap_llm` shuts the old backend down before it replaces it, so turns in between are served by a
  backend that is shut down (`ServingIff`).
- Server shutdown shuts the engine's backend down twice when it is in the pool (`DrainedOnceIff`).
- Without a pool, `swap_backends` still flips the pooled flags, so backends that a swap creates are
  never shut down (`LoneExactlyOnceIff`).
- A stop on a short buffer keeps the detector's memory, so the promise of three consecutive frames
  can fail afterwards (`ShortStopDebouncedIff`, `TapBreaksDebounce`).
- The signature of a dual configuration does not always determine its models (`DualSigCollides`, exact
  condition `DualSigDeterminesIff`), and a changed TTS or cloud model is not always fetched
  (`MissedSwapIff`, `SlotTracksIff`).
- `cancel()` is documented to return with the post-process task done; an overlapping call does not
  wait for it (`SecondCancelDoesNotWait`, exact condition `CancelIsQuietIff`), and a task that is spawned
  while it waits is live at its return (`SpawnDuringCancel`). An eviction or a memory monitor cancels
  without the lock, so a dictation that ends meanwhile has two live tasks (`OverlapLeavesTwoLive`, exact
  condition `OneAliveIff`).
- The cancelled frame is meant to carry the abandoned turn; its twin on the progress bus carries that of
  whatever was started last (`ProgressCancelledRightIff`).
- `transcribe` publishes the fallback recogniser before it is initialised (`OverlappingTranscriptions`,
  exact condition `CachedUseReadyIff`).
- The prose tool loop rebuilds its context without memory, tool prose or trimming; only the first
  generation of a turn is trimmed to the budget (`TrimmedRowComesBack`, exact condition
  `NextCallOverBudgetIff`).
- Leaving the native loop over an unknown tool stores an answer that is not shown
  (`UnknownToolHidesAnswer`, exact condition `ShownIsStoredIff`).
- Raising the sample rate, outputs past the last input can leave int16 (`RaisingOverflows`, exact condition
  `StaysInt16Iff`).
- Six history messages hold less than "a turn or two" after a turn with two calls
  (`PreviousQuestionKeptIff`).
- Trimming charges a message with an image as two parts, that is one token (`ImageCostsOneToken`,
  exact condition `PartsCostOneIff`).

## Model

| member | source | states |
|---|---|---|
| `MarkerSplit.SplitAtMarkerBoundary` | dragon_voice/conversation.py:215-275 | the text is cut at the leftmost position where a complete opener starts or the text ends inside a static opener; nothing is lost |
| `MarkerSplit.OnePartialPerOpener` | dragon_voice/conversation.py:265-273 | a text ends in at most one partial of an opener whose first character does not repeat, so breaking at the shortest one (the comment says longest) is right |
| `MarkerSplit.TinkerMarkersWellShaped` | dragon_voice/conversation.py:206-212 | the five static openers have that shape |
| `MarkerSplit.WindowSuffix` | dragon_voice/conversation.py:265-266 | looking at the last eleven characters decides every partial as the whole text would |
| `MarkerSplit.StreamGeneration` | dragon_voice/conversation.py:745-773 | one generation: what was yielded and what is held is the state of repeated splitting, the response is all tokens joined; without a registry every token goes out raw |
| `MarkerSplit.RestartKeepsBoundary` | dragon_voice/conversation.py:770-771 | dropping text that was already flushed does not move the boundary: the split is restartable |
| `MarkerSplit.StreamEqualsOneSplitIff` | dragon_voice/conversation.py:215-275 | for every tokenization and every set of registered names, streaming gives the split of the whole text if and only if no token boundary flushes past the final boundary |
| `MarkerSplit.ChunkIndependence` | dragon_voice/conversation.py:215-275 | without registered names every tokenization flushes and holds what one split of the whole text does |
| `MarkerSplit.BracketNameEscapes` | dragon_voice/conversation.py:235-241 | `[recall]` cut as `[rec`, `all]` is yielded although one split would hold it |
| `MarkerSplit.NoStaticOpenerLeaks` | dragon_voice/conversation.py:224-230 | whatever names are registered and however the reply is cut, no static opener is ever yielded |
| `MarkerSplit.NoToolTagLeaks` | dragon_voice/conversation.py:206-212 | with the engine's markers none of `<tool>`, `[tool>`, `<tool]`, `[tool]`, `<tool_call>` begins in what is yielded |
| `MarkerSplit.HeldIsShort` | dragon_voice/conversation.py:265-273 | until a complete opener has arrived at most ten characters are held back |
| `ToolBlocks.StripCutIff` | dragon_voice/conversation.py:179-192 | a text can be cut at any place and its head left unstripped, with the same outcome, if and only if no complete block (any letter case) begins before the cut |
| `ToolBlocks.BlockAtIff` | dragon_voice/conversation.py:179-192 | a block is the lazy match of its pattern in any letter case: one begins at a tag if and only if a complete close follows, and it ends with the first such close, its spaces and one `>` |
| `ToolBlocks.TagBeforeBlock` | dragon_voice/conversation.py:179-192 | a tag that stripping keeps has no block behind it: the lazy pattern would have taken that block's close |
| `ToolBlocks.BlockEndsMonotone` | dragon_voice/conversation.py:179-192 | of two places where a block begins, the later block does not end earlier |
| `ToolMarkup.FinishReply` | dragon_voice/conversation.py:887-904 | a reply without an executable call: what is shown is the flushed text and the stripped held tail, what is stored is the raw reply |
| `ToolMarkup.ShownIsStoredStrippedIff` | dragon_voice/conversation.py:763-904 | for every tokenization and every set of names the reader sees the stored text with its complete blocks removed if and only if no complete block begins in the text already yielded |
| `ToolMarkup.LowerCaseIsStripped` | dragon_voice/conversation.py:763-904 | which is so whenever the model writes its tags in lower case |
| `ToolMarkup.UpperCaseBlockIsShown` | dragon_voice/conversation.py:179-192 | it is not so for an upper-case block in one token, which is shown raw |
| `ToolMarkup.HoldAt` | dragon_voice/local_text_stream.py:148-152 | the loop over the markers finds the rightmost marker |
| `ToolMarkup.MarkerAtIff` | dragon_voice/local_text_stream.py:88 | the markers: an opening or closing tool or arguments tag, complete or without its bracket |
| `ToolMarkup.FilterToken` | dragon_voice/local_text_stream.py:135-157 | one token of the second filter: the stripped buffer is cut at the rightmost marker |
| `ToolMarkup.FilterStream` | dragon_voice/local_text_stream.py:123-170 | the frames sent in all are what the repeated cut flushed and the stripped rest; the returned text is the stripped whole |
| `ToolMarkup.FilterTransparent` | dragon_voice/local_text_stream.py:126-170 | on text without a tag the second filter loses, adds and reorders nothing |
| `ToolMarkup.TransparentTurn` | dragon_voice/conversation.py:763-904 | both filters in a row: for a reply without `<tool>` in any letter case and without a call, every tokenization sends the client exactly the model's text, which is also what is stored |
| `ToolMarkup.FilteredCleanIff` | dragon_voice/local_text_stream.py:145-157 | over a whole stream the second filter flushes none of the five markers if and only if no step has one before its rightmost and no flush completes one that an earlier flush began |
| `ToolMarkup.SentCleanIff` | dragon_voice/local_text_stream.py:145-170 | the same with the rest that is sent at the end of the stream |
| `ToolMarkup.SplitBlockLeaks` | dragon_voice/local_text_stream.py:145-157 | a block whose close has begun to arrive is partly flushed |
| `ToolMarkup.SplitOpeningLeaks` | dragon_voice/local_text_stream.py:145-157 | `<to` and `ol>x` are flushed although no buffer holds a marker, and join to an opening |
| `SpeechStream.WatermarkScan` | dragon_voice/pipeline.py:1081-1126 | searching from the watermark less the overlap finds the same leftmost stop as a full rescan, for every set of short stop bodies |
| `SpeechStream.StopBodiesAreShort` | dragon_voice/token_flush.py:110-113 | the five stop patterns are short enough for the overlap |
| `SpeechStream.StreamToSpeech` | dragon_voice/pipeline.py:1081-1197 | the loop with its watermark computes what the loop with a full rescan after every token computes |
| `SpeechStream.SpeakPieces` | dragon_voice/pipeline.py:1147-1157 | the pass over the split sentences speaks every complete piece in order and keeps an incomplete last one |
| `SpeechStream.SpeakSentences` | dragon_voice/pipeline.py:1146-1158 | the sentence rule: after a buffer that ends a sentence it speaks one or more texts, each a single sentence (it ends in `.`, `!` or `?`, none of these stands before whitespace inside it, it is stripped), and nothing stays buffered |
| `SpeechStream.SpeakClause` | dragon_voice/pipeline.py:1167-1173 | the clause rule with its two thresholds |
| `SpeechStream.SpeakTimeout` | dragon_voice/pipeline.py:1182-1197 | the timeout rule: cut at the last word boundary, from position ten on |
| `SpeechStream.FlushRules` | dragon_voice/pipeline.py:1145-1197 | which rule a token triggers, from the buffered characters: nothing else behind a sentence end; outside code a clause of 20 characters (60 for cloud voices), or after 0.3 seconds without a flush 20 characters up to the last word break if that lies at position ten or later; otherwise the buffer grows |
| `SpeechStream.LastWordBoundaryIs` | dragon_voice/token_flush.py:79 | the word break is the leftmost match of its pattern, whose `$` also stands before a final newline |
| `SpeechStream.CountMarksIsMost` | dragon_voice/token_flush.py:130-132 | the fences counted in a token are the most that fit without overlap |
| `SpeechStream.InCodeIff` | dragon_voice/pipeline.py:1135-1139 | after any stream the turn is inside a code block if and only if an odd number of fences has gone by |
| `SpeechStream.HandleToken` | dragon_voice/pipeline.py:1101-1197 | one pass of the loop body equals one step of the rescanning run, and leaves the watermark at a text without a stop |
| `SpeechStream.KeptIsReceivedCut` | dragon_voice/pipeline.py:1105-1126 | the kept response is the received text cut at its first stop pattern, or all of it |
| `SpeechStream.KeptEndsBeforeSpeaker` | dragon_voice/token_flush.py:110-113 | with the five patterns: a stream halts if and only if a line of the received text starts with a speaker's name or a chat mark in any letter case; kept is the text before the first such line, without the newline before it or the three; shown is no more, and a blank rest of the last token is not shown |
| `SpeechStream.SplitKeepsVoice` | dragon_voice/token_flush.py:62-64 | the sentence split drops whitespace only |
| `SpeechStream.SplitIs` | dragon_voice/token_flush.py:62-64 | no piece of the split holds `.`, `!` or `?` before whitespace, every piece before the last ends in one of them, every later one starts with ink, and the pieces with whitespace between them are the text |
| `SpeechStream.RunBalanced` | dragon_voice/pipeline.py:1101-1197 | after every token, the non-whitespace shown equals the non-whitespace spoken followed by that of the buffer |
| `SpeechStream.FinishTurn` | dragon_voice/pipeline.py:1199-1235 | the rest is spoken, and a useless reply is replaced by the fallback in what is shown, spoken and kept |
| `SpeechStream.SpeakTurn` | dragon_voice/pipeline.py:1081-1235 | the turn is the rescanning run over the tokens with the rest spoken and the fallback for a useless reply; and spoken equals shown: for every uncancelled stream, timing and TTS locality the non-whitespace characters passed to synthesis are those of the `llm` events, in order |
| `SpeechStream.CancelledSpeechIsPrefix` | dragon_voice/pipeline.py:1101-1103 | a turn cancelled after any number of tokens has spoken a prefix of what it showed |
| `SpeechStream.CancelledFlushIsPrefix` | dragon_voice/pipeline.py:1128-1197 | so has one cancelled inside the flush of one token, after any of its sentences |
| `BackendPool.StepSafeIff` | dragon_voice/pipeline.py:276-321 | every step of every party, one step per stretch between two awaits (a slot's backend closed, looked up, registered; a failing gather and its late siblings; a pipeline's shutdown at any moment, once or again, and what its call does afterwards; an engine swap up to, during and after the old backend's shutdown, and its cancellation), keeps the world safe if and only if it is harmless. Safe: pool entries are up, under one key each and not shut down; no live slot holds a backend that was shut down; the engine's is up or being replaced; what a swap is about to take is up; a slot's flag is true exactly when its backend is in the pool; what is up is held by someone; nothing is shut down twice |
| `BackendRuns.StepServes` | dragon_voice/pipeline.py:257-321 | what a step is for: a lookup ends with the pool's backend or a new one that waits for its key, a registration with the key in the pool and the backend up, a swap with the new backend in the engine or about to be, a shutdown with no slot of the pipeline left and the others as they were |
| `BackendRuns.RunSafeIff` | dragon_voice/pipeline.py:276-321 | a run of any number of pipelines and engine swaps is safe throughout if and only if all its steps are harmless |
| `BackendRuns.ServingIff` | dragon_voice/conversation.py:402-412 | while a swap awaits the old backend's shutdown the engine serves a backend that is shut down: a harmless step leaves it serving one that is up if and only if it retires none |
| `BackendPool.StartSafe` | dragon_voice/conversation.py:308-312 | the state in which the engine has created its backend is safe |
| `BackendRuns.CallFailsSafeIff` | dragon_voice/pipeline.py:305-306 | after a failing gather its siblings may still come up safely if and only if the pipeline is kept or had none of them: `initialize` drops the pipeline (dragon_voice/pipeline_init.py:178-197), `swap_backends` keeps it |
| `BackendRuns.FailedInitializeLeaks` | dragon_voice/pipeline_init.py:178-197 | a run in which a failed `initialize` leaves a loaded recogniser that nobody holds |
| `BackendRuns.ReleaseSafeIff` | dragon_voice/stale_conn_eviction.py:131 | a pipeline's shutdown keeps the world safe whatever becomes of a call in progress if and only if no gather is in progress |
| `BackendRuns.ShutdownDuringCallPoisonsPool` | dragon_voice/lifecycle/monitors.py:148 | a run in which a call registers a backend that a shutdown without the lock had shut down |
| `BackendRuns.ShutdownDuringCloseRepeats` | dragon_voice/pool_aware_swap.py:149-150 | a run in which an eviction shuts down again what a swap is shutting down |
| `BackendRuns.ConcurrentMissesUnsafe` | dragon_voice/pipeline.py:312-321 | a run in which two pipelines miss together and the engine then shuts down a backend that one of them holds |
| `BackendRuns.ConcurrentEngineSwapsUnsafe` | dragon_voice/conversation.py:389-416 | two overlapping `swap_llm` calls that miss the pool shut the old backend down twice |
| `BackendRuns.SwapDuringRetirementRepeats` | dragon_voice/conversation.py:406-412 | so do two that find it, when the second runs while the first awaits the old backend's shutdown |
| `BackendRuns.CancelledSwapLeavesDeadEngine` | dragon_voice/conversation.py:406-412 | a swap that is cancelled in that await leaves the engine on a backend that is shut down |
| `BackendRepair.RepairedStepSafe` | dragon_voice/pipeline.py:276-321 | a repair: let go of a backend before awaiting its shutdown, register under free keys only, retire the engine backend that is current, and let whoever awaits an instance shut it down when nobody holds it. Every step is then safe in every interleaving, failures and shutdowns included |
| `BackendRepair.RepairedStepServes` | dragon_voice/pipeline.py:276-321 | the repair does not buy this by doing nothing: lookups, registrations, swaps and shutdowns still end as they should, and what nobody keeps is shut down once |
| `BackendRepair.RepairedServer` | dragon_voice/pipeline.py:276-321 | so from the server's start every run is safe, with the engine's and every borrowed backend up at every moment |
| `BackendRuns.DrainedOnceIff` | dragon_voice/lifecycle/shutdown.py:89-157 | at server shutdown everything is taken down, and every backend that was up is shut down exactly once if and only if the engine's backend is not in the pool; if it is, it is shut down twice |
| `BackendRuns.DrainedStaysDownIff` | dragon_voice/lifecycle/shutdown.py:89-157 | nothing comes up afterwards if and only if no initialisation was in progress |
| `PipelineBackends.SwappedEngineIsPooled` | dragon_voice/conversation.py:389-416 | after an uninterrupted `swap_llm` the engine's backend is the pooled one of the signature |
| `PipelineBackends.SigSameIff` | dragon_voice/pipeline.py:93-127 | two configurations have the same pool key if and only if the kinds, the backends and the models in use are the same, the models read off the fields that each backend uses; for two dual ones the joined names |
| `PipelineBackends.SharedIff` | dragon_voice/pipeline.py:93-127 | two slots of one kind share a backend if and only if they were fetched for the same backend and model in use |
| `PipelineBackends.RecognisersSharedIff` | dragon_voice/pipeline.py:257-321 | between calls two pipelines share a recogniser if and only if backend and model of their current configurations are the same |
| `PipelineBackends.SwapChanges` | dragon_voice/pipeline.py:1566-1653 | which slots a swap gives another backend: the recogniser's if and only if its backend or model changed, the synthesiser's if and only if its backend changed, the language model's when its backend or, for Ollama, its model changed, and not when neither did |
| `PipelineBackends.MissedSwapIff` | dragon_voice/pipeline.py:1566-1612 | the change test misses a changed signature exactly when only an untested model changed; for speech recognition never |
| `PipelineBackends.SlotTracksIff` | dragon_voice/pipeline.py:1566-1612 | after a first configuration and any swaps, a slot holds the backend of the current configuration if and only if the model last fetched is the current one; for speech recognition and Ollama always |
| `PipelineBackends.SwapThrough` | dragon_voice/pipeline.py:1554-1653 | a new pipeline taken through any sequence of configurations holds in each slot the backend of its last fetch, and the invariant holds |
| `PipelineBackends.DualSigDeterminesIff` | dragon_voice/pipeline.py:120-126 | the joined signature of a dual configuration determines its two models if and only if neither name contains the separator |
| `PipelineBackends.DualSigCollides` | dragon_voice/pipeline.py:120-126 | two dual configurations with different models share a signature |
| `PipelineBackends.MovedShape` | dragon_voice/pipeline.py:1554-1653 | what one whole `initialize` or `swap_backends` leaves: each slot asked for holds the pooled backend of its signature, everything else is as before |
| `PipelineBackends.MovedSafe` | dragon_voice/pipeline.py:1554-1653 | an uninterrupted call keeps the pool safe |
| `PipelineBackends.CallKeepsValid` | dragon_voice/pipeline.py:257-321 | between calls every slot of every pipeline holds the pooled backend of its last fetch |
| `PipelineBackends.ReleaseKeepsValid` | dragon_voice/pipeline.py:1686-1713 | a pipeline's shutdown keeps that and shuts no pooled backend down |
| `PipelineBackends.EngineKeepsValid` | dragon_voice/conversation.py:389-416 | so does `swap_llm` |
| `PipelineBackends.Server.constructor` | dragon_voice/conversation.py:286-312 | the start state |
| `PipelineBackends.Server.SwapOneBackend` | dragon_voice/pool_aware_swap.py:138-173 | keep, shut down what is owned, borrow or create; the other slots are untouched |
| `PipelineBackends.Server.Register` | dragon_voice/pipeline.py:1632-1653 | a created backend enters the pool and the flag flips |
| `PipelineBackends.Server.Initialize` | dragon_voice/pipeline.py:257-321 | the pipeline gets the three pooled backends of its configuration's signatures, and the invariant holds |
| `PipelineBackends.Server.SwapBackends` | dragon_voice/pipeline.py:1551-1653 | the tested changes are served: the recogniser is another one exactly after a change of its backend or model, the synthesiser after one of its backend, the language model as `SwapChanges` says; other pipelines keep theirs; the invariant holds, and a swap to an equal configuration changes nothing |
| `PipelineBackends.Server.RunCall` | dragon_voice/pipeline.py:1572-1653 | three lookups, then the registrations |
| `PipelineBackends.Server.Shutdown` | dragon_voice/pipeline.py:1698-1712 | only slots of this pipeline go, and no pooled backend is shut down |
| `PipelineBackends.Server.SwapLlm` | dragon_voice/conversation.py:389-420 | the engine gets the pooled backend of the signature, the old one is shut down unless pooled, the invariant holds |
| `PipelineBackends.LoneSwapsShape` | dragon_voice/pipeline.py:1634-1653 | without a pool only the first backend is ever shut down: the flag is flipped although there is no pool |
| `PipelineBackends.LoneExactlyOnceIff` | dragon_voice/pipeline.py:1634-1712 | without a pool every created backend is shut down exactly once if and only if no swap replaced one |
| `HandlerSlots.StepKeeps` | dragon_voice/handler_task_spawn.py:110-156 | every step of reader, tasks and lock keeps the slot, lock, queue, arrival and cancel-walk invariants |
| `HandlerSlots.ReceiveDoes` | dragon_voice/handler_task_spawn.py:110-156 | a superseding command cancels exactly its slot's unfinished task, any other command cancels none; either waits for that task, or creates its own at once when there is none |
| `HandlerSlots.WalkDoes` | dragon_voice/cancel_handler.py:105-117 | the cancel command cancels and awaits an unfinished task in the next slot and then clears the entry; it passes other slots by |
| `HandlerSlots.StepCancelsIff` | dragon_voice/handler_task_spawn.py:113-129 | a step of any party marks exactly the tasks that it should as cancelled |
| `HandlerSlots.CancelledIff` | dragon_voice/handler_task_spawn.py:113-129 | over every run: a task is cancelled if and only if, while it was unfinished, the run held a superseding command of its slot, the cancel command at its slot, or the disconnect |
| `HandlerSlots.EveryCommandSpawns` | dragon_voice/handler_task_spawn.py:110-156 | in every interleaving the n-th command received is the n-th task created, in the slot it named; at most the last one still waits |
| `HandlerSlots.NoOvertaking` | dragon_voice/handler_task_spawn.py:131-136 | in every interleaving nobody who waits for the connection lock, task or read loop, is overtaken: when a later one has the lock, the earlier one has had it or was cancelled |
| `HandlerSlots.RunSafe` | dragon_voice/handler_task_spawn.py:110-156 | in every interleaving: at most one unfinished task per slot, at most one body under the lock and none while the reader holds it, and the bodies of a slot begin in arrival order |
| `HandlerSlots.SuccessorFollowsFinished` | dragon_voice/handler_task_spawn.py:110-156 | a task is created only when every earlier task of its slot is finished, superseded config updates included |
| `HandlerSlots.CancelAndDisconnectDrain` | dragon_voice/cancel_handler.py:105-117 | once the cancel walk is over or the disconnect has returned no task is unfinished |
| `HandlerSlots.AllLiveCancelled` | dragon_voice/disconnect_handler.py:112-117 | the tasks a disconnect cancels and awaits are all there are |
| `HandlerSlots.CancelledNeverBegins` | dragon_voice/handler_task_spawn.py:131-139 | a task cancelled before it got the lock never runs its body |
| `HandlerSlots.SomeTaskMoves` | dragon_voice/handler_task_spawn.py:110-139 | no deadlock: while the reader waits for tasks and one is unfinished, some task can move |
| `HandlerSlots.WaitEnds` | dragon_voice/handler_task_spawn.py:110-129 | however tasks are scheduled they take a bounded number of steps, and when none can move all are finished |
| `Messages.MessageStore.AddMessage` | dragon_voice/messages.py:158-205 | the log is append-only |
| `Messages.MessageStore.GetContext` | dragon_voice/messages.py:245-267 | the system prompt, then the last rows as messages, in order, system rows left out |
| `Messages.TrimContextToBudget` | dragon_voice/messages.py:68-93 | the list keeps its first message and a suffix with the last one, fits or has two messages, and one removal fewer would not have fitted |
| `Messages.TrimIsLongestFitting` | dragon_voice/messages.py:68-93 | no longer suffix that fits exists |
| `Messages.TrimIsUnique` | dragon_voice/messages.py:68-93 | the result is determined |
| `Messages.TrimMonotone` | dragon_voice/messages.py:68-93 | a larger budget keeps at least as much |
| `Messages.LongerCostsMore` | dragon_voice/messages.py:63-65 | every message costs a token, so a longer suffix costs strictly more |
| `Messages.ImageCostsOneToken` | dragon_voice/messages.py:63-65 | a message with an image counts for one token, whatever its text and image |
| `Messages.PartsCostOneIff` | dragon_voice/messages.py:63-65 | a message of parts counts for one token if and only if it has at most seven |
| `History.BuildContext` | dragon_voice/conversation.py:566-652 | for every log, depth, filter setting and budget: the first message is the system prompt with memory and tool prose appended, and behind it come the newest of the last 10, 30 or as many rows as asked for that belong in a prompt (no system rows; without tool history where that is filtered), as many as the budget of 25600 or 100000 tokens allows and at least one |
| `History.FilteredSelects` | dragon_voice/conversation.py:600-613 | window and filter keep exactly those rows, in order: the filter drops tool rows and assistant texts whose first characters behind whitespace are `<tool>` |
| `History.DialogueKeptIff` | dragon_voice/conversation.py:600-613 | the tool-history filter keeps all questions and answers if and only if no answer begins like a tool call |
| `History.SessionKept` | dragon_voice/conversation.py:600-613 | on the log of any completed native turns the filter leaves what it leaves of the plain dialogue |
| `History.NativeHistoryIsDialogueTail` | dragon_voice/conversation.py:592-652 | after any such session the prompt is the system message and the end of the plain dialogue, up to the newest user message |
| `History.PreviousQuestionKeptIff` | dragon_voice/conversation.py:29-34 | the six-message window keeps the previous question exactly when that turn made at most one call |
| `ToolLoop.ProcessTextStream` | dragon_voice/conversation.py:691-904 | for every model: k <= 3 executed calls, k + 1 generations; the first context is what `BuildContext` promises, with the augmented system prompt; every executed call is the first one parsed from its reply, and the turn goes on while there is one and fewer than three were made; the log grows by user, k pairs in their tags and one answer, later contexts are the rebuilt log, and what is sent is the streamed parts and the stripped end |
| `ToolLoop.TurnDetermined` | dragon_voice/conversation.py:744-904 | a model behaviour leads to one turn only: calls run until the first reply without one or the limit |
| `ToolLoop.LastReplyShownIff` | dragon_voice/conversation.py:763-904 | the last reply of a turn is shown as it is stored without a registry, and with one less its complete blocks if and only if none of these begins in the streamed part; with lower-case tags always |
| `ToolLoop.RebuiltHolds` | dragon_voice/conversation.py:866-875 | a later generation sees the bare system prompt and all of the last twenty rows |
| `ToolLoop.NextCallOverBudgetIff` | dragon_voice/conversation.py:866-875 | a rebuilt context that fitted a budget is pushed over it by the next call if and only if that call's two rows cost more than what was left plus what the rows cost that leave the window |
| `ToolLoop.TrimmedRowComesBack` | dragon_voice/conversation.py:866-875 | a long message that trimming removed from the first context is back, over the budget, after one call |
| `ToolLoop.PlainTurnIsTransparent` | dragon_voice/conversation.py:763-904 | a turn without calls and tags shows what it stores |
| `ToolLoop.ProcessNative` | dragon_voice/conversation.py:911-1112 | the native turn through each exit: the same counts, rows and answer, each call and result logged in its tags; it ends by an answer, by the limit of three, or over an unknown tool, which counts a call that was not executed and shows nothing of the stored answer; an empty answer after calls is replaced |
| `ToolLoop.ShownIsStoredIff` | dragon_voice/conversation.py:911-1112 | the stored answer is what was shown unless the model named an unknown tool and gave text along with it, and only then |
| `ToolLoop.UnknownToolHidesAnswer` | dragon_voice/conversation.py:911-1112 | such a turn |
| `ToolLoop.NativeSession` | dragon_voice/conversation.py:911-1112 | any number of native turns, each with its own model behaviour, leave their rows in order, and each is prompted by the plain dialogue before it as long as no answer begins like a tool call |
| `AudioIngest.Pipeline.FeedChunk` | dragon_voice/pipeline.py:416-536 | a chunk is buffered whole or dropped, by mode, swap, processing and cap, with the latched event and the detector |
| `AudioIngest.Pipeline.DetectSpeech` | dragon_voice/pipeline.py:499-536 | the detector: three loud frames in a row to speak, silence long enough to trigger; `UtteranceEndsIff` says when over whole runs |
| `AudioIngest.Pipeline.StartProcessing` | dragon_voice/pipeline.py:538-583 | stop: a short buffer is dropped with a toast and the detector keeps its memory, a longer one is handed on and the detector reset |
| `AudioIngest.Pipeline.FinishCancel` | dragon_voice/pipeline.py:650-658 | cancel clears both buffers and the latches, not the detector |
| `AudioIngest.Pipeline.HandleStart` | dragon_voice/start_handler.py:72-81 | start clears the audio buffer, and in dictation the segment buffer |
| `AudioIngest.Pipeline.TakeSegment` | dragon_voice/pipeline.py:669-674 | a segment marker transcribes the segment buffer or drops it when short |
| `AudioIngest.Pipeline.EndDictation` | dragon_voice/pipeline.py:704-761 | the end of a dictation does that and drops the audio buffer |
| `AudioIngest.StepHandsOn` | dragon_voice/pipeline.py:416-583 | in bytes: a chunk is kept unless a swap, the five-minute cap or, outside dictation, processing drops it; a stop hands on 4000 or more, a segment is transcribed from 1600 on |
| `AudioIngest.ModesFollow` | dragon_voice/pipeline.py:416-761 | over every run the modes are what the commands made them |
| `AudioIngest.CapsHold` | dragon_voice/pipeline.py:449-494 | in every run neither buffer exceeds the cap, whatever the chunk sizes |
| `AudioIngest.AudioConserved` | dragon_voice/pipeline.py:416-583 | in every run, what a buffer accepted is what was handed on or discarded under a name, in order, followed by what it holds |
| `AudioIngest.CapEventOncePerFill` | dragon_voice/pipeline.py:439-494 | between two moments at which both buffers are empty each cap event is sent exactly once if a chunk is dropped for it and its latch was not set, and otherwise not at all |
| `AudioIngest.CapEventAgainAfterEmpty` | dragon_voice/pipeline.py:439-441 | after such a moment the next chunk makes the events due again, whatever was sent before |
| `AudioIngest.UtteranceEndsIff` | dragon_voice/pipeline.py:499-536 | after any run of a new pipeline a chunk ends the utterance if and only if it is analysed and silent, some loud chunk since the last utterance was the third or later in its row with no swap since, and at least `vad_silence_ms` have passed since the last such chunk; what goes on is the whole buffer |
| `AudioIngest.SilenceOf800Triggers` | dragon_voice/pipeline.py:519-525 | with 800 ms of silence asked for, a silent chunk 20 ms after the last voice ends nothing and one 800 ms after it does |
| `AudioIngest.LoudIff` | dragon_voice/pipeline.py:497-504 | a chunk of little-endian samples is loud if and only if their mean square is above 900 squared |
| `AudioIngest.ForgottenRunDebounced` | dragon_voice/pipeline.py:499-583 | in runs of feeding and stopping in which short stops found the detector idle, every utterance it triggers contains three loud frames in a row since the last clear |
| `AudioIngest.FreshPipelineDebounced` | dragon_voice/pipeline.py:499-583 | the same from a new pipeline |
| `AudioIngest.ShortStopDebouncedIff` | dragon_voice/pipeline.py:554-570 | after a stop that drops a short buffer the debounce holds for all that follows if and only if the detector was neither speaking nor counting |
| `AudioIngest.TapBreaksDebounce` | dragon_voice/pipeline.py:554-570 | a run of a new pipeline in which two loud frames trigger an utterance |
| `DictationPost.TurnIdentity` | dragon_voice/pipeline.py:782-894 | in every run, however calls overlap: an event that a task emits without a turn id of its own carries the turn captured at the spawn whatever turn is live, and the legacy frame for an abandoned task carries that task's turn |
| `DictationPost.ProgressCancelledRightIff` | dragon_voice/progress_emit.py:96-106 | its twin on the progress bus names no turn: it reaches the client under the abandoned task's turn if and only if no dictation and no text turn was started after that dictation |
| `DictationPost.SpawnCapturesItsTurn` | dragon_voice/pipeline.py:840-849 | the spawned task belongs to the dictation that was ended |
| `DictationPost.FinishDoes` | dragon_voice/pipeline.py:783-849 | from the steps of the run: the task and the working event are those of the dictation started last, the legacy frame carries the abandoned task's turn, and frames that name no turn go out under the turn announced last |
| `DictationPost.SpawnFindsLiveIff` | dragon_voice/pipeline.py:783-798 | a spawn finds another task live if and only if some cancel still waits for one |
| `DictationPost.OneAliveIff` | dragon_voice/pipeline.py:783-849 | over every run there is never more than one live task if and only if no task is spawned while a cancel waits for a live one |
| `DictationPost.DeadStaysSilent` | dragon_voice/pipeline.py:782-894 | a task that is done emits nothing more and stays done |
| `DictationPost.CancelIsQuietIff` | dragon_voice/pipeline.py:636-648 | `cancel()` is sure to return with no task live that existed at its call if and only if at the call no other cancel and no finish waits for a live one |
| `DictationPost.SpawnDuringCancel` | dragon_voice/pipeline.py:636-648 | a run in which a dictation ends while a cancel waits, which then returns with the new task live |
| `DictationPost.SecondCancelDoesNotWait` | dragon_voice/pipeline.py:636-648 | a second `cancel()` returns at once with the task live |
| `DictationPost.OverlapLeavesTwoLive` | dragon_voice/stale_conn_eviction.py:131 | a dictation that ends while the cancel of an eviction waits leaves two live tasks |
| `FallbackCache.WrittenOnce` | dragon_voice/fallback_stt_cache.py:84-145 | in every interleaving of prewarms and transcriptions the cell is written at most once and never replaced |
| `FallbackCache.NoInstanceLost` | dragon_voice/fallback_stt_cache.py:99-122 | when no prewarm runs, every prewarmed instance is cached and ready, shut down, or failed to load; every cold-loaded one is the cached one |
| `FallbackCache.PrewarmCaches` | dragon_voice/fallback_stt_cache.py:103-114 | once a prewarm has loaded a recogniser is cached for good: its own, ready, if the cell was empty, else the one there, while its own is shut down |
| `FallbackCache.ScheduleIff` | dragon_voice/fallback_stt_cache.py:84-96 | a prewarm is scheduled if and only if the cell is empty and none is in flight |
| `FallbackCache.CachedUseReadyIff` | dragon_voice/fallback_stt_cache.py:137-145 | a transcription that finds a recogniser cached uses it ready if and only if a prewarm made it or the load of the transcription that published it has succeeded earlier in the run |
| `FallbackCache.LoaderUsesReady` | dragon_voice/fallback_stt_cache.py:137-145 | the transcription that loads it uses it ready |
| `FallbackCache.OverlappingTranscriptions` | dragon_voice/fallback_stt_cache.py:137-145 | a run in which the second of two transcriptions uses a recogniser that is still loading |
| `Purge.Database.DeleteBatch` | dragon_voice/db_messages.py:218-232 | one DELETE with LIMIT: only old rows go, of sessions that are gone or ended and, for events, of none; when fewer than the limit went, every old row left is of an active or a paused session |
| `Purge.BatchedDelete` | dragon_voice/db_messages.py:206-271 | with sessions changing and rows removed and added between batches: only old rows of sessions ended or gone at that moment go, no other row goes but those the others removed, the count is right, every old row left at the end is of a session active or paused then; undisturbed, it deletes exactly what one DELETE would |
| `DocumentChunks.ChunkText` | dragon_voice/memory.py:363-376 | the loop stores the stripped non-blank windows in order, over ceil(n / 1848) windows |
| `DocumentChunks.InSomeWindowIff` | dragon_voice/memory.py:366-376 | a passage lies within one raw window if and only if its offset in the last window that begins before it plus its length is at most 2048; up to 201 characters always |
| `DocumentChunks.PhraseStored` | dragon_voice/memory.py:363-376 | every phrase of at most 201 characters that begins and ends in non-whitespace lies whole in a stored chunk |
| `DocumentChunks.WindowsRestoreText` | dragon_voice/memory.py:369-376 | the parts of the windows that the next one does not repeat join to the text |
| `DocumentChunks.StoredIsInk` | dragon_voice/memory.py:372-374 | a stored chunk is a non-blank part of the text, without space at its ends, of at most 2048 characters |
| `UdpFrames.DecodeEncode` | udp_streamer.py:447-448 | the packet format round-trips |
| `UdpFrames.Layout` | udp_streamer.py:447-448 | the header is big-endian: four bytes of the frame number, two of the index, two of the total |
| `UdpFrames.FragmentsAre` | udp_streamer.py:432-448 | the n-th datagram holds the frame from byte 1400 n on, 1400 bytes or the rest, under the frame number's low 32 bits, n and the number of datagrams |
| `UdpFrames.SendFrameUdp` | udp_streamer.py:432-448 | the datagrams are the fragments in order; it raises exactly for frames over 65535 * 1400 bytes, before the first one |
| `UdpFrames.DatagramSizes` | udp_streamer.py:443-448 | every datagram has 8 to 1408 bytes, and an empty frame is one bare header |
| `UdpFrames.ReassemblyRoundTrip` | udp_streamer.py:13-15 | reassembly from the headers alone (index and total) returns the frame exactly when all its datagrams arrived, in any order, repeated and mixed with those of other frames |
| `Resample.InterpolatesIff` | dragon_voice/audio.py:50-54 | the weights of an output lie between 0 and 1 exactly when it falls no later than the last input |
| `Resample.AlwaysBetweenIff` | dragon_voice/audio.py:47-55 | output i lies between its two neighbours for every int16 input if and only if it falls no later than the last input |
| `Resample.StaysInt16Iff` | dragon_voice/audio.py:47-55 | output i stays in int16 for every int16 input if and only if it overshoots the last input by less than 1/65535 of a step |
| `Resample.LoweringInterpolates` | dragon_voice/audio.py:47-55 | lowering the rate, every output lies between two adjacent inputs and never wraps int16 |
| `Resample.RaisingOverflows` | dragon_voice/audio.py:47-55 | raising the rate, an output can leave the int16 range |

## Left out

- WebSocket, HTTP, database, file, subprocess, socket and Opus calls: foreign code. What they return
  is a parameter; an Opus packet is modelled after decoding.
- Task slots, dictation tasks, the fallback cache and the interleaved pool are state machines on
  values, not classes: the code's fields change across awaits, and a class method has no await.
- The read loop being cancelled while it waits, handlers that never end, and the reaction of handler
  bodies to a cancellation: a body ends by itself, at any later time.
- The pool steps: a pipeline's shutdown is one step from where it reads its flags, and a second one does
  not reach an instance whose call has failed meanwhile; several connections that initialise the same pipeline.
- The router branch of `swap_llm`, and the mutable configuration object that the server shares with
  the pipeline: configurations are values.
- The pipeline without a pool is modelled on values, one backend slot at a time.
- The second filter assumes that the socket stays open; the code skips frames once it is closed.
- The disconnect's other duties (background tasks, surfaces, the session's pause, the device's state).
- Speech synthesis, text cleaning, `looks_like_useful_text` and the wording of fallbacks are
  parameters. Clock readings are arbitrary.
- The tool registry's parser, the tools, the model and the empty-reply wrap are parameters of the
  tool loops, as are the JSON forms of arguments and results. Exceptions in the event callbacks are
  swallowed by the code and not modelled.
- Multimodal hydration is a parameter, one for the first context and one for the rebuilt ones, which have
  no media store; the log holds the rows of one session.
- Message fields other than role and content, and `process_text`, which does not stream.
- The detector compares an exact mean square; the code rounds it to single precision. The resampler
  is modelled in exact rationals; a buffer of odd length, which makes numpy raise, is not modelled there.
- AudioIngest.Pipeline.FeedChunk: an odd chunk is buffered and not analysed, as in the code; that the
  conversion then raises out of the method is not visible in its result.
- Dictation: a finish with a short transcript spawns no task and is left out; the frames between the end of
  the wait and the spawn are one step.
- The fallback cache's own shutdown.
- Purge.BatchedDelete: requires a batch size of at least one, since the code's loop does not end
  with a smaller one; rows that others add meanwhile are assumed to be newer than the cutoff.
- `purge_old_messages` around the batches: the guard on days, the cutoff and the checkpoint.
- The Tab5 receiver is not part of this model: reassembly is the one that the packet header permits.
- Mode tables, acknowledgement and error frames, rate limits, surfaces, sessions, the scheduler, the
  dashboard and the telegram bot: one-branch facts or plumbing.
