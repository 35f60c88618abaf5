/** The two tool loops of the conversation engine, driven by a model that may answer anything:
    what they generate, execute, append to the log and show. */
module ToolLoop {
  import opened Text
  import opened Options
  import opened Messages
  import opened History
  import MarkerSplit
  import ToolBlocks
  import ToolMarkup

  const MAX_TOOL_CALLS: nat := 3
  const PROSE_REBUILD_WINDOW: nat := 20

  datatype Call = Call(name: string, args: string)

  // ----- the prose path ---------------------------------------------------------------------------

  // The foreign parts of a prose turn, all arbitrary: the token stream of generation i on a context,
  // the registry's detection, parsing and execution of calls, and the set of registered names.
  datatype ProseAgent = ProseAgent(
    model: (nat, seq<Message>) -> seq<string>,
    hasCall: string -> bool,
    parse: string -> seq<Call>,
    execute: (nat, Call) -> string,
    names: set<string>)

  // A generation that ended in an executed call: the reply and the JSON of the call's result.
  datatype ProseStep = ProseStep(reply: string, result: string)

  function StepRows(steps: seq<ProseStep>): seq<Row> {
    if steps == [] then []
    else
      var last := steps[|steps| - 1];
      StepRows(steps[..|steps| - 1]) + [Row(Assistant, last.reply), Row(Tool, ToolResult(last.result))]
  }

  function ToolResult(result: string): string { "<tool_result>" + result + "</tool_result>" }

  // hasRegistry says whether a tool registry is attached.
  predicate Calls(agent: ProseAgent, hasRegistry: bool, reply: string) {
    hasRegistry && agent.hasCall(reply) && agent.parse(reply) != []
  }

  // The context of generation |steps|: the prepared one first, afterwards the log rebuilt.
  function ContextAt(first: seq<Message>, rows: seq<Row>, steps: seq<ProseStep>, systemPrompt: string,
                     rehydrate: string -> Content): seq<Message> {
    if steps == [] then first
    else ContextOf(rows + StepRows(steps), PROSE_REBUILD_WINDOW, systemPrompt, rehydrate)
  }

  // One turn's inputs: rows is the log including the user's message; rehydrate is what hydration does
  // without a media store, as the rebuilt contexts use it.
  datatype ProseSetting = ProseSetting(agent: ProseAgent, hasRegistry: bool, first: seq<Message>, rows: seq<Row>,
                                       systemPrompt: string, rehydrate: string -> Content)

  function TokensAt(t: ProseSetting, steps: seq<ProseStep>): seq<string> {
    t.agent.model(|steps|, ContextAt(t.first, t.rows, steps, t.systemPrompt, t.rehydrate))
  }

  function ReplyAt(t: ProseSetting, steps: seq<ProseStep>): string { Concat(TokensAt(t, steps)) }

  // Every one of the steps is what the model's reply at that point leads to.
  ghost predicate Executed(t: ProseSetting, steps: seq<ProseStep>) {
    && |steps| <= MAX_TOOL_CALLS
    && forall i | 0 <= i < |steps| :: StepHappens(t, steps, i)
  }

  ghost predicate StepHappens(t: ProseSetting, steps: seq<ProseStep>, i: nat)
    requires i < |steps|
  {
    var reply := ReplyAt(t, steps[..i]);
    Calls(t.agent, t.hasRegistry, reply) && steps[i] == ProseStep(reply, t.agent.execute(i, t.agent.parse(reply)[0]))
  }

  ghost predicate Stops(t: ProseSetting, steps: seq<ProseStep>) {
    |steps| == MAX_TOOL_CALLS || !Calls(t.agent, t.hasRegistry, ReplyAt(t, steps))
  }

  // What one generation sends while it streams.
  ghost function SentWhileStreaming(t: ProseSetting, steps: seq<ProseStep>): string {
    if t.hasRegistry then MarkerSplit.Streamed(TokensAt(t, steps), MarkerSplit.TinkerMarkers(t.agent.names)).flushed
    else ReplyAt(t, steps)
  }

  ghost function SentBefore(t: ProseSetting, steps: seq<ProseStep>): string
    decreases |steps|
  {
    if steps == [] then ""
    else SentBefore(t, steps[..|steps| - 1]) + SentWhileStreaming(t, steps[..|steps| - 1])
  }

  ghost function SentAtEnd(t: ProseSetting, steps: seq<ProseStep>): string {
    if t.hasRegistry then
      ToolBlocks.Strip(MarkerSplit.Streamed(TokensAt(t, steps), MarkerSplit.TinkerMarkers(t.agent.names)).held)
    else ""
  }

  // The prose turn. However the model behaves it ends: `steps` are its executed calls, at most
  // MAX_TOOL_CALLS of them, and there is one generation more than that.
  method ProcessTextStream(store: MessageStore, userText: string, agent: ProseAgent, hasRegistry: bool,
                           isLocal: bool, extra: string, systemPrompt: string, hydrate: string -> Content,
                           rehydrate: string -> Content)
    returns (shown: seq<string>, ghost steps: seq<ProseStep>, ghost t: ProseSetting, generations: nat,
             toolCallsMade: nat, limitErrors: nat)
    modifies store
    ensures t.agent == agent && t.hasRegistry == hasRegistry && t.rows == old(store.rows) + [Row(User, userText)]
    ensures t.systemPrompt == systemPrompt && t.rehydrate == rehydrate
    ensures TrimmedTo(Untrimmed(t.rows, Depth(None, isLocal), false, extra, systemPrompt, hydrate), t.first,
                      Budget(isLocal))
    ensures t.first != [] && t.first[0] == Message(System, Plain(systemPrompt + extra))
    ensures Prompts(t.rows, if isLocal then 10 else 30, false, hydrate, if isLocal then 25600 else 100000, t.first)
    ensures Executed(t, steps) && Stops(t, steps)
    ensures toolCallsMade == |steps| && generations == |steps| + 1
    ensures store.rows
         == old(store.rows) + [Row(User, userText)] + StepRows(steps) + [Row(Assistant, ReplyAt(t, steps))]
    ensures EachCalled(agent, hasRegistry, steps) && StepsLogged(store.rows, |old(store.rows)| + 1, steps)
    ensures |steps| <= 3 && |store.rows| == |old(store.rows)| + 2 + 2 * |steps|
    ensures var reply := store.rows[|store.rows| - 1].text;
            |steps| < 3 ==> !(hasRegistry && agent.hasCall(reply) && agent.parse(reply) != [])
    ensures Concat(shown) == SentBefore(t, steps) + SentWhileStreaming(t, steps) + SentAtEnd(t, steps)
    ensures limitErrors == if hasRegistry && agent.hasCall(ReplyAt(t, steps)) && |steps| == MAX_TOOL_CALLS then 1 else 0
  {
    hide Untrimmed, TrimmedTo, Prompts, EachCalled, StepsLogged, Executed, StepRows, SentBefore, ToolResult, ContextOf,
         MarkerSplit.Streamed,
         MarkerSplit.WellShaped, MarkerSplit.TinkerMarkers, ToolBlocks.Strip, Concat;
    store.AddMessage(Row(User, userText));
    var context := BuildContext(store, isLocal, None, false, extra, systemPrompt, hydrate);
    t := ProseSetting(agent, hasRegistry, context, store.rows, systemPrompt, rehydrate);
    steps, shown, generations, toolCallsMade, limitErrors := [], [], 0, 0, 0;
    NoStepYet(t);
    var responseText;
    var m := MarkerSplit.TinkerMarkers(agent.names);
    MarkerSplit.TinkerMarkersWellShaped(agent.names);
    while true
      invariant Executed(t, steps) && |steps| <= MAX_TOOL_CALLS && toolCallsMade == |steps| == generations
                && limitErrors == 0
      invariant context == ContextAt(t.first, t.rows, steps, systemPrompt, rehydrate)
      invariant store.rows == t.rows + StepRows(steps)
      invariant Concat(shown) == SentBefore(t, steps)
      decreases MAX_TOOL_CALLS - |steps|
    {
      var held, pieces;
      pieces, held, responseText := MarkerSplit.StreamGeneration(agent.model(generations, context), m, hasRegistry);
      generations := generations + 1;
      ConcatAppend(shown, pieces);
      shown := shown + pieces;
      if hasRegistry && agent.hasCall(responseText) && toolCallsMade >= MAX_TOOL_CALLS {
        limitErrors := limitErrors + 1;
      }
      if hasRegistry && agent.hasCall(responseText) && toolCallsMade < MAX_TOOL_CALLS {
        var toolCalls := agent.parse(responseText);
        if toolCalls != [] {
          var result := agent.execute(toolCallsMade, toolCalls[0]);
          toolCallsMade := toolCallsMade + 1;
          store.AddMessage(Row(Assistant, responseText));
          store.AddMessage(Row(Tool, ToolResult(result)));
          context := store.GetContext(PROSE_REBUILD_WINDOW, systemPrompt, rehydrate);
          OneMoreStep(t, steps, ProseStep(responseText, result));
          steps := steps + [ProseStep(responseText, result)];
          assert store.rows == t.rows + StepRows(steps);
          continue;
        }
      }
      if hasRegistry && held != "" {
        var cleaned := ToolBlocks.Strip(held);
        if cleaned != "" {
          ConcatSnoc(shown, cleaned);
          shown := shown + [cleaned];
        }
      }
      break;
    }
    store.AddMessage(Row(Assistant, responseText));
    StepsRead(t, steps, Row(Assistant, responseText));
  }

  // Every step's reply held a call that parses, and its result is that of the first one.
  ghost predicate EachCalled(agent: ProseAgent, hasRegistry: bool, steps: seq<ProseStep>) {
    forall i | 0 <= i < |steps| :: Called(agent, hasRegistry, i, steps[i])
  }

  ghost predicate Called(agent: ProseAgent, hasRegistry: bool, i: nat, step: ProseStep) {
    && hasRegistry && agent.hasCall(step.reply) && agent.parse(step.reply) != []
    && step.result == agent.execute(i, agent.parse(step.reply)[0])
  }

  // The log from row n on holds the two rows of each step.
  ghost predicate StepsLogged(rows: seq<Row>, n: nat, steps: seq<ProseStep>) {
    && n + 2 * |steps| <= |rows|
    && forall i | 0 <= i < |steps| ::
         && rows[n + 2 * i] == Row(Assistant, steps[i].reply)
         && rows[n + 2 * i + 1] == Row(Tool, "<tool_result>" + steps[i].result + "</tool_result>")
  }

  lemma StepsRead(t: ProseSetting, steps: seq<ProseStep>, last: Row)
    requires Executed(t, steps)
    ensures |StepRows(steps)| == 2 * |steps|
    ensures EachCalled(t.agent, t.hasRegistry, steps) && StepsLogged(t.rows + StepRows(steps) + [last], |t.rows|, steps)
  {
    hide StepRows, StepsLogged;
    StepRowsAt(steps);
    StepsLoggedIn(t.rows, steps, [last]);
    forall i | 0 <= i < |steps| ensures Called(t.agent, t.hasRegistry, i, steps[i]) {
      assert StepHappens(t, steps, i);
    }
  }

  lemma {:induction false} StepRowsAt(steps: seq<ProseStep>)
    ensures |StepRows(steps)| == 2 * |steps| && StepsLogged(StepRows(steps), 0, steps)
  {
    if steps != [] {
      StepRowsAt(steps[..|steps| - 1]);
    }
  }

  lemma StepsLoggedIn(before: seq<Row>, steps: seq<ProseStep>, after: seq<Row>)
    ensures StepsLogged(before + StepRows(steps) + after, |before|, steps)
  {
    hide StepRows;
    StepRowsAt(steps);
    var rows, all := StepRows(steps), before + StepRows(steps) + after;
    forall k | 0 <= k < |rows| ensures all[|before| + k] == rows[k] {
    }
    forall i | 0 <= i < |steps|
      ensures all[|before| + 2 * i] == Row(Assistant, steps[i].reply)
      ensures all[|before| + 2 * i + 1] == Row(Tool, "<tool_result>" + steps[i].result + "</tool_result>")
    {
      assert all[|before| + 2 * i] == rows[2 * i] && all[|before| + (2 * i + 1)] == rows[2 * i + 1];
    }
  }

  lemma NoStepYet(t: ProseSetting)
    ensures Executed(t, []) && StepRows([]) == [] && SentBefore(t, []) == "" && Concat([]) == ""
  {
  }

  lemma OneMoreStep(t: ProseSetting, steps: seq<ProseStep>, step: ProseStep)
    requires Executed(t, steps) && |steps| < MAX_TOOL_CALLS
    requires Calls(t.agent, t.hasRegistry, ReplyAt(t, steps)) && step.reply == ReplyAt(t, steps)
    requires step.result == t.agent.execute(|steps|, t.agent.parse(step.reply)[0])
    ensures Executed(t, steps + [step])
    ensures StepRows(steps + [step])
         == StepRows(steps) + [Row(Assistant, step.reply), Row(Tool, ToolResult(step.result))]
    ensures SentBefore(t, steps + [step]) == SentBefore(t, steps) + SentWhileStreaming(t, steps)
  {
    var more := steps + [step];
    assert more[..|steps|] == steps;
    forall i | 0 <= i < |more| ensures StepHappens(t, more, i) {
      if i < |steps| {
        assert StepHappens(t, steps, i);
        assert more[..i] == steps[..i];
      }
    }
  }

  // The rows decide the turn: for one behaviour of the model there is exactly one number of calls
  // and one log, the calls ending at the first reply without one or at the limit.
  lemma {:induction false} TurnDetermined(t: ProseSetting, a: seq<ProseStep>, b: seq<ProseStep>)
    requires Executed(t, a) && Stops(t, a) && Executed(t, b) && Stops(t, b)
    ensures a == b
  {
    SameStart(t, a, b, if |a| < |b| then |a| else |b|);
    if |a| < |b| {
      GoesOn(t, a, b);
    } else if |b| < |a| {
      GoesOn(t, b, a);
    } else {
      assert a[..|a|] == a && b[..|b|] == b;
    }
  }

  lemma GoesOn(t: ProseSetting, a: seq<ProseStep>, b: seq<ProseStep>)
    requires Executed(t, b) && |a| < |b| && a[..|a|] == b[..|a|]
    ensures !Stops(t, a)
  {
    assert a[..|a|] == a;
    assert StepHappens(t, b, |a|);
  }

  lemma {:induction false} SameStart(t: ProseSetting, a: seq<ProseStep>, b: seq<ProseStep>, n: nat)
    requires Executed(t, a) && Executed(t, b) && n <= |a| && n <= |b|
    ensures a[..n] == b[..n]
  {
    if n > 0 {
      SameStart(t, a, b, n - 1);
      assert StepHappens(t, a, n - 1) && StepHappens(t, b, n - 1);
      assert a[..n] == a[..n - 1] + [a[n - 1]] && b[..n] == b[..n - 1] + [b[n - 1]];
    }
  }

  // A reply that calls no tool and holds no tag is shown exactly as it is stored.
  lemma PlainTurnIsTransparent(t: ProseSetting)
    requires ToolMarkup.Untagged(ReplyAt(t, []))
    ensures SentWhileStreaming(t, []) + SentAtEnd(t, []) == ReplyAt(t, [])
  {
    if t.hasRegistry {
      var r := MarkerSplit.Streamed(TokensAt(t, []), MarkerSplit.TinkerMarkers(t.agent.names));
      ToolMarkup.PendingUntagged(r.flushed, r.held, ReplyAt(t, []));
    }
  }

  // The last reply of a turn is shown as it is stored without a registry, and with one as it is stored
  // less its complete blocks, exactly when none of these begins in what went out while it streamed; with
  // tags in lower case none does.
  lemma LastReplyShownIff(t: ProseSetting, steps: seq<ProseStep>)
    ensures var shown, reply := SentWhileStreaming(t, steps) + SentAtEnd(t, steps), ReplyAt(t, steps);
            if t.hasRegistry then
              && (shown == ToolBlocks.Strip(reply) <==>
                  forall i: nat | i < |SentWhileStreaming(t, steps)| :: !ToolBlocks.BlockAt(reply, i))
              && (ToolMarkup.LowerCaseTags(reply) ==> shown == ToolBlocks.Strip(reply))
            else shown == reply
  {
    hide ToolBlocks.Strip, ToolBlocks.BlockAt, MarkerSplit.Streamed, Concat;
    if t.hasRegistry {
      ToolMarkup.ShownIsStoredStrippedIff(TokensAt(t, steps), t.agent.names);
      if ToolMarkup.LowerCaseTags(ReplyAt(t, steps)) {
        ToolMarkup.LowerCaseIsStripped(TokensAt(t, steps), t.agent.names);
      }
    }
  }

  // ----- the budget of the later generations ------------------------------------------------------

  function RowsCost(rows: seq<Row>, rehydrate: string -> Content): nat {
    if rows == [] then 0
    else
      var last := rows[|rows| - 1];
      RowsCost(rows[..|rows| - 1], rehydrate) + if last.role == System then 0 else EstimateTokens(rehydrate(last.text))
  }

  lemma {:induction false} TotalAppend(a: seq<Message>, b: seq<Message>)
    ensures Total(a + b) == Total(a) + Total(b)
  {
    if a == [] {
      assert a + b == b;
    } else {
      assert (a + b)[1..] == a[1..] + b;
      TotalAppend(a[1..], b);
    }
  }

  lemma {:induction false} HydratedCost(rows: seq<Row>, rehydrate: string -> Content)
    ensures Total(Hydrated(rows, rehydrate)) == RowsCost(rows, rehydrate)
  {
    if rows != [] {
      var n := |rows| - 1;
      HydratedCost(rows[..n], rehydrate);
      var added := if rows[n].role == System then [] else [Message(rows[n].role, rehydrate(rows[n].text))];
      TotalAppend(Hydrated(rows[..n], rehydrate), added);
    }
  }

  // A generation after a tool call costs the system prompt and the last twenty rows: nothing trims it.
  lemma RebuiltCost(t: ProseSetting, steps: seq<ProseStep>)
    requires steps != []
    ensures Total(ContextAt(t.first, t.rows, steps, t.systemPrompt, t.rehydrate))
         == EstimateTokens(Plain(t.systemPrompt))
            + RowsCost(Window(t.rows + StepRows(steps), PROSE_REBUILD_WINDOW), t.rehydrate)
  {
    var w := Window(t.rows + StepRows(steps), PROSE_REBUILD_WINDOW);
    TotalAppend([Message(System, Plain(t.systemPrompt))], Hydrated(w, t.rehydrate));
    HydratedCost(w, t.rehydrate);
    assert [Message(System, Plain(t.systemPrompt))][1..] == [];
  }

  // It holds the newest twenty rows, apart from the system's, with nothing filtered and nothing trimmed.
  lemma RebuiltHolds(t: ProseSetting, steps: seq<ProseStep>) returns (at: seq<nat>)
    requires steps != []
    ensures var rows, context := t.rows + StepRows(steps),
                                 ContextAt(t.first, t.rows, steps, t.systemPrompt, t.rehydrate);
            && Selects(rows, if |rows| > 20 then |rows| - 20 else 0, false, t.rehydrate, at)
            && (forall k | 0 <= k < |at| :: at[k] < |rows|)
            && context == [Message(System, Plain(t.systemPrompt))] + MessagesAt(rows, at, t.rehydrate)
  {
    hide Selects, StepRows;
    var rows := t.rows + StepRows(steps);
    var from := if |rows| > 20 then |rows| - 20 else 0;
    at := FilteredSelects(rows, from, false, t.rehydrate);
    SelectedRows(rows, from, false, t.rehydrate, at);
    assert rows[from..] == Window(rows, PROSE_REBUILD_WINDOW);
  }

  lemma {:induction false} RowsCostAppend(a: seq<Row>, b: seq<Row>, rehydrate: string -> Content)
    ensures RowsCost(a + b, rehydrate) == RowsCost(a, rehydrate) + RowsCost(b, rehydrate)
  {
    if b == [] {
      assert a + b == a;
    } else {
      var n := |b| - 1;
      assert (a + b)[..|a + b| - 1] == a + b[..n] && (a + b)[|a + b| - 1] == b[n];
      RowsCostAppend(a, b[..n], rehydrate);
    }
  }

  // The two rows of an executed call.
  function CallRows(step: ProseStep): seq<Row> { [Row(Assistant, step.reply), Row(Tool, ToolResult(step.result))] }

  // The rows that the next two push out of a full window.
  function PushedOut(rows: seq<Row>): seq<Row> {
    var w := Window(rows, PROSE_REBUILD_WINDOW);
    if |w| + 2 > PROSE_REBUILD_WINDOW then w[..|w| + 2 - PROSE_REBUILD_WINDOW] else []
  }

  lemma WindowSlides(rows: seq<Row>, step: ProseStep)
    ensures var w := Window(rows, PROSE_REBUILD_WINDOW);
            Window(rows + CallRows(step), PROSE_REBUILD_WINDOW) == w[|PushedOut(rows)|..] + CallRows(step)
            && w == PushedOut(rows) + w[|PushedOut(rows)|..]
  {
  }

  // A rebuilt context that fitted a budget is pushed over it by the next call exactly when that call's two
  // rows cost more than what was left of the budget and what the rows cost that leave the window for them.
  lemma NextCallOverBudgetIff(t: ProseSetting, steps: seq<ProseStep>, step: ProseStep, budget: nat)
    requires steps != []
    ensures var fitted := Total(ContextAt(t.first, t.rows, steps, t.systemPrompt, t.rehydrate));
            var next := Total(ContextAt(t.first, t.rows, steps + [step], t.systemPrompt, t.rehydrate));
            fitted <= budget ==>
              (next > budget <==>
               RowsCost(CallRows(step), t.rehydrate)
               > (budget - fitted) + RowsCost(PushedOut(t.rows + StepRows(steps)), t.rehydrate))
  {
    hide ContextAt, RowsCost, PushedOut, Window, CallRows;
    var rows := t.rows + StepRows(steps);
    RebuiltCost(t, steps);
    RebuiltCost(t, steps + [step]);
    StepRowsGrow(t, steps, step);
    WindowSlides(rows, step);
    var w, out := Window(rows, PROSE_REBUILD_WINDOW), PushedOut(rows);
    RowsCostAppend(out, w[|out|..], t.rehydrate);
    RowsCostAppend(w[|out|..], CallRows(step), t.rehydrate);
  }

  lemma StepRowsGrow(t: ProseSetting, steps: seq<ProseStep>, step: ProseStep)
    ensures t.rows + StepRows(steps + [step]) == (t.rows + StepRows(steps)) + CallRows(step)
  {
    assert (steps + [step])[..|steps|] == steps;
  }

  // A long old message that the first generation's trimming removes is back after a tool call, and
  // over the budget on its own.
  lemma TrimmedRowComesBack(long: string, step: ProseStep, t: ProseSetting, extra: string, hydrate: string -> Content)
    requires |long| == 4 * CONTEXT_BUDGET_LOCAL && hydrate(long) == t.rehydrate(long) == Plain(long)
    requires t.rows == [Row(User, long), Row(User, "hi")]
    requires TrimmedTo(Untrimmed(t.rows, LOCAL_WINDOW, false, extra, t.systemPrompt, hydrate), t.first,
                       CONTEXT_BUDGET_LOCAL)
    ensures |t.first| == 2 && t.first[1] == Message(User, hydrate("hi"))
    ensures Total(ContextAt(t.first, t.rows, [step], t.systemPrompt, t.rehydrate)) > CONTEXT_BUDGET_LOCAL
  {
    hide Concat, TrimmedTo, Total;
    TwoRows(t.rows, extra, t.systemPrompt, hydrate);
    LongIsTrimmed(Untrimmed(t.rows, LOCAL_WINDOW, false, extra, t.systemPrompt, hydrate), t.first,
                  CONTEXT_BUDGET_LOCAL);
    RebuiltCost(t, [step]);
    var rows := t.rows + StepRows([step]);
    assert [step][..0] == [];
    assert |StepRows([step])| == 2;
    assert Window(rows, PROSE_REBUILD_WINDOW) == rows;
    FirstRowCosts(rows, t.rehydrate);
  }

  lemma TwoRows(rows: seq<Row>, extra: string, systemPrompt: string, hydrate: string -> Content)
    requires |rows| == 2 && rows[0].role == User && rows[1].role == User
    ensures var all := Untrimmed(rows, LOCAL_WINDOW, false, extra, systemPrompt, hydrate);
            && |all| == 3 && all[1] == Message(User, hydrate(rows[0].text))
            && all[2] == Message(User, hydrate(rows[1].text))
  {
    assert Window(rows, LOCAL_WINDOW) == rows;
    assert rows[..1][..0] == [];
    assert Hydrated(rows[..1], hydrate) == [Message(User, hydrate(rows[0].text))];
    assert Hydrated(rows, hydrate) == [Message(User, hydrate(rows[0].text)), Message(User, hydrate(rows[1].text))];
  }

  lemma LongIsTrimmed(before: seq<Message>, after: seq<Message>, budget: nat)
    requires |before| == 3 && before[1].content.Plain? && |before[1].content.text| == 4 * budget
    requires TrimmedTo(before, after, budget)
    ensures after == [before[0], before[2]]
  {
    assert before[1..][1..] == [before[2]];
    assert Total(before) == EstimateTokens(before[0].content) + EstimateTokens(before[1].content) + Total([before[2]]);
    assert Keeping(before, 1) == before && |before| == 3;
    var j :| 1 <= j < |before| && IsTrim(before, after, budget, j);
    assert j == 2;
  }

  lemma {:induction false} FirstRowCosts(rows: seq<Row>, rehydrate: string -> Content)
    requires rows != [] && rows[0].role == User
    ensures RowsCost(rows, rehydrate) >= EstimateTokens(rehydrate(rows[0].text))
  {
    if |rows| > 1 {
      FirstRowCosts(rows[..|rows| - 1], rehydrate);
    }
  }

  // ----- the native path --------------------------------------------------------------------------

  // generate_with_tools: the structured calls and the content ("" for None).
  datatype Reply = Reply(calls: seq<Call>, content: string)

  // The model's answer to the static prefix and the turn's exchanges so far, the registry's
  // lookup and execution, the compaction of results and the wrap for an empty reply.
  datatype NativeAgent = NativeAgent(
    model: (seq<Message>, seq<ToolUse>) -> Reply,
    known: string -> bool,
    execute: (nat, Call) -> string,
    compact: string -> string,
    wrap: seq<ToolUse> -> string)

  datatype Exit = Answered | LimitReached | UnknownTool

  ghost predicate NativeExecuted(agent: NativeAgent, prefix: seq<Message>, uses: seq<ToolUse>) {
    |uses| <= MAX_TOOL_CALLS && forall i | 0 <= i < |uses| :: UseHappens(agent, prefix, uses, i)
  }

  ghost predicate UseHappens(agent: NativeAgent, prefix: seq<Message>, uses: seq<ToolUse>, i: nat)
    requires i < |uses|
  {
    var reply := agent.model(prefix, uses[..i]);
    && reply.calls != [] && agent.known(reply.calls[0].name)
    && uses[i] == ToolUse(reply.calls[0].name, reply.calls[0].args, agent.compact(agent.execute(i, reply.calls[0])))
  }

  // How the loop leaves after the executed uses.
  function ExitAfter(agent: NativeAgent, prefix: seq<Message>, uses: seq<ToolUse>): Option<Exit> {
    var reply := agent.model(prefix, uses);
    if reply.calls == [] then Some(Answered)
    else if |uses| >= MAX_TOOL_CALLS then Some(LimitReached)
    else if !agent.known(reply.calls[0].name) then Some(UnknownTool)
    else None
  }

  function AnswerAfter(agent: NativeAgent, prefix: seq<Message>, uses: seq<ToolUse>): string {
    var content := agent.model(prefix, uses).content;
    if ExitAfter(agent, prefix, uses) != Some(UnknownTool) && content == "" && uses != [] then agent.wrap(uses)
    else content
  }

  // What the user sees of the answer.
  function ShownAfter(agent: NativeAgent, prefix: seq<Message>, uses: seq<ToolUse>): string {
    if ExitAfter(agent, prefix, uses) == Some(UnknownTool) then "" else AnswerAfter(agent, prefix, uses)
  }

  // The stored answer is what was shown, exactly unless the model named an unknown tool and gave text
  // along with it.
  lemma ShownIsStoredIff(agent: NativeAgent, prefix: seq<Message>, uses: seq<ToolUse>)
    ensures ShownAfter(agent, prefix, uses) == AnswerAfter(agent, prefix, uses) <==>
            !(ExitAfter(agent, prefix, uses) == Some(UnknownTool) && agent.model(prefix, uses).content != "")
  {
  }

  // Such a turn: the model asks for a tool that does not exist and says so.
  lemma UnknownToolHidesAnswer(prefix: seq<Message>, content: string)
    requires content != ""
    ensures var agent := NativeAgent((p: seq<Message>, u: seq<ToolUse>) => Reply([Call("fly", "{}")], content),
                                     (name: string) => false,
                                     (n: nat, c: Call) => "", (s: string) => s, (u: seq<ToolUse>) => "");
            NativeExecuted(agent, prefix, []) && ExitAfter(agent, prefix, []) == Some(UnknownTool)
            && AnswerAfter(agent, prefix, []) == content && ShownAfter(agent, prefix, []) == ""
  {
  }

  // The native turn appends the user's message, one pair per executed call and one answer, by
  // whichever exit it leaves. Leaving over an unknown tool it shows nothing of the answer it stores.
  method ProcessNative(store: MessageStore, userText: string, agent: NativeAgent, isLocal: bool,
                       guidance: string, fewShot: seq<Message>, systemPrompt: string, hydrate: string -> Content)
    returns (shown: seq<string>, turn: NativeTurn, exit: Exit, ghost history: seq<Message>, ghost prefix: seq<Message>,
             generations: nat, toolCallsMade: nat, errors: nat)
    modifies store
    ensures TrimmedTo(Untrimmed(old(store.rows) + [Row(User, userText)], NATIVE_HISTORY_MSGS, true, "", systemPrompt,
                                hydrate),
                      history, Budget(isLocal))
    ensures Prompts(old(store.rows) + [Row(User, userText)], 6, true, hydrate, if isLocal then 25600 else 100000,
                    history)
    ensures |history| >= 1 && prefix == [Message(System, Plain(systemPrompt + guidance))] + fewShot + history[1..]
    ensures turn.user == userText && NativeExecuted(agent, prefix, turn.uses)
    ensures ExitAfter(agent, prefix, turn.uses) == Some(exit) && turn.answer == AnswerAfter(agent, prefix, turn.uses)
    ensures store.rows == old(store.rows) + TurnRows(turn)
    ensures generations == |turn.uses| + 1
    ensures toolCallsMade == |turn.uses| + (if exit == UnknownTool then 1 else 0) <= MAX_TOOL_CALLS
    ensures errors == if exit == Answered then 0 else 1
    ensures Concat(shown) == ShownAfter(agent, prefix, turn.uses)
    ensures Concat(shown) == if exit == UnknownTool then "" else turn.answer
    ensures |turn.uses| <= 3 && |store.rows| == |old(store.rows)| + 2 + 2 * |turn.uses|
    ensures store.rows[|old(store.rows)|] == Row(User, userText)
            && UsesLogged(store.rows, |old(store.rows)| + 1, turn.uses)
            && store.rows[|store.rows| - 1] == Row(Assistant, turn.answer)
    ensures var reply := agent.model(prefix, turn.uses);
            && (exit == Answered <==> reply.calls == [])
            && (exit == LimitReached <==> reply.calls != [] && |turn.uses| == 3)
            && (exit == UnknownTool ==> !agent.known(reply.calls[0].name))
            && (turn.answer == if reply.content == "" && turn.uses != [] && exit != UnknownTool
                               then agent.wrap(turn.uses) else reply.content)
  {
    hide Untrimmed, TrimmedTo, Prompts, UsesLogged, NativeExecuted, UseRows, CallRow, ResultRow, Concat;
    var user := Row(User, userText);
    store.AddMessage(user);
    ghost var base := old(store.rows);
    var context := BuildContext(store, isLocal, Some(NATIVE_HISTORY_MSGS), true, "", systemPrompt, hydrate);
    history := context;
    assert systemPrompt + "" == systemPrompt;
    context := [Message(System, Plain(context[0].content.text + guidance))] + fewShot + context[1..];
    prefix := context;
    var uses: seq<ToolUse> := [];
    var responseText;
    generations, toolCallsMade, errors, shown := 0, 0, 0, [];
    NoUseYet(agent, context);
    while true
      invariant NativeExecuted(agent, context, uses) && |uses| <= MAX_TOOL_CALLS
                && toolCallsMade == |uses| == generations && errors == 0 && shown == []
      invariant store.rows == base + [user] + UseRows(uses)
      decreases MAX_TOOL_CALLS - |uses|
    {
      var result := agent.model(context, uses);
      generations := generations + 1;
      responseText := result.content;
      if result.calls != [] && toolCallsMade < MAX_TOOL_CALLS {
        var call := result.calls[0];
        toolCallsMade := toolCallsMade + 1;
        if !agent.known(call.name) {
          errors := errors + 1;
          exit := UnknownTool;
          break;
        }
        var use := ToolUse(call.name, call.args, agent.compact(agent.execute(|uses|, call)));
        store.AddMessage(CallRow(use));
        store.AddMessage(ResultRow(use));
        OneMoreUse(agent, context, uses, use);
        uses := uses + [use];
        assert store.rows == base + [user] + UseRows(uses);
        continue;
      }
      exit := Answered;
      if result.calls != [] {
        exit := LimitReached;
        errors := errors + 1;
      }
      if responseText == "" && uses != [] {
        responseText := agent.wrap(uses);
      }
      if responseText != "" {
        shown := [responseText];
        OneToken(responseText);
      }
      break;
    }
    store.AddMessage(Row(Assistant, responseText));
    turn := NativeTurn(userText, uses, responseText);
    assert base + [user] + UseRows(uses) + [Row(Assistant, responseText)] == base + TurnRows(turn);
    UseRowsAt(uses);
    UsesLoggedIn(base + [user], uses, [Row(Assistant, responseText)]);
  }

  lemma OneToken(token: string)
    ensures Concat([token]) == token
  {
    assert [token][..0] == [];
    assert "" + token == token;
  }

  lemma NoUseYet(agent: NativeAgent, prefix: seq<Message>)
    ensures NativeExecuted(agent, prefix, []) && UseRows([]) == [] && Concat([]) == ""
  {
  }

  lemma OneMoreUse(agent: NativeAgent, prefix: seq<Message>, uses: seq<ToolUse>, use: ToolUse)
    requires NativeExecuted(agent, prefix, uses) && |uses| < MAX_TOOL_CALLS
    requires ExitAfter(agent, prefix, uses) == None
    requires var call := agent.model(prefix, uses).calls[0];
             use == ToolUse(call.name, call.args, agent.compact(agent.execute(|uses|, call)))
    ensures NativeExecuted(agent, prefix, uses + [use])
    ensures UseRows(uses + [use]) == UseRows(uses) + [CallRow(use), ResultRow(use)]
  {
    hide UseHappens, NativeExecuted, ExitAfter, UseRows;
    UseIsNew(agent, prefix, uses, use);
    ExecutedGrows(agent, prefix, uses, use);
    RowsGrow(uses, use);
  }

  lemma RowsGrow(uses: seq<ToolUse>, use: ToolUse)
    ensures UseRows(uses + [use]) == UseRows(uses) + [CallRow(use), ResultRow(use)]
  {
    hide CallRow, ResultRow;
    assert (uses + [use])[..|uses|] == uses;
  }

  lemma ExecutedGrows(agent: NativeAgent, prefix: seq<Message>, uses: seq<ToolUse>, use: ToolUse)
    requires NativeExecuted(agent, prefix, uses) && |uses| < MAX_TOOL_CALLS
    requires UseHappens(agent, prefix, uses + [use], |uses|)
    ensures NativeExecuted(agent, prefix, uses + [use])
  {
    hide UseHappens;
    forall i | 0 <= i < |uses| ensures UseHappens(agent, prefix, uses + [use], i) {
      UseStays(agent, prefix, uses, use, i);
    }
  }

  lemma UseStays(agent: NativeAgent, prefix: seq<Message>, uses: seq<ToolUse>, use: ToolUse, i: nat)
    requires i < |uses| && UseHappens(agent, prefix, uses, i)
    ensures UseHappens(agent, prefix, uses + [use], i)
  {
    assert (uses + [use])[..i] == uses[..i];
  }

  lemma UseIsNew(agent: NativeAgent, prefix: seq<Message>, uses: seq<ToolUse>, use: ToolUse)
    requires ExitAfter(agent, prefix, uses) == None
    requires var call := agent.model(prefix, uses).calls[0];
             use == ToolUse(call.name, call.args, agent.compact(agent.execute(|uses|, call)))
    ensures UseHappens(agent, prefix, uses + [use], |uses|)
  {
    assert (uses + [use])[..|uses|] == uses;
  }

  // ----- a whole session of native turns ----------------------------------------------------------

  ghost predicate PlainSoFar(turns: seq<NativeTurn>, k: nat, hydrate: string -> Content) {
    k <= |turns| && forall i | 0 <= i < k :: PlainAnswer(turns[i], hydrate)
  }

  ghost predicate PromptedByDialogue(history: seq<Message>, turns: seq<NativeTurn>, k: nat, systemPrompt: string,
                                     hydrate: string -> Content) {
    k < |turns| && DialogueTail(history, turns[..k], turns[k].user, systemPrompt, hydrate)
  }

  // Any number of native turns on a fresh log, each with its own model behaviour, leave their rows in
  // order, and as long as no answer begins like a tool call, every turn is prompted by the plain
  // dialogue before it.
  method NativeSession(userTexts: seq<string>, agents: seq<NativeAgent>, isLocal: bool, guidance: string,
                       fewShot: seq<Message>, systemPrompt: string, hydrate: string -> Content)
    returns (store: MessageStore, turns: seq<NativeTurn>, ghost histories: seq<seq<Message>>)
    requires HydratesMarkedOnly(hydrate) && |agents| == |userTexts|
    ensures fresh(store) && store.rows == SessionRows(turns) && |turns| == |histories| == |userTexts|
    ensures forall k | 0 <= k < |turns| :: turns[k].user == userTexts[k] && |turns[k].uses| <= MAX_TOOL_CALLS
    ensures forall k | 0 <= k < |turns| && PlainSoFar(turns, k, hydrate) ::
              PromptedByDialogue(histories[k], turns, k, systemPrompt, hydrate)
  {
    hide TurnRows, NativeExecuted, Untrimmed, TrimmedTo, ExitAfter, AnswerAfter, ShownAfter, Concat, DialogueTail,
         PlainAnswer, HydratesMarkedOnly, SessionRows, PromptedByDialogue, PlainSoFar, Budget;
    store := new MessageStore();
    turns, histories := [], [];
    NoTurns();
    for k := 0 to |userTexts|
      invariant fresh(store) && store.rows == SessionRows(turns) && |turns| == |histories| == k
      invariant forall i | 0 <= i < k :: turns[i].user == userTexts[i] && |turns[i].uses| <= MAX_TOOL_CALLS
      invariant forall i | 0 <= i < k && PlainSoFar(turns, i, hydrate) ::
                  PromptedByDialogue(histories[i], turns, i, systemPrompt, hydrate)
    {
      var shown, turn, exit, history, prefix, generations, toolCallsMade, errors :=
        ProcessNative(store, userTexts[k], agents[k], isLocal, guidance, fewShot, systemPrompt, hydrate);
      NextPrompt(turns, turn, histories, history, isLocal, systemPrompt, hydrate);
      SessionGrows(turns, turn);
      histories := histories + [history];
      turns := turns + [turn];
    }
  }

  lemma NoTurns()
    ensures SessionRows([]) == []
  {
  }

  lemma SessionGrows(turns: seq<NativeTurn>, turn: NativeTurn)
    ensures SessionRows(turns + [turn]) == SessionRows(turns) + TurnRows(turn)
  {
    assert (turns + [turn])[..|turns|] == turns;
  }

  // One more turn, prompted as BuildContext left it.
  lemma NextPrompt(turns: seq<NativeTurn>, turn: NativeTurn, histories: seq<seq<Message>>, history: seq<Message>,
                   isLocal: bool, systemPrompt: string, hydrate: string -> Content)
    requires HydratesMarkedOnly(hydrate) && |histories| == |turns|
    requires TrimmedTo(Untrimmed(SessionRows(turns) + [Row(User, turn.user)], NATIVE_HISTORY_MSGS, true, "",
                                 systemPrompt, hydrate),
                       history, Budget(isLocal))
    requires forall k | 0 <= k < |turns| && PlainSoFar(turns, k, hydrate) ::
             PromptedByDialogue(histories[k], turns, k, systemPrompt, hydrate)
    ensures forall k | 0 <= k < |turns| + 1 && PlainSoFar(turns + [turn], k, hydrate) ::
              PromptedByDialogue((histories + [history])[k], turns + [turn], k, systemPrompt, hydrate)
  {
    hide Untrimmed, TrimmedTo, DialogueTail, PlainAnswer, HydratesMarkedOnly, SessionRows, Budget;
    var more := turns + [turn];
    forall k | 0 <= k < |more| && PlainSoFar(more, k, hydrate)
      ensures PromptedByDialogue((histories + [history])[k], more, k, systemPrompt, hydrate)
    {
      SameAnswers(turns, turn, k, hydrate);
      assert more[..k] == turns[..k];
      if k == |turns| {
        assert turns[..k] == turns;
        NativeHistoryIsDialogueTail(turns, turn.user, history, isLocal, systemPrompt, hydrate);
      }
    }
  }

  lemma SameAnswers(turns: seq<NativeTurn>, turn: NativeTurn, k: nat, hydrate: string -> Content)
    requires k <= |turns| && PlainSoFar(turns + [turn], k, hydrate)
    ensures PlainSoFar(turns, k, hydrate)
  {
    forall i | 0 <= i < k ensures PlainAnswer(turns[i], hydrate) {
      assert (turns + [turn])[i] == turns[i];
    }
  }
}
