/** The prompt history of the native tool path: what a session of completed native turns leaves in
    the log, and what the tail window, the tool-history filter and the budget make of it. */
module History {
  import opened Text
  import opened Options
  import opened Messages

  const NATIVE_HISTORY_MSGS: nat := 6
  const LOCAL_WINDOW: nat := 10
  const CLOUD_WINDOW: nat := 30

  // One executed call of a native turn, with the compacted result; args is JSON text.
  datatype ToolUse = ToolUse(name: string, args: string, result: string)

  // A completed native turn. user is the stored text of the user's message.
  datatype NativeTurn = NativeTurn(user: string, uses: seq<ToolUse>, answer: string)

  function CallRow(use: ToolUse): Row {
    Row(Assistant, TOOL_TAG + (use.name + "</tool><args>" + use.args + "</args>"))
  }

  function ResultRow(use: ToolUse): Row {
    Row(Tool, "<tool_result>" + use.result + "</tool_result>")
  }

  function UseRows(uses: seq<ToolUse>): seq<Row> {
    if uses == [] then []
    else UseRows(uses[..|uses| - 1]) + [CallRow(uses[|uses| - 1]), ResultRow(uses[|uses| - 1])]
  }

  function TurnRows(turn: NativeTurn): seq<Row> {
    [Row(User, turn.user)] + UseRows(turn.uses) + [Row(Assistant, turn.answer)]
  }

  function SessionRows(turns: seq<NativeTurn>): seq<Row> {
    if turns == [] then [] else SessionRows(turns[..|turns| - 1]) + TurnRows(turns[|turns| - 1])
  }

  // The conversation as the user knows it: questions and answers only.
  function Dialogue(turns: seq<NativeTurn>): seq<Row> {
    if turns == [] then []
    else
      var last := turns[|turns| - 1];
      Dialogue(turns[..|turns| - 1]) + [Row(User, last.user), Row(Assistant, last.answer)]
  }

  // ----- building the context ---------------------------------------------------------------------

  function Augmented(context: seq<Message>, extra: string): seq<Message> {
    if context != [] && context[0].role == System && context[0].content.Plain? then
      [Message(System, Plain(context[0].content.text + extra))] + context[1..]
    else context
  }

  // What the trimming in `_build_context` starts from.
  function Untrimmed(rows: seq<Row>, maxMessages: nat, dropToolHistory: bool, extra: string,
                     systemPrompt: string, hydrate: string -> Content): seq<Message> {
    var context := ContextOf(rows, maxMessages, systemPrompt, hydrate);
    Augmented(if dropToolHistory then DropToolHistory(context) else context, extra)
  }

  function Depth(maxMsgs: Option<nat>, isLocal: bool): nat {
    match maxMsgs case Some(n) => n case None => if isLocal then LOCAL_WINDOW else CLOUD_WINDOW
  }

  function Budget(isLocal: bool): nat {
    if isLocal then CONTEXT_BUDGET_LOCAL else CONTEXT_BUDGET_CLOUD
  }

  // extra is the memory context and the tool prose that join the system prompt.
  method BuildContext(store: MessageStore, isLocal: bool, maxMsgs: Option<nat>, dropToolHistory: bool,
                      extra: string, systemPrompt: string, hydrate: string -> Content)
    returns (context: seq<Message>)
    ensures TrimmedTo(Untrimmed(store.rows, Depth(maxMsgs, isLocal), dropToolHistory, extra, systemPrompt, hydrate),
                      context, Budget(isLocal))
    ensures context != [] && context[0] == Message(System, Plain(systemPrompt + extra))
    ensures Prompts(store.rows, match maxMsgs case Some(n) => n case None => if isLocal then 10 else 30,
                    dropToolHistory, hydrate, if isLocal then 25600 else 100000, context)
  {
    hide Untrimmed, TrimmedTo, Prompts;
    var maxMessages := match maxMsgs case Some(n) => n case None => if isLocal then 10 else 30;
    context := store.GetContext(maxMessages, systemPrompt, hydrate);
    if dropToolHistory {
      context := DropToolHistory(context);
    }
    context := Augmented(context, extra);
    var list := new MessageList(context);
    TrimContextToBudget(list, if isLocal then CONTEXT_BUDGET_LOCAL else CONTEXT_BUDGET_CLOUD);
    context := list.items;
    assert list.items == context;
    UntrimmedStarts(store.rows, maxMessages, dropToolHistory, extra, systemPrompt, hydrate);
    PromptsTrimmed(store.rows, maxMessages, dropToolHistory, extra, systemPrompt, hydrate, Budget(isLocal), context);
  }

  // ----- what a prompt is, row by row -------------------------------------------------------------

  // The row reads as tool history: a tool's own, or an assistant's text that begins with a call.
  ghost predicate ToolRow(row: Row, hydrate: string -> Content) {
    || row.role == Tool
    || (row.role == Assistant && hydrate(row.text).Plain? && BeginsWithCall(hydrate(row.text).text))
  }

  ghost predicate BeginsWithCall(text: string) {
    exists n: nat :: MatchesAt(text, n, "<tool>") && forall j | 0 <= j < n :: IsSpace(text[j])
  }

  ghost predicate Prompted(row: Row, drop: bool, hydrate: string -> Content) {
    row.role != System && !(drop && ToolRow(row, hydrate))
  }

  // at lists the rows from one position on that belong in a prompt, all of them and in order.
  ghost predicate Selects(rows: seq<Row>, from: nat, drop: bool, hydrate: string -> Content, at: seq<nat>) {
    && (forall k | 0 <= k < |at| :: from <= at[k] < |rows| && Prompted(rows[at[k]], drop, hydrate))
    && (forall k, l | 0 <= k < l < |at| :: at[k] < at[l])
    && (forall i | from <= i < |rows| && Prompted(rows[i], drop, hydrate) :: Lists(at, i))
  }

  ghost predicate Lists(at: seq<nat>, i: nat) { exists k :: 0 <= k < |at| && at[k] == i }

  ghost function MessagesAt(rows: seq<Row>, at: seq<nat>, hydrate: string -> Content): seq<Message>
    requires forall k | 0 <= k < |at| :: at[k] < |rows|
  {
    seq(|at|, k requires 0 <= k < |at| => Message(rows[at[k]].role, hydrate(rows[at[k]].text)))
  }

  // Behind its system message the context holds the newest of the last n rows that belong in a prompt:
  // as many as the budget allows, at least one, and not one fewer than it allows.
  ghost predicate Prompts(rows: seq<Row>, n: nat, drop: bool, hydrate: string -> Content, budget: nat,
                          context: seq<Message>) {
    exists at: seq<nat> :: Selects(rows, if |rows| > n then |rows| - n else 0, drop, hydrate, at)
                           && NewestFitting(rows, at, hydrate, budget, context)
  }

  ghost predicate NewestFitting(rows: seq<Row>, at: seq<nat>, hydrate: string -> Content, budget: nat,
                                context: seq<Message>)
    requires forall k | 0 <= k < |at| :: at[k] < |rows|
  {
    var n := |context| - 1;
    && 0 <= n <= |at| && (at != [] ==> n >= 1)
    && context[1..] == MessagesAt(rows, at[|at| - n..], hydrate)
    && (Total(context) <= budget || n <= 1)
    && (n < |at| ==> Total([context[0]] + MessagesAt(rows, at[|at| - n - 1..], hydrate)) > budget)
  }

  lemma {:induction false} LStripSkips(s: string)
    ensures var n := |s| - |LStrip(s)|;
            && LStrip(s) == s[n..] && (forall j | 0 <= j < n :: IsSpace(s[j]))
            && (LStrip(s) != "" ==> !IsSpace(s[n]))
  {
    if s != "" && IsSpace(s[0]) {
      LStripSkips(s[1..]);
    }
  }

  lemma BeginsWithCallIff(text: string)
    ensures BeginsWithCall(text) <==> TOOL_TAG <= LStrip(text)
  {
    hide LStrip;
    LStripSkips(text);
    var m := |text| - |LStrip(text)|;
    if n: nat :| MatchesAt(text, n, "<tool>") && forall j | 0 <= j < n :: IsSpace(text[j]) {
      assert text[n] == text[n..n + 6][0] == '<';
      assert n == m;
    }
    if TOOL_TAG <= LStrip(text) {
      assert text[m..m + 6] == LStrip(text)[..6] == TOOL_TAG;
      assert MatchesAt(text, m, "<tool>");
    }
  }

  lemma ToolRowIff(row: Row, hydrate: string -> Content)
    ensures ToolRow(row, hydrate) <==> ToolHistory(Message(row.role, hydrate(row.text)))
  {
    hide BeginsWithCall;
    if hydrate(row.text).Plain? {
      BeginsWithCallIff(hydrate(row.text).text);
    }
  }

  function Filtered(rows: seq<Row>, drop: bool, hydrate: string -> Content): seq<Message> {
    if drop then Kept(rows, hydrate) else Hydrated(rows, hydrate)
  }

  lemma FilteredSnoc(rows: seq<Row>, row: Row, drop: bool, hydrate: string -> Content)
    ensures Filtered(rows + [row], drop, hydrate)
         == Filtered(rows, drop, hydrate)
            + if Prompted(row, drop, hydrate) then [Message(row.role, hydrate(row.text))] else []
  {
    hide Kept, Hydrated, ToolRow, ToolHistory;
    KeptAppend(rows, [row], hydrate);
    HydratedAppend(rows, [row], hydrate);
    ToolRowIff(row, hydrate);
    if row.role == System {
      SystemRowDropped(row, hydrate);
    } else {
      KeptOne(row, hydrate);
    }
  }

  lemma SystemRowDropped(row: Row, hydrate: string -> Content)
    requires row.role == System
    ensures Hydrated([row], hydrate) == [] && Kept([row], hydrate) == []
  {
    assert [row][..0] == [];
  }

  lemma {:induction false} FilteredSelects(rows: seq<Row>, from: nat, drop: bool, hydrate: string -> Content)
    returns (at: seq<nat>)
    requires from <= |rows|
    ensures Selects(rows, from, drop, hydrate, at)
    ensures Filtered(rows[from..], drop, hydrate) == MessagesAt(rows, at, hydrate)
    decreases |rows|
  {
    hide Prompted, Filtered;
    if |rows| == from {
      at := [];
      assert Filtered([], drop, hydrate) == [] by { NothingFiltered(drop, hydrate); }
      assert rows[from..] == [];
    } else {
      var n := |rows| - 1;
      var before := FilteredSelects(rows[..n], from, drop, hydrate);
      assert rows[from..] == rows[..n][from..] + [rows[n]];
      FilteredSnoc(rows[..n][from..], rows[n], drop, hydrate);
      at := if Prompted(rows[n], drop, hydrate) then before + [n] else before;
      assert rows == rows[..n] + [rows[n]];
      SelectsSnoc(rows[..n], rows[n], from, drop, hydrate, before);
    }
  }

  lemma NothingFiltered(drop: bool, hydrate: string -> Content)
    ensures Filtered([], drop, hydrate) == []
  {
  }

  lemma SelectsSnoc(rows: seq<Row>, row: Row, from: nat, drop: bool, hydrate: string -> Content, before: seq<nat>)
    requires from <= |rows| && Selects(rows, from, drop, hydrate, before)
    ensures var at := if Prompted(row, drop, hydrate) then before + [|rows|] else before;
            && Selects(rows + [row], from, drop, hydrate, at)
            && MessagesAt(rows + [row], at, hydrate)
               == MessagesAt(rows, before, hydrate)
                  + if Prompted(row, drop, hydrate) then [Message(row.role, hydrate(row.text))] else []
  {
    hide Prompted, MessagesAt;
    SelectedLonger(rows, row, from, drop, hydrate, before);
    MessagesLonger(rows, row, before, hydrate);
  }

  lemma SelectedLonger(rows: seq<Row>, row: Row, from: nat, drop: bool, hydrate: string -> Content, before: seq<nat>)
    requires from <= |rows| && Selects(rows, from, drop, hydrate, before)
    ensures forall k | 0 <= k < |before| :: before[k] < |rows|
    ensures Selects(rows + [row], from, drop, hydrate,
                    if Prompted(row, drop, hydrate) then before + [|rows|] else before)
  {
    hide Prompted, Lists;
    var more := rows + [row];
    assert forall i | 0 <= i < |rows| :: more[i] == rows[i];
    var at := if Prompted(row, drop, hydrate) then before + [|rows|] else before;
    forall i | from <= i < |more| && Prompted(more[i], drop, hydrate) ensures Lists(at, i) {
      if i < |rows| {
        ListsMore(before, |rows|, i);
      } else {
        ListsLast(before, |rows|);
      }
    }
  }

  lemma ListsMore(at: seq<nat>, n: nat, i: nat)
    requires Lists(at, i)
    ensures Lists(at + [n], i)
  {
    var k :| 0 <= k < |at| && at[k] == i;
    assert (at + [n])[k] == i;
  }

  lemma ListsLast(at: seq<nat>, n: nat)
    ensures Lists(at + [n], n)
  {
    assert (at + [n])[|at|] == n;
  }

  lemma MessagesLonger(rows: seq<Row>, row: Row, before: seq<nat>, hydrate: string -> Content)
    requires forall k | 0 <= k < |before| :: before[k] < |rows|
    ensures MessagesAt(rows + [row], before, hydrate) == MessagesAt(rows, before, hydrate)
    ensures MessagesAt(rows + [row], before + [|rows|], hydrate)
         == MessagesAt(rows, before, hydrate) + [Message(row.role, hydrate(row.text))]
  {
  }

  // The system message comes first whatever the filter and the trimming do.
  lemma UntrimmedStarts(rows: seq<Row>, maxMessages: nat, drop: bool, extra: string, systemPrompt: string,
                        hydrate: string -> Content)
    ensures Untrimmed(rows, maxMessages, drop, extra, systemPrompt, hydrate)
         == [Message(System, Plain(systemPrompt + extra))] + Filtered(Window(rows, maxMessages), drop, hydrate)
  {
    hide Hydrated, Window;
    var w := Window(rows, maxMessages);
    var context := ContextOf(rows, maxMessages, systemPrompt, hydrate);
    assert context[1..] == Hydrated(w, hydrate);
    if drop && |context| == 1 {
      assert Kept(w, hydrate) == [];
    }
  }

  lemma PromptsTrimmed(rows: seq<Row>, maxMessages: nat, drop: bool, extra: string, systemPrompt: string,
                       hydrate: string -> Content, budget: nat, context: seq<Message>)
    requires TrimmedTo(Untrimmed(rows, maxMessages, drop, extra, systemPrompt, hydrate), context, budget)
    ensures context != [] && context[0] == Message(System, Plain(systemPrompt + extra))
    ensures Prompts(rows, maxMessages, drop, hydrate, budget, context)
  {
    hide Untrimmed, Filtered, Selects;
    UntrimmedStarts(rows, maxMessages, drop, extra, systemPrompt, hydrate);
    var before := Untrimmed(rows, maxMessages, drop, extra, systemPrompt, hydrate);
    var from := if |rows| > maxMessages then |rows| - maxMessages else 0;
    var at := FilteredSelects(rows, from, drop, hydrate);
    assert rows[from..] == Window(rows, maxMessages);
    SelectedRows(rows, from, drop, hydrate, at);
    assert before[1..] == MessagesAt(rows, at, hydrate);
    TrimmedFits(rows, at, hydrate, budget, before, context);
  }

  lemma SelectedRows(rows: seq<Row>, from: nat, drop: bool, hydrate: string -> Content, at: seq<nat>)
    requires Selects(rows, from, drop, hydrate, at)
    ensures forall k | 0 <= k < |at| :: at[k] < |rows|
  {
  }

  lemma TrimmedFits(rows: seq<Row>, at: seq<nat>, hydrate: string -> Content, budget: nat, before: seq<Message>,
                    context: seq<Message>)
    requires forall k | 0 <= k < |at| :: at[k] < |rows|
    requires before != [] && before[1..] == MessagesAt(rows, at, hydrate) && TrimmedTo(before, context, budget)
    ensures context != [] && context[0] == before[0] && NewestFitting(rows, at, hydrate, budget, context)
  {
    hide Total;
    if |before| > 2 {
      var j :| 1 <= j < |before| && IsTrim(before, context, budget, j);
      assert context[1..] == before[1..][j - 1..] == MessagesAt(rows, at[j - 1..], hydrate);
      if j > 1 {
        assert Keeping(before, j - 1) == [before[0]] + before[1..][j - 2..];
        assert before[1..][j - 2..] == MessagesAt(rows, at[j - 2..], hydrate);
      }
    } else {
      assert context[1..] == MessagesAt(rows, at[0..], hydrate);
    }
  }

  // ----- recovering the dialogue ------------------------------------------------------------------

  function Kept(rows: seq<Row>, hydrate: string -> Content): seq<Message> {
    WithoutToolHistory(Hydrated(rows, hydrate))
  }

  lemma KeptAppend(a: seq<Row>, b: seq<Row>, hydrate: string -> Content)
    ensures Kept(a + b, hydrate) == Kept(a, hydrate) + Kept(b, hydrate)
  {
    HydratedAppend(a, b, hydrate);
    WithoutToolHistoryAppend(Hydrated(a, hydrate), Hydrated(b, hydrate));
  }

  lemma KeptOne(row: Row, hydrate: string -> Content)
    requires row.role != System
    ensures var m := Message(row.role, hydrate(row.text));
            Hydrated([row], hydrate) == [m] && Kept([row], hydrate) == if ToolHistory(m) then [] else [m]
  {
    hide WithoutToolHistory, ToolHistory;
    assert [row][..0] == [];
    WithoutOne(Message(row.role, hydrate(row.text)));
  }

  lemma WithoutOne(m: Message)
    ensures WithoutToolHistory([m]) == if ToolHistory(m) then [] else [m]
  {
    hide ToolHistory;
    assert [m][..0] == [];
  }

  lemma UserKept(text: string, hydrate: string -> Content)
    ensures Hydrated([Row(User, text)], hydrate) == [Message(User, hydrate(text))]
    ensures Kept([Row(User, text)], hydrate) == [Message(User, hydrate(text))]
  {
    KeptOne(Row(User, text), hydrate);
  }

  lemma UsesDropped(use: ToolUse, hydrate: string -> Content)
    requires HydratesMarkedOnly(hydrate)
    ensures Kept([CallRow(use), ResultRow(use)], hydrate) == []
  {
    CallRowDropped(use.name + "</tool><args>" + use.args + "</args>", hydrate);
    KeptOne(CallRow(use), hydrate);
    KeptOne(ResultRow(use), hydrate);
    KeptAppend([CallRow(use)], [ResultRow(use)], hydrate);
    assert [CallRow(use)] + [ResultRow(use)] == [CallRow(use), ResultRow(use)];
  }

  lemma CallRowDropped(rest: string, hydrate: string -> Content)
    requires HydratesMarkedOnly(hydrate)
    ensures ToolHistory(Message(Assistant, hydrate(TOOL_TAG + rest)))
  {
    var text := TOOL_TAG + rest;
    assert text[0] == '<' && MM_MARKER[0] == '_';
    assert LStrip(text) == text;
  }

  lemma {:induction false} AllUsesDropped(uses: seq<ToolUse>, hydrate: string -> Content)
    requires HydratesMarkedOnly(hydrate)
    ensures Kept(UseRows(uses), hydrate) == []
  {
    if uses != [] {
      var n := |uses| - 1;
      AllUsesDropped(uses[..n], hydrate);
      UsesDropped(uses[n], hydrate);
      KeptAppend(UseRows(uses[..n]), [CallRow(uses[n]), ResultRow(uses[n])], hydrate);
    }
  }

  // A turn's tool traffic leaves the prompt; its question and its answer stay, the answer unless
  // it looks like a tool call itself.
  lemma TurnKept(turn: NativeTurn, hydrate: string -> Content)
    requires HydratesMarkedOnly(hydrate)
    ensures Kept(TurnRows(turn), hydrate)
         == Kept([Row(User, turn.user), Row(Assistant, turn.answer)], hydrate)
  {
    var user, answer := [Row(User, turn.user)], [Row(Assistant, turn.answer)];
    AllUsesDropped(turn.uses, hydrate);
    KeptAppend(user + UseRows(turn.uses), answer, hydrate);
    KeptAppend(user, UseRows(turn.uses), hydrate);
    KeptAppend(user, answer, hydrate);
    assert user + answer == [Row(User, turn.user), Row(Assistant, turn.answer)];
  }

  lemma {:induction false} SessionKept(turns: seq<NativeTurn>, hydrate: string -> Content)
    requires HydratesMarkedOnly(hydrate)
    ensures Kept(SessionRows(turns), hydrate) == Kept(Dialogue(turns), hydrate)
  {
    if turns != [] {
      var n := |turns| - 1;
      SessionKept(turns[..n], hydrate);
      TurnKept(turns[n], hydrate);
      KeptAppend(SessionRows(turns[..n]), TurnRows(turns[n]), hydrate);
      KeptAppend(Dialogue(turns[..n]), [Row(User, turns[n].user), Row(Assistant, turns[n].answer)], hydrate);
    }
  }

  ghost predicate PlainAnswer(turn: NativeTurn, hydrate: string -> Content) {
    !ToolHistory(Message(Assistant, hydrate(turn.answer)))
  }

  lemma EmptyKept(hydrate: string -> Content)
    ensures Hydrated([], hydrate) == [] && Kept([], hydrate) == []
  {
  }

  lemma PairKeptIff(turn: NativeTurn, hydrate: string -> Content)
    ensures var pair := [Row(User, turn.user), Row(Assistant, turn.answer)];
            |Kept(pair, hydrate)| <= |Hydrated(pair, hydrate)|
            && (Kept(pair, hydrate) == Hydrated(pair, hydrate) <==> PlainAnswer(turn, hydrate))
  {
    hide Kept, Hydrated, ToolHistory;
    var user, answer := Row(User, turn.user), Row(Assistant, turn.answer);
    UserKept(turn.user, hydrate);
    KeptOne(answer, hydrate);
    assert [user] + [answer] == [user, answer];
    KeptAppend([user], [answer], hydrate);
    HydratedAppend([user], [answer], hydrate);
  }

  // The filter keeps the whole dialogue exactly when no answer begins like a tool call.
  lemma {:induction false} DialogueKeptIff(turns: seq<NativeTurn>, hydrate: string -> Content)
    ensures |Kept(Dialogue(turns), hydrate)| <= |Hydrated(Dialogue(turns), hydrate)|
    ensures Kept(Dialogue(turns), hydrate) == Hydrated(Dialogue(turns), hydrate)
       <==> forall k | 0 <= k < |turns| :: PlainAnswer(turns[k], hydrate)
  {
    hide Kept, Hydrated, ToolHistory;
    if turns == [] {
      EmptyKept(hydrate);
    } else {
      var n := |turns| - 1;
      DialogueKeptIff(turns[..n], hydrate);
      var pair := [Row(User, turns[n].user), Row(Assistant, turns[n].answer)];
      PairKeptIff(turns[n], hydrate);
      KeptAppend(Dialogue(turns[..n]), pair, hydrate);
      HydratedAppend(Dialogue(turns[..n]), pair, hydrate);
      PairsAlign(Kept(Dialogue(turns[..n]), hydrate), Hydrated(Dialogue(turns[..n]), hydrate),
                 Kept(pair, hydrate), Hydrated(pair, hydrate));
      forall k | 0 <= k < n ensures turns[..n][k] == turns[k] {}
    }
  }

  // A shorter head and a shorter tail make an equal whole only when both are equal.
  lemma PairsAlign(a: seq<Message>, b: seq<Message>, x: seq<Message>, y: seq<Message>)
    requires |a| <= |b| && |x| <= |y|
    ensures a + x == b + y <==> a == b && x == y
  {
    if a + x == b + y {
      assert |a| == |b|;
      assert (a + x)[..|a|] == a && (b + y)[..|b|] == b;
      assert (a + x)[|a|..] == x && (b + y)[|b|..] == y;
    }
  }

  // The rows a window keeps, filtered, are the tail of all rows filtered.
  lemma WindowKeptIsSuffix(rows: seq<Row>, maxMessages: nat, hydrate: string -> Content)
    ensures IsSuffix(Kept(Window(rows, maxMessages), hydrate), Kept(rows, hydrate))
  {
    var w := Window(rows, maxMessages);
    var cut := |rows| - |w|;
    assert rows == rows[..cut] + w;
    KeptAppend(rows[..cut], w, hydrate);
    SuffixOf(Kept(rows[..cut], hydrate), Kept(w, hydrate));
  }

  ghost predicate IsSuffix(tail: seq<Message>, whole: seq<Message>) {
    |tail| <= |whole| && whole[|whole| - |tail|..] == tail
  }

  lemma SuffixOf(head: seq<Message>, tail: seq<Message>)
    ensures IsSuffix(tail, head + tail)
  {
  }

  lemma SuffixTrans(a: seq<Message>, b: seq<Message>, c: seq<Message>)
    requires IsSuffix(a, b) && IsSuffix(b, c)
    ensures IsSuffix(a, c)
  {
  }

  lemma TrimKeepsSuffix(before: seq<Message>, after: seq<Message>, budget: nat)
    requires |before| >= 2 && TrimmedTo(before, after, budget)
    ensures |after| >= 2 && after[0] == before[0] && IsSuffix(after[1..], before[1..])
  {
    if |before| > 2 {
      var j :| 1 <= j < |before| && IsTrim(before, after, budget, j);
      assert after[1..] == before[j..];
    }
  }

  // The system message and then the end of the plain dialogue, up to the newest user message.
  ghost predicate DialogueTail(context: seq<Message>, turns: seq<NativeTurn>, newest: string, systemPrompt: string,
                               hydrate: string -> Content) {
    && |context| >= 2 && context[0] == Message(System, Plain(systemPrompt))
    && context[|context| - 1] == Message(User, hydrate(newest))
    && IsSuffix(context[1..], Hydrated(Dialogue(turns) + [Row(User, newest)], hydrate))
  }

  // The prompt of a native turn after any session of completed native turns: the system message
  // and then the end of the plain dialogue, up to and including the newest user message.
  lemma NativeHistoryIsDialogueTail(turns: seq<NativeTurn>, newest: string, context: seq<Message>,
                                    isLocal: bool, systemPrompt: string, hydrate: string -> Content)
    requires HydratesMarkedOnly(hydrate)
    requires forall k | 0 <= k < |turns| :: PlainAnswer(turns[k], hydrate)
    requires var rows := SessionRows(turns) + [Row(User, newest)];
             TrimmedTo(Untrimmed(rows, NATIVE_HISTORY_MSGS, true, "", systemPrompt, hydrate), context, Budget(isLocal))
    ensures DialogueTail(context, turns, newest, systemPrompt, hydrate)
  {
    hide Kept, Hydrated, ToolHistory, SessionRows, Dialogue, PlainAnswer, Untrimmed, TrimmedTo, IsSuffix, Window,
         Budget, HydratesMarkedOnly, DialogueTail;
    var last := [Row(User, newest)];
    var rows := SessionRows(turns) + last;
    var whole := Hydrated(Dialogue(turns) + last, hydrate);
    var kept := Kept(Window(rows, NATIVE_HISTORY_MSGS), hydrate);
    SessionKeptWhole(turns, newest, hydrate);
    WindowKeptIsSuffix(rows, NATIVE_HISTORY_MSGS, hydrate);
    WindowEndsInNewest(SessionRows(turns), newest, hydrate);
    var before := Untrimmed(rows, NATIVE_HISTORY_MSGS, true, "", systemPrompt, hydrate);
    UntrimmedIs(rows, systemPrompt, hydrate);
    assert before[1..] == kept;
    TrimKeepsSuffix(before, context, Budget(isLocal));
    SuffixTrans(context[1..], kept, whole);
    SuffixEnd(context[1..], kept);
    IsDialogueTail(context, turns, newest, systemPrompt, hydrate);
  }

  lemma IsDialogueTail(context: seq<Message>, turns: seq<NativeTurn>, newest: string, systemPrompt: string,
                       hydrate: string -> Content)
    requires |context| >= 2 && context[0] == Message(System, Plain(systemPrompt))
    requires context[1..][|context[1..]| - 1] == Message(User, hydrate(newest))
    requires IsSuffix(context[1..], Hydrated(Dialogue(turns) + [Row(User, newest)], hydrate))
    ensures DialogueTail(context, turns, newest, systemPrompt, hydrate)
  {
    hide Hydrated, Dialogue;
  }

  lemma SuffixEnd(tail: seq<Message>, whole: seq<Message>)
    requires IsSuffix(tail, whole) && tail != []
    ensures whole != [] && tail[|tail| - 1] == whole[|whole| - 1]
  {
  }

  lemma SessionKeptWhole(turns: seq<NativeTurn>, newest: string, hydrate: string -> Content)
    requires HydratesMarkedOnly(hydrate)
    requires forall k | 0 <= k < |turns| :: PlainAnswer(turns[k], hydrate)
    ensures Kept(SessionRows(turns) + [Row(User, newest)], hydrate)
         == Hydrated(Dialogue(turns) + [Row(User, newest)], hydrate)
  {
    hide Kept, Hydrated, ToolHistory, SessionRows, Dialogue, PlainAnswer;
    var last := [Row(User, newest)];
    SessionKept(turns, hydrate);
    DialogueKeptIff(turns, hydrate);
    UserKept(newest, hydrate);
    KeptAppend(SessionRows(turns), last, hydrate);
    HydratedAppend(Dialogue(turns), last, hydrate);
  }

  lemma WindowEndsInNewest(rows: seq<Row>, newest: string, hydrate: string -> Content)
    ensures var kept := Kept(Window(rows + [Row(User, newest)], NATIVE_HISTORY_MSGS), hydrate);
            kept != [] && kept[|kept| - 1] == Message(User, hydrate(newest))
  {
    var last := Row(User, newest);
    var w := Window(rows + [last], NATIVE_HISTORY_MSGS);
    assert w == w[..|w| - 1] + [last];
    KeptOne(last, hydrate);
    KeptAppend(w[..|w| - 1], [last], hydrate);
  }

  lemma UntrimmedIs(rows: seq<Row>, systemPrompt: string, hydrate: string -> Content)
    requires Kept(Window(rows, NATIVE_HISTORY_MSGS), hydrate) != []
    ensures Untrimmed(rows, NATIVE_HISTORY_MSGS, true, "", systemPrompt, hydrate)
         == [Message(System, Plain(systemPrompt))] + Kept(Window(rows, NATIVE_HISTORY_MSGS), hydrate)
  {
    var hydrated := Hydrated(Window(rows, NATIVE_HISTORY_MSGS), hydrate);
    var context := ContextOf(rows, NATIVE_HISTORY_MSGS, systemPrompt, hydrate);
    assert hydrated != [];
    assert context[1..] == hydrated;
    assert systemPrompt + "" == systemPrompt;
  }

  // The six-message window: the previous turn's question is still in it exactly when that turn
  // made at most one tool call; its answer always is.
  lemma PreviousQuestionKeptIff(turns: seq<NativeTurn>, newest: string, hydrate: string -> Content)
    requires HydratesMarkedOnly(hydrate) && turns != []
    requires forall k | 0 <= k < |turns| :: PlainAnswer(turns[k], hydrate)
    ensures var kept := Kept(Window(SessionRows(turns) + [Row(User, newest)], NATIVE_HISTORY_MSGS), hydrate);
            |kept| >= 2 && (|kept| >= 3 <==> |turns[|turns| - 1].uses| <= 1)
  {
    hide Kept, Hydrated, ToolHistory, UseRows, Dialogue, Window, PlainAnswer;
    var n := |turns| - 1;
    var turn := turns[n];
    var tail := UseRows(turn.uses) + [Row(Assistant, turn.answer), Row(User, newest)];
    var rows := SessionRows(turns) + [Row(User, newest)];
    assert rows == SessionRows(turns[..n]) + ([Row(User, turn.user)] + tail);
    assert rows == (SessionRows(turns[..n]) + [Row(User, turn.user)]) + tail;
    UseRowsLength(turn.uses);
    KeptTail(turn, newest, hydrate);
    if |turn.uses| <= 1 {
      WindowTail(SessionRows(turns[..n]), [Row(User, turn.user)] + tail, hydrate);
      UserKept(turn.user, hydrate);
      KeptAppend([Row(User, turn.user)], tail, hydrate);
    } else {
      CutTail(SessionRows(turns[..n]) + [Row(User, turn.user)], turn, newest, hydrate);
    }
  }

  lemma WindowTail(head: seq<Row>, tail: seq<Row>, hydrate: string -> Content)
    requires |tail| <= NATIVE_HISTORY_MSGS
    ensures |Kept(Window(head + tail, NATIVE_HISTORY_MSGS), hydrate)| >= |Kept(tail, hydrate)|
  {
    hide Kept;
    var w := Window(head + tail, NATIVE_HISTORY_MSGS);
    var cut := |w| - |tail|;
    assert w == w[..cut] + tail;
    KeptAppend(w[..cut], tail, hydrate);
  }

  lemma CutTail(head: seq<Row>, turn: NativeTurn, newest: string, hydrate: string -> Content)
    requires HydratesMarkedOnly(hydrate) && |turn.uses| >= 2
    ensures var pair := [Row(Assistant, turn.answer), Row(User, newest)];
            Kept(Window(head + (UseRows(turn.uses) + pair), NATIVE_HISTORY_MSGS), hydrate) == Kept(pair, hydrate)
  {
    hide Kept, UseRows;
    var pair := [Row(Assistant, turn.answer), Row(User, newest)];
    UseRowsLength(turn.uses);
    var cut := 2 * |turn.uses| - 4;
    assert Window(head + (UseRows(turn.uses) + pair), NATIVE_HISTORY_MSGS) == UseRows(turn.uses)[cut..] + pair;
    UseRowsTailDropped(turn.uses, cut, hydrate);
    KeptAppend(UseRows(turn.uses)[cut..], pair, hydrate);
  }

  lemma KeptTail(turn: NativeTurn, newest: string, hydrate: string -> Content)
    requires HydratesMarkedOnly(hydrate) && PlainAnswer(turn, hydrate)
    ensures var pair := [Row(Assistant, turn.answer), Row(User, newest)];
            |Kept(pair, hydrate)| == 2 && Kept(UseRows(turn.uses) + pair, hydrate) == Kept(pair, hydrate)
  {
    hide Kept, Hydrated, ToolHistory, UseRows;
    var answer, last := Row(Assistant, turn.answer), Row(User, newest);
    assert [answer] + [last] == [answer, last];
    KeptOne(answer, hydrate);
    UserKept(newest, hydrate);
    KeptAppend([answer], [last], hydrate);
    AllUsesDropped(turn.uses, hydrate);
    KeptAppend(UseRows(turn.uses), [answer, last], hydrate);
  }

  lemma UseRowsTailDropped(uses: seq<ToolUse>, cut: nat, hydrate: string -> Content)
    requires HydratesMarkedOnly(hydrate) && cut <= |UseRows(uses)|
    ensures Kept(UseRows(uses)[cut..], hydrate) == []
  {
    var rows := UseRows(uses);
    AllUsesDropped(uses, hydrate);
    assert rows == rows[..cut] + rows[cut..];
    KeptAppend(rows[..cut], rows[cut..], hydrate);
  }

  // The log from row n on holds the two rows of each call, with their tags.
  ghost predicate UsesLogged(rows: seq<Row>, n: nat, uses: seq<ToolUse>) {
    && n + 2 * |uses| <= |rows|
    && forall i | 0 <= i < |uses| ::
         && rows[n + 2 * i]
            == Row(Assistant, "<tool>" + uses[i].name + "</tool><args>" + uses[i].args + "</args>")
         && rows[n + 2 * i + 1] == Row(Tool, "<tool_result>" + uses[i].result + "</tool_result>")
  }

  lemma {:induction false} UseRowsAt(uses: seq<ToolUse>)
    ensures |UseRows(uses)| == 2 * |uses| && UsesLogged(UseRows(uses), 0, uses)
  {
    if uses != [] {
      UseRowsAt(uses[..|uses| - 1]);
      CallText(uses[|uses| - 1]);
    }
  }

  lemma UsesLoggedIn(before: seq<Row>, uses: seq<ToolUse>, after: seq<Row>)
    ensures UsesLogged(before + UseRows(uses) + after, |before|, uses)
  {
    hide UseRows;
    UseRowsAt(uses);
    var rows, all := UseRows(uses), before + UseRows(uses) + after;
    forall k | 0 <= k < |rows| ensures all[|before| + k] == rows[k] {
    }
    forall i | 0 <= i < |uses|
      ensures all[|before| + 2 * i]
              == Row(Assistant, "<tool>" + uses[i].name + "</tool><args>" + uses[i].args + "</args>")
      ensures all[|before| + 2 * i + 1] == Row(Tool, "<tool_result>" + uses[i].result + "</tool_result>")
    {
      assert all[|before| + 2 * i] == rows[2 * i] && all[|before| + (2 * i + 1)] == rows[2 * i + 1];
    }
  }

  lemma CallText(use: ToolUse)
    ensures CallRow(use) == Row(Assistant, "<tool>" + use.name + "</tool><args>" + use.args + "</args>")
  {
    assert TOOL_TAG + (use.name + "</tool><args>" + use.args + "</args>")
        == "<tool>" + use.name + "</tool><args>" + use.args + "</args>";
  }

  lemma {:induction false} UseRowsLength(uses: seq<ToolUse>)
    ensures |UseRows(uses)| == 2 * |uses|
  {
    if uses != [] {
      UseRowsLength(uses[..|uses| - 1]);
    }
  }
}
