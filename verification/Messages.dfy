/** The append-only message log and the context that the engine builds from it for the model. */
module Messages {
  import opened Text

  datatype Role = System | User | Assistant | Tool

  // A stored message; its text is what the `content` column holds.
  datatype Row = Row(role: Role, text: string)

  // The content of a context message: a string, or the parts of a multimodal message.
  datatype Content = Plain(text: string) | Parts(count: nat)

  datatype Message = Message(role: Role, content: Content)

  const MM_MARKER := "__mm__:"
  const TOOL_TAG := "<tool>"
  const CONTEXT_BUDGET_LOCAL: nat := 25600
  const CONTEXT_BUDGET_CLOUD: nat := 100000

  // One session's rows. Messages are appended and never changed.
  class MessageStore {
    var rows: seq<Row>

    constructor ()
      ensures rows == []
    {
      rows := [];
    }

    method AddMessage(row: Row)
      modifies this
      ensures rows == old(rows) + [row]
    {
      rows := rows + [row];
    }

    // The last maxMessages rows as context messages behind the system prompt; `hydrate` stands
    // for the multimodal marker's decoding.
    method GetContext(maxMessages: nat, systemPrompt: string, hydrate: string -> Content)
      returns (context: seq<Message>)
      ensures context == ContextOf(rows, maxMessages, systemPrompt, hydrate)
    {
      var total := |rows|;
      var offset := if total > maxMessages then total - maxMessages else 0;
      var tail := rows[offset..];
      context := [Message(System, Plain(systemPrompt))];
      for i := 0 to |tail|
        invariant context == [Message(System, Plain(systemPrompt))] + Hydrated(tail[..i], hydrate)
      {
        assert tail[..i + 1][..i] == tail[..i];
        if tail[i].role != System {
          context := context + [Message(tail[i].role, hydrate(tail[i].text))];
        }
      }
      assert tail[..|tail|] == tail;
    }
  }

  // ----- the tail window ------------------------------------------------------------------------

  function Window(rows: seq<Row>, maxMessages: nat): seq<Row> {
    if |rows| > maxMessages then rows[|rows| - maxMessages..] else rows
  }

  function Hydrated(rows: seq<Row>, hydrate: string -> Content): seq<Message> {
    if rows == [] then []
    else
      var last := rows[|rows| - 1];
      Hydrated(rows[..|rows| - 1], hydrate)
      + if last.role == System then [] else [Message(last.role, hydrate(last.text))]
  }

  function ContextOf(rows: seq<Row>, maxMessages: nat, systemPrompt: string, hydrate: string -> Content): seq<Message> {
    [Message(System, Plain(systemPrompt))] + Hydrated(Window(rows, maxMessages), hydrate)
  }

  // Only the marker makes hydration change a text.
  ghost predicate HydratesMarkedOnly(hydrate: string -> Content) {
    forall text: string :: !(MM_MARKER <= text) ==> hydrate(text) == Plain(text)
  }

  lemma {:induction false} HydratedAppend(a: seq<Row>, b: seq<Row>, hydrate: string -> Content)
    ensures Hydrated(a + b, hydrate) == Hydrated(a, hydrate) + Hydrated(b, hydrate)
  {
    if b == [] {
      assert a + b == a;
    } else {
      var n := |b| - 1;
      assert (a + b)[..|a + b| - 1] == a + b[..n];
      HydratedAppend(a, b[..n], hydrate);
    }
  }

  // ----- the tool-history filter ------------------------------------------------------------------

  predicate ToolHistory(m: Message) {
    m.role == Tool || (m.role == Assistant && m.content.Plain? && TOOL_TAG <= LStrip(m.content.text))
  }

  function WithoutToolHistory(messages: seq<Message>): seq<Message> {
    if messages == [] then []
    else
      var last := messages[|messages| - 1];
      WithoutToolHistory(messages[..|messages| - 1]) + if ToolHistory(last) then [] else [last]
  }

  function DropToolHistory(context: seq<Message>): seq<Message> {
    if |context| > 1 then [context[0]] + WithoutToolHistory(context[1..]) else context
  }

  lemma {:induction false} WithoutToolHistoryAppend(a: seq<Message>, b: seq<Message>)
    ensures WithoutToolHistory(a + b) == WithoutToolHistory(a) + WithoutToolHistory(b)
  {
    if b == [] {
      assert a + b == a;
    } else {
      var n := |b| - 1;
      assert (a + b)[..|a + b| - 1] == a + b[..n];
      WithoutToolHistoryAppend(a, b[..n]);
    }
  }

  // ----- the token budget -------------------------------------------------------------------------

  function Length(c: Content): nat {
    match c case Plain(text) => |text| case Parts(count) => count
  }

  function EstimateTokens(c: Content): (n: nat)
    ensures n >= 1 && (Length(c) >= 4 ==> 4 * n <= Length(c) < 4 * n + 4)
  {
    if Length(c) / 4 > 1 then Length(c) / 4 else 1
  }

  // A message with an image has two parts: whatever their size, it counts for one token.
  lemma ImageCostsOneToken()
    ensures EstimateTokens(Parts(2)) == 1
  {
  }

  // A parts message is charged by its number of parts alone, one token up to seven of them.
  lemma PartsCostOneIff(count: nat)
    ensures EstimateTokens(Parts(count)) == 1 <==> count < 8
  {
  }

  function Total(messages: seq<Message>): nat {
    if messages == [] then 0
    else EstimateTokens(messages[0].content) + Total(messages[1..])
  }

  // The list after its j - 1 oldest messages behind the system prompt are gone.
  function Keeping(messages: seq<Message>, j: nat): seq<Message>
    requires 1 <= j <= |messages|
  {
    [messages[0]] + messages[j..]
  }

  // A Python list, which trimming pops in place.
  class MessageList {
    var items: seq<Message>

    constructor (items: seq<Message>)
      ensures this.items == items
    {
      this.items := items;
    }

    // list.pop
    method Pop(i: nat) returns (removed: Message)
      requires i < |items|
      modifies this
      ensures removed == old(items)[i]
      ensures items == old(items)[..i] + old(items)[i + 1..]
    {
      removed := items[i];
      items := items[..i] + items[i + 1..];
    }
  }

  // What trimming may leave: the first message and a suffix that keeps the last one, within the
  // budget or down to two messages, and not even one message fewer could have been removed.
  ghost predicate TrimmedTo(before: seq<Message>, after: seq<Message>, budget: nat) {
    if |before| <= 2 then after == before
    else exists j | 1 <= j < |before| :: IsTrim(before, after, budget, j)
  }

  ghost predicate IsTrim(before: seq<Message>, after: seq<Message>, budget: nat, j: nat) {
    && 1 <= j < |before| && after == Keeping(before, j)
    && (Total(after) <= budget || |after| == 2)
    && (j > 1 ==> Total(Keeping(before, j - 1)) > budget)
  }

  method TrimContextToBudget(messages: MessageList, budget: nat)
    modifies messages
    ensures TrimmedTo(old(messages.items), messages.items, budget)
  {
    if |messages.items| <= 2 {
      return;
    }
    ghost var before := messages.items;
    ghost var j := 1;
    assert before == Keeping(before, 1);
    var total := Total(messages.items);
    while total > budget && |messages.items| > 2
      invariant 1 <= j < |before| && messages.items == Keeping(before, j)
      invariant total == Total(messages.items)
      invariant j > 1 ==> Total(Keeping(before, j - 1)) > budget
      decreases |messages.items|
    {
      var removed := messages.Pop(1);
      KeepingTotal(before, j);
      KeepingTotal(before, j + 1);
      assert before[j..] == [removed] + before[j + 1..];
      total := total - EstimateTokens(removed.content);
      j := j + 1;
    }
    assert IsTrim(before, messages.items, budget, j);
  }

  lemma KeepingTotal(messages: seq<Message>, j: nat)
    requires 1 <= j <= |messages|
    ensures Total(Keeping(messages, j)) == EstimateTokens(messages[0].content) + Total(messages[j..])
  {
    assert Keeping(messages, j)[1..] == messages[j..];
  }

  // Every message counts for at least one token, so a longer suffix costs more.
  lemma {:induction false} LongerCostsMore(messages: seq<Message>, i: nat, j: nat)
    requires 1 <= i < j <= |messages|
    ensures Total(Keeping(messages, i)) > Total(Keeping(messages, j))
    decreases j - i
  {
    KeepingTotal(messages, i);
    KeepingTotal(messages, i + 1);
    assert messages[i..][1..] == messages[i + 1..];
    if i + 1 < j {
      LongerCostsMore(messages, i + 1, j);
    }
  }

  // The result of trimming is the longest suffix that fits: any other suffix that keeps the last
  // message and fits the budget is no longer than it.
  lemma TrimIsLongestFitting(before: seq<Message>, after: seq<Message>, budget: nat, i: nat)
    requires |before| > 2 && TrimmedTo(before, after, budget)
    requires 1 <= i < |before| && Total(Keeping(before, i)) <= budget
    ensures |Keeping(before, i)| <= |after| && Total(after) <= budget
  {
    var j :| 1 <= j < |before| && IsTrim(before, after, budget, j);
    if i < j - 1 {
      LongerCostsMore(before, i, j - 1);
    }
    if j < i {
      LongerCostsMore(before, j, i);
      assert |after| == |before| - j + 1;
    }
  }

  // Trimming has only one possible result.
  lemma TrimIsUnique(before: seq<Message>, a: seq<Message>, b: seq<Message>, budget: nat)
    requires TrimmedTo(before, a, budget) && TrimmedTo(before, b, budget)
    ensures a == b
  {
    if |before| > 2 {
      var i :| 1 <= i < |before| && IsTrim(before, a, budget, i);
      var j :| 1 <= j < |before| && IsTrim(before, b, budget, j);
      if i < j {
        TrimOrder(before, a, b, budget, i, j);
      } else if j < i {
        TrimOrder(before, b, a, budget, j, i);
      }
    }
  }

  lemma TrimOrder(before: seq<Message>, a: seq<Message>, b: seq<Message>, budget: nat, i: nat, j: nat)
    requires IsTrim(before, a, budget, i) && IsTrim(before, b, budget, j)
    ensures i >= j
  {
    if i < j {
      assert |a| == |before| - i + 1 > 2;
      if i < j - 1 {
        LongerCostsMore(before, i, j - 1);
      }
    }
  }

  // What the trimming of a larger budget keeps, ends with what that of a smaller one keeps.
  lemma TrimMonotone(before: seq<Message>, a: seq<Message>, b: seq<Message>, small: nat, large: nat)
    requires small <= large && TrimmedTo(before, a, small) && TrimmedTo(before, b, large)
    ensures |a| <= |b|
  {
    if |before| > 2 {
      var i :| 1 <= i < |before| && IsTrim(before, a, small, i);
      var j :| 1 <= j < |before| && IsTrim(before, b, large, j);
      if i < j {
        assert |a| == |before| - i + 1 > 2;
        if i < j - 1 {
          LongerCostsMore(before, i, j - 1);
        }
      }
    }
  }
}
