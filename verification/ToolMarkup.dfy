/** What is left of tool blocks in the shown text: the tail of a reply that made no tool call, and the
    second rolling filter between the engine and the client. */
module ToolMarkup {
  import opened Options
  import opened Text
  import opened ToolBlocks
  import opened MarkerSplit

  // No `<tool>` in any letter case.
  ghost predicate Untagged(s: string) {
    forall i | 0 <= i < |s| :: !FoldPrefix(s[i..], "<tool>")
  }

  lemma StripUntagged(s: string)
    requires Untagged(s)
    ensures Strip(s) == s
  {
    hide Fold, CloseTool, Strip;
    assert s[|s|..] == "" && s[..|s|] == s && Strip("") == "" by { StripNothing(); }
    StripCutIff(s, |s|);
  }

  lemma StripNothing()
    ensures Strip("") == ""
  {
  }

  lemma UntaggedPart(s: string, i: nat, j: nat)
    requires i <= j <= |s| && Untagged(s)
    ensures Untagged(s[i..j])
  {
    forall k | 0 <= k < |s[i..j]| ensures !FoldPrefix(s[i..j][k..], "<tool>") {
      var part := s[i..j][k..];
      assert forall n | 0 <= n < |part| :: part[n] == s[i + k..][n];
    }
  }

  // ----- a reply without a tool call ------------------------------------------------------

  // What the engine yields when the generation ends without a call to execute.
  method FinishReply(tokens: seq<string>, m: Markers, hasRegistry: bool)
    returns (shown: seq<string>, stored: string)
    requires WellShaped(m)
    ensures stored == Concat(tokens)
    ensures hasRegistry ==>
              Concat(shown) == Streamed(tokens, m).flushed + Strip(Streamed(tokens, m).held)
    ensures !hasRegistry ==> shown == tokens
  {
    var held;
    shown, held, stored := StreamGeneration(tokens, m, hasRegistry);
    if hasRegistry && held != "" {
      var cleaned := Strip(held);
      if cleaned != "" {
        ConcatSnoc(shown, cleaned);
        shown := shown + [cleaned];
      }
    }
  }

  // The reader sees the stored text with its complete blocks removed, for every tokenization and
  // every set of registered names, exactly when no complete block begins in the text already yielded.
  lemma ShownIsStoredStrippedIff(tokens: seq<string>, names: set<string>)
    ensures var r, text := Streamed(tokens, TinkerMarkers(names)), Concat(tokens);
            r.flushed + Strip(r.held) == Strip(text) <==> forall i: nat | i < |r.flushed| :: !BlockAt(text, i)
  {
    hide Strip, BlockAt;
    var r, text := Streamed(tokens, TinkerMarkers(names)), Concat(tokens);
    assert r.flushed == text[..|r.flushed|] && r.held == text[|r.flushed|..];
    StripCutIff(text, |r.flushed|);
  }

  // Every tag of the text is the lower-case one that the marker split looks for.
  ghost predicate LowerCaseTags(s: string) {
    forall i: nat | i < |s| && FoldPrefix(s[i..], "<tool>") :: MatchesAt(s, i, "<tool>")
  }

  // No such block begins there when the model writes its tags in lower case.
  lemma LowerCaseIsStripped(tokens: seq<string>, names: set<string>)
    requires LowerCaseTags(Concat(tokens))
    ensures var r := Streamed(tokens, TinkerMarkers(names));
            r.flushed + Strip(r.held) == Strip(Concat(tokens))
  {
    hide Strip;
    var m, text := TinkerMarkers(names), Concat(tokens);
    var r := Streamed(tokens, m);
    assert r.flushed == text[..|r.flushed|];
    forall i: nat | i < |r.flushed| ensures !BlockAt(text, i) {
      NoStaticOpenerLeaks(tokens, m, i);
      assert Static(m).statics[0] == "<tool>";
      assert !MatchesAt(text, i, Static(m).statics[0]);
    }
    ShownIsStoredStrippedIff(tokens, names);
  }

  // One does when the tags are in upper case: in one token the block goes out raw.
  lemma UpperCaseBlockIsShown()
    ensures var block := "<TOOL>" + "</TOOL>" + "<args>" + "</args>";
            Streamed([block], TinkerMarkers({})) == Stream(block, "") && Strip(block) == ""
  {
    EmptyBlockStrips();
    EmptyBlockShown("<TOOL>" + "</TOOL>" + "<args>" + "</args>");
  }

  lemma EmptyBlockStrips()
    ensures Strip("<TOOL>" + "</TOOL>" + "<args>" + "</args>") == ""
  {
    assert FoldPrefix("<TOOL>", "<tool>");
    assert FoldPrefix("</TOOL>", "</tool>");
    StripEmptyBlock("<TOOL>", "</TOOL>", "<args>", "</args>");
  }

  lemma EmptyBlockShown(block: string)
    requires block == "<TOOL>" + "</TOOL>" + "<args>" + "</args>"
    ensures Streamed([block], TinkerMarkers({})) == Stream(block, "")
  {
    NoMarkers(block, {});
    FlushWhole([], block, TinkerMarkers({}));
    assert [] + [block] == [block];
  }

  // An empty block in any letter case is removed.
  lemma StripEmptyBlock(open: string, close: string, args: string, closeArgs: string)
    requires |open| == 6 && |close| == 7 && |args| == 6 && |closeArgs| == 7
    requires FoldPrefix(open, "<tool>") && FoldPrefix(close, "</tool>")
    requires FoldPrefix(args, "<args>") && FoldPrefix(closeArgs, "</args>") && args[0] == '<'
    ensures Strip(open + close + args + closeArgs) == ""
  {
    EmptyBlockLen(open, close, args, closeArgs);
    StripWhole(open + close + args + closeArgs);
  }

  lemma StripWhole(s: string)
    requires s != "" && BlockLen(s) == Some(|s|)
    ensures Strip(s) == ""
  {
  }

  lemma EmptyBlockLen(open: string, close: string, args: string, closeArgs: string)
    requires |open| == 6 && |close| == 7 && |args| == 6 && |closeArgs| == 7
    requires FoldPrefix(open, "<tool>") && FoldPrefix(close, "</tool>")
    requires FoldPrefix(args, "<args>") && FoldPrefix(closeArgs, "</args>") && args[0] == '<'
    ensures BlockLen(open + close + args + closeArgs) == Some(26)
  {
    var s := open + close + args + closeArgs;
    var afterOpen, afterClose := close + args + closeArgs, args + closeArgs;
    EmptyArgs(args, closeArgs);
    assert s[6..] == afterOpen && afterOpen[7..] == afterClose;
    assert FoldPrefix(afterOpen, "</tool>");
    assert CloseTool(afterOpen) == Some(20);
    assert FoldPrefix(s, "<tool>");
  }

  lemma EmptyArgs(args: string, closeArgs: string)
    requires |args| == 6 && |closeArgs| == 7
    requires FoldPrefix(args, "<args>") && FoldPrefix(closeArgs, "</args>") && args[0] == '<'
    ensures ArgsBlock(args + closeArgs) == Some(13)
  {
    var s := args + closeArgs;
    assert SpaceLen(s) == 0 && s[0..] == s && s[6..] == closeArgs && closeArgs[7..] == "";
    assert FoldPrefix(s, "<args>");
    assert CloseArgs(closeArgs) == Some(7);
  }

  // ----- the second filter, between the engine and the client -------------------------------

  const PARTIAL_MARKERS: seq<string> := ["<tool>", "<tool", "</tool", "<args", "</args"]

  // `s.rfind(p)`, with -1 for "not found".
  function RFind(s: string, p: string, end: nat): (r: int)
    ensures -1 <= r < end
    ensures r >= 0 ==> MatchesAt(s, r, p)
    ensures forall i: nat | r < i < end :: !MatchesAt(s, i, p)
    decreases end
  {
    if end == 0 then -1
    else if MatchesAt(s, end - 1, p) then end - 1
    else RFind(s, p, end - 1)
  }

  ghost predicate MarkerAt(s: string, i: nat) {
    exists k | 0 <= k < |PARTIAL_MARKERS| :: MatchesAt(s, i, PARTIAL_MARKERS[k])
  }

  // Where a buffer stops being flushed: its rightmost marker, or its end.
  lemma MarkerAtIff(s: string, i: nat)
    ensures MarkerAt(s, i) <==>
            MatchesAt(s, i, "<tool") || MatchesAt(s, i, "</tool")
            || MatchesAt(s, i, "<args") || MatchesAt(s, i, "</args")
  {
    assert PARTIAL_MARKERS[0] == "<tool>" && PARTIAL_MARKERS[1] == "<tool" && PARTIAL_MARKERS[2] == "</tool";
    assert PARTIAL_MARKERS[3] == "<args" && PARTIAL_MARKERS[4] == "</args";
    if MatchesAt(s, i, "<tool>") {
      assert s[i..i + 5] == s[i..i + 6][..5];
    }
  }

  ghost predicate IsHoldPoint(buffer: string, h: nat) {
    && h <= |buffer|
    && (h < |buffer| ==> MarkerAt(buffer, h))
    && (forall i: nat | h < i < |buffer| :: !MarkerAt(buffer, i))
    && (h == |buffer| ==> forall i: nat | i < |buffer| :: !MarkerAt(buffer, i))
  }

  method HoldAt(pending: string) returns (holdAt: int)
    ensures -1 <= holdAt < |pending|
    ensures IsHoldPoint(pending, if holdAt < 0 then |pending| else holdAt)
  {
    holdAt := -1;
    for k := 0 to |PARTIAL_MARKERS|
      invariant -1 <= holdAt < |pending| || holdAt == -1
      invariant holdAt >= 0 ==> MarkerAt(pending, holdAt)
      invariant forall i: nat, j | holdAt < i < |pending| && 0 <= j < k :: !MatchesAt(pending, i, PARTIAL_MARKERS[j])
    {
      var idx := RFind(pending, PARTIAL_MARKERS[k], |pending|);
      if idx >= 0 && idx > holdAt { holdAt := idx; }
    }
  }

  lemma HoldPointUnique(buffer: string, h: nat, g: nat)
    requires IsHoldPoint(buffer, h) && IsHoldPoint(buffer, g)
    ensures h == g
  {
  }

  lemma {:induction false} HoldPointExists(buffer: string, end: nat) returns (h: nat)
    requires end <= |buffer|
    requires forall i: nat | end <= i < |buffer| :: !MarkerAt(buffer, i)
    ensures IsHoldPoint(buffer, h)
    decreases end
  {
    if end == 0 { h := |buffer|; }
    else if MarkerAt(buffer, end - 1) { h := end - 1; }
    else { h := HoldPointExists(buffer, end - 1); }
  }

  ghost function HoldPoint(buffer: string): (h: nat)
    ensures IsHoldPoint(buffer, h)
  {
    assert exists h: nat :: IsHoldPoint(buffer, h) by { var h := HoldPointExists(buffer, |buffer|); }
    var h: nat :| IsHoldPoint(buffer, h);
    h
  }

  // All text flushed, and the text still pending, after these tokens.
  ghost function Filtered(tokens: seq<string>): Stream {
    if tokens == [] then Stream("", "") else
    FilteredNext(Filtered(tokens[..|tokens| - 1]), tokens[|tokens| - 1])
  }

  ghost function FilteredNext(before: Stream, token: string): Stream {
    var buffer := Strip(before.held + token);
    var h := HoldPoint(buffer);
    Stream(before.flushed + buffer[..h], buffer[h..])
  }

  // One token: strip complete blocks, then flush up to the rightmost marker.
  method FilterToken(pending: string, token: string) returns (flush: string, kept: string)
    ensures var buffer := Strip(pending + token);
            flush == buffer[..HoldPoint(buffer)] && kept == buffer[HoldPoint(buffer)..]
  {
    var buffer := Strip(pending + token);
    var holdAt := HoldAt(buffer);
    HoldPointUnique(buffer, HoldPoint(buffer), if holdAt < 0 then |buffer| else holdAt);
    if holdAt >= 0 {
      flush, kept := buffer[..holdAt], buffer[holdAt..];
    } else {
      flush, kept := buffer, "";
    }
  }

  // The whole loop, for a socket that stays open: the frames sent and the returned text.
  method FilterStream(tokens: seq<string>) returns (sent: seq<string>, responseText: string)
    ensures responseText == Strip(Concat(tokens))
    ensures "" !in sent
    ensures Concat(sent) == Filtered(tokens).flushed + Strip(Filtered(tokens).held)
  {
    sent := [];
    var pending, full := "", "";
    for n := 0 to |tokens|
      invariant full == Concat(tokens[..n])
      invariant "" !in sent
      invariant Stream(Concat(sent), pending) == Filtered(tokens[..n])
    {
      assert tokens[..n + 1][..n] == tokens[..n];
      full := full + tokens[n];
      var flush;
      flush, pending := FilterToken(pending, tokens[n]);
      if flush != "" {
        ConcatSnoc(sent, flush);
        sent := sent + [flush];
      }
    }
    assert tokens[..|tokens|] == tokens;
    var last := Strip(pending);
    if last != "" {
      ConcatSnoc(sent, last);
      sent := sent + [last];
    }
    responseText := Strip(full);
  }

  // On text without a tag the filter loses, adds and reorders nothing.
  lemma {:induction false} FilterTransparent(tokens: seq<string>)
    requires Untagged(Concat(tokens))
    ensures Filtered(tokens).flushed + Filtered(tokens).held == Concat(tokens)
    ensures Strip(Filtered(tokens).held) == Filtered(tokens).held
  {
    if tokens != [] {
      var n := |tokens| - 1;
      var text := Concat(tokens);
      assert text[0..|text| - |tokens[n]|] == Concat(tokens[..n]);
      UntaggedPart(text, 0, |text| - |tokens[n]|);
      FilterTransparent(tokens[..n]);
      FilteredNextTransparent(Filtered(tokens[..n]), tokens[n], text);
    }
  }

  lemma FilteredNextTransparent(before: Stream, token: string, text: string)
    requires before.flushed + before.held + token == text && Untagged(text)
    ensures var r := FilteredNext(before, token);
            r.flushed + r.held == text && Strip(r.held) == r.held
  {
    var buffer := before.held + token;
    assert before.flushed + buffer == text;
    PendingUntagged(before.flushed, buffer, text);
    var h := HoldPoint(buffer);
    assert (before.flushed + buffer[..h]) + buffer[h..] == text;
    PendingUntagged(before.flushed + buffer[..h], buffer[h..], text);
  }

  lemma PendingUntagged(sent: string, pending: string, text: string)
    requires sent + pending <= text && Untagged(text)
    ensures Strip(pending) == pending
  {
    assert pending == text[|sent|..|sent| + |pending|];
    UntaggedPart(text, |sent|, |sent| + |pending|);
    StripUntagged(pending);
  }

  // Both filters in a row, for a reply with no `<tool>` in any letter case: the client
  // receives exactly the model's text, and that is what the engine stores.
  method TransparentTurn(tokens: seq<string>, names: set<string>, hasRegistry: bool)
    returns (sent: seq<string>, stored: string)
    ensures stored == Concat(tokens)
    ensures Untagged(Concat(tokens)) ==> Concat(sent) == Concat(tokens)
  {
    var m := TinkerMarkers(names);
    TinkerMarkersWellShaped(names);
    var shown, responseText;
    shown, stored := FinishReply(tokens, m, hasRegistry);
    if Untagged(Concat(tokens)) && hasRegistry {
      var r := Streamed(tokens, m);
      PendingUntagged(r.flushed, r.held, Concat(tokens));
    }
    sent, responseText := FilterStream(shown);
    if Untagged(Concat(shown)) { FilterTransparent(shown); }
  }

  // ----- what the second filter hides -----------------------------------------------------------

  // No marker, complete or partial, that the filter looks for.
  ghost predicate Clean(s: string) { forall i: nat :: !MarkerAt(s, i) }

  // The end of f and the beginning of g join to a marker.
  ghost predicate Straddles(f: string, g: string) {
    exists k, c: nat :: JoinsAt(f, g, k, c)
  }

  ghost predicate JoinsAt(f: string, g: string, k: int, c: nat) {
    && 0 <= k < |PARTIAL_MARKERS| && 0 < c < |PARTIAL_MARKERS[k]| && c <= |f|
    && f[|f| - c..] == PARTIAL_MARKERS[k][..c] && PARTIAL_MARKERS[k][c..] <= g
  }

  lemma MatchParts(f: string, g: string, i: nat, p: string)
    requires i < |f| < i + |p| <= |f| + |g|
    ensures MatchesAt(f + g, i, p) <==> f[i..] == p[..|f| - i] && p[|f| - i..] <= g
  {
    var c := |f| - i;
    assert (f + g)[i..i + |p|] == f[i..] + g[..|p| - c];
    assert p == p[..c] + p[c..];
    if MatchesAt(f + g, i, p) {
      assert f[i..] == p[..c] && g[..|p| - c] == p[c..];
    }
  }

  lemma MatchLeft(f: string, g: string, i: nat, p: string)
    requires i + |p| <= |f|
    ensures MatchesAt(f + g, i, p) <==> MatchesAt(f, i, p)
  {
    assert (f + g)[i..i + |p|] == f[i..i + |p|];
  }

  lemma MatchRight(f: string, g: string, i: nat, p: string)
    requires |f| <= i
    ensures MatchesAt(f + g, i, p) <==> MatchesAt(g, i - |f|, p)
  {
    if i + |p| <= |f| + |g| {
      assert (f + g)[i..i + |p|] == g[i - |f|..i - |f| + |p|];
    }
  }

  lemma CleanAppend(f: string, g: string)
    ensures Clean(f + g) <==> Clean(f) && Clean(g) && !Straddles(f, g)
  {
    if !Clean(f) {
      var i: nat :| MarkerAt(f, i);
      var k :| 0 <= k < |PARTIAL_MARKERS| && MatchesAt(f, i, PARTIAL_MARKERS[k]);
      MatchLeft(f, g, i, PARTIAL_MARKERS[k]);
      assert MarkerAt(f + g, i);
    } else if !Clean(g) {
      var i: nat :| MarkerAt(g, i);
      var k :| 0 <= k < |PARTIAL_MARKERS| && MatchesAt(g, i, PARTIAL_MARKERS[k]);
      MatchRight(f, g, |f| + i, PARTIAL_MARKERS[k]);
      assert MarkerAt(f + g, |f| + i);
    } else if Straddles(f, g) {
      var k, c: nat :| JoinsAt(f, g, k, c);
      MatchParts(f, g, |f| - c, PARTIAL_MARKERS[k]);
      assert MarkerAt(f + g, |f| - c);
    } else if !Clean(f + g) {
      var i: nat :| MarkerAt(f + g, i);
      var k :| 0 <= k < |PARTIAL_MARKERS| && MatchesAt(f + g, i, PARTIAL_MARKERS[k]);
      SplitMarker(f, g, i, k);
    }
  }

  lemma SplitMarker(f: string, g: string, i: nat, k: nat)
    requires k < |PARTIAL_MARKERS| && MatchesAt(f + g, i, PARTIAL_MARKERS[k])
    ensures MarkerAt(f, i) || (i >= |f| && MarkerAt(g, i - |f|)) || Straddles(f, g)
  {
    var p := PARTIAL_MARKERS[k];
    if i + |p| <= |f| {
      MatchLeft(f, g, i, p);
    } else if i >= |f| {
      MatchRight(f, g, i, p);
    } else {
      MatchParts(f, g, i, p);
      assert JoinsAt(f, g, k, |f| - i);
    }
  }

  // A marker has its only `<` in front, so two markers of one text do not overlap.
  lemma MarkersApart(s: string, i: nat, k: nat, j: nat)
    requires k < |PARTIAL_MARKERS| && MatchesAt(s, i, PARTIAL_MARKERS[k]) && MarkerAt(s, j) && i < j
    ensures i + |PARTIAL_MARKERS[k]| <= j
  {
    var l :| 0 <= l < |PARTIAL_MARKERS| && MatchesAt(s, j, PARTIAL_MARKERS[l]);
    var p, q := PARTIAL_MARKERS[k], PARTIAL_MARKERS[l];
    OneAngle(k);
    OneAngle(l);
    assert s[j] == s[j..j + |q|][0] == '<';
    MatchChars(s, i, p);
  }

  lemma MatchChars(s: string, i: nat, p: string)
    requires MatchesAt(s, i, p)
    ensures forall j | i <= j < i + |p| :: s[j] == p[j - i]
  {
    forall j | i <= j < i + |p| ensures s[j] == p[j - i] {
      assert s[i..i + |p|][j - i] == s[j];
    }
  }

  lemma OneAngle(k: nat)
    requires k < |PARTIAL_MARKERS|
    ensures var p := PARTIAL_MARKERS[k]; p != "" && p[0] == '<' && forall n | 1 <= n < |p| :: p[n] != '<'
  {
  }

  // What one step flushes is clean exactly when the buffer has no marker before its hold point.
  lemma FlushClean(buffer: string)
    ensures Clean(buffer[..HoldPoint(buffer)]) <==> forall i: nat | i < HoldPoint(buffer) :: !MarkerAt(buffer, i)
  {
    var h := HoldPoint(buffer);
    var head, tail := buffer[..h], buffer[h..];
    assert buffer == head + tail;
    forall i: nat | i < h ensures MarkerAt(head, i) <==> MarkerAt(buffer, i) {
      if MarkerAt(buffer, i) {
        var k :| 0 <= k < |PARTIAL_MARKERS| && MatchesAt(buffer, i, PARTIAL_MARKERS[k]);
        if h < |buffer| {
          MarkersApart(buffer, i, k, h);
        }
        MatchLeft(head, tail, i, PARTIAL_MARKERS[k]);
      }
      if MarkerAt(head, i) {
        var k :| 0 <= k < |PARTIAL_MARKERS| && MatchesAt(head, i, PARTIAL_MARKERS[k]);
        MatchLeft(head, tail, i, PARTIAL_MARKERS[k]);
      }
    }
  }

  // A step that flushes no marker: its buffer has none before the hold point, and none arises where
  // the flush meets what was flushed before.
  ghost predicate FlushesNone(before: Stream, token: string) {
    var buffer := Strip(before.held + token);
    && (forall i: nat | i < HoldPoint(buffer) :: !MarkerAt(buffer, i))
    && !Straddles(before.flushed, buffer[..HoldPoint(buffer)])
  }

  // The filter's documented aim, that no part of a tool block is ever flushed, over a whole stream.
  lemma {:induction false} FilteredCleanIff(tokens: seq<string>)
    ensures Clean(Filtered(tokens).flushed) <==> forall n | 0 <= n < |tokens| ::
            FlushesNone(Filtered(tokens[..n]), tokens[n])
  {
    hide Clean, FlushesNone, FilteredNext;
    if tokens == [] {
      NothingIsClean();
    } else {
      var n := |tokens| - 1;
      FilteredCleanIff(tokens[..n]);
      NextCleanIff(Filtered(tokens[..n]), tokens[n]);
      forall m | 0 <= m < n ensures tokens[..n][..m] == tokens[..m] && tokens[..n][m] == tokens[m] {
      }
    }
  }

  lemma NothingIsClean()
    ensures Clean("")
  {
  }

  lemma NextCleanIff(before: Stream, token: string)
    ensures Clean(FilteredNext(before, token).flushed) <==> Clean(before.flushed) && FlushesNone(before, token)
  {
    hide Clean, Straddles;
    var buffer := Strip(before.held + token);
    CleanAppend(before.flushed, buffer[..HoldPoint(buffer)]);
    FlushClean(buffer);
  }

  // And with the rest that is sent when the stream ends.
  lemma SentCleanIff(tokens: seq<string>)
    ensures var r := Filtered(tokens);
            Clean(r.flushed + Strip(r.held)) <==>
            (forall n | 0 <= n < |tokens| :: FlushesNone(Filtered(tokens[..n]), tokens[n]))
            && Clean(Strip(r.held)) && !Straddles(r.flushed, Strip(r.held))
  {
    FilteredCleanIff(tokens);
    CleanAppend(Filtered(tokens).flushed, Strip(Filtered(tokens).held));
  }

  // One way it fails: a marker arrives while an earlier one is held, which is then flushed.
  lemma SplitBlockLeaks()
    ensures Filtered(["<tool>x</tool"]) == Stream("<tool>x", "</tool") && !FlushesNone(Stream("", ""), "<tool>x</tool")
  {
    var s := "<tool>" + "x" + "</tool";
    assert s == "<tool>x</tool";
    assert MatchesAt(s, 7, PARTIAL_MARKERS[2]) by { assert s[7..13] == "</tool"; }
    assert MatchesAt(s, 0, PARTIAL_MARKERS[0]) by { assert s[0..6] == "<tool>"; }
    forall i: nat | 7 < i < 13 ensures !MarkerAt(s, i) {
      assert s[i] != '<';
      NoAngleNoMarker(s, i);
    }
    HoldPointUnique(s, HoldPoint(s), 7);
    OneCloseOnly(s);
    FirstStep(s);
    assert s[..7] == "<tool>x" && s[7..] == "</tool";
    assert MarkerAt(s, 0);
  }

  lemma NoAngleNoMarker(s: string, i: nat)
    requires i < |s| && s[i] != '<'
    ensures !MarkerAt(s, i)
  {
    forall k | 0 <= k < |PARTIAL_MARKERS| ensures !MatchesAt(s, i, PARTIAL_MARKERS[k]) {
      OneAngle(k);
      assert i + |PARTIAL_MARKERS[k]| <= |s| ==> s[i] == s[i..i + |PARTIAL_MARKERS[k]|][0];
    }
  }

  // A text with less room than a whole block is not stripped.
  lemma {:induction false} OneCloseOnly(s: string)
    requires |s| < 26
    ensures Strip(s) == s
  {
    if s != "" {
      ShortHasNoBlock(s);
      OneCloseOnly(s[1..]);
    }
  }

  lemma ShortHasNoBlock(s: string)
    requires |s| < 26
    ensures BlockLen(s) == None
  {
    if FoldPrefix(s, "<tool>") {
      ShortHasNoClose(s[6..]);
    }
  }

  lemma {:induction false} ShortHasNoClose(s: string)
    requires |s| < 20
    ensures CloseTool(s) == None
  {
    if FoldPrefix(s, "</tool>") {
      ShortHasNoArgs(s[7..]);
    }
    if s != "" {
      ShortHasNoClose(s[1..]);
    }
  }

  lemma ShortHasNoArgs(s: string)
    requires |s| < 13
    ensures ArgsBlock(s) == None
  {
    var n := SpaceLen(s);
    if FoldPrefix(s[n..], "<args>") {
      ShortHasNoCloseArgs(s[n..][6..]);
    }
  }

  lemma {:induction false} ShortHasNoCloseArgs(s: string)
    requires |s| < 7
    ensures CloseArgs(s) == None
  {
    if s != "" {
      ShortHasNoCloseArgs(s[1..]);
    }
  }

  lemma FirstStep(s: string)
    requires Strip(s) == s
    ensures Filtered([s]) == Stream(s[..HoldPoint(s)], s[HoldPoint(s)..])
    ensures Strip("" + s) == s
  {
    assert [s][..0] == [] && "" + s == s;
    assert "" + s[..HoldPoint(s)] == s[..HoldPoint(s)];
  }

  // The other way: no step has a marker in its buffer, and the flushed pieces join to one.
  lemma SplitOpeningLeaks()
    ensures Filtered(["<to", "ol>x"]) == Stream("<tool>x", "")
    ensures HoldPoint("<to") == 3 && HoldPoint("ol>x") == 4 && !Clean("<tool>x")
  {
    var a, b := "<to", "ol>x";
    PiecesJoin(a, b);
    assert a + b == "<tool>x";
    assert (a + b)[0..6] == "<tool>";
    assert MatchesAt(a + b, 0, PARTIAL_MARKERS[0]);
    assert MarkerAt(a + b, 0);
  }

  lemma PiecesJoin(a: string, b: string)
    requires |a| < 5 && |b| < 5
    ensures Filtered([a, b]) == Stream(a + b, "") && HoldPoint(a) == |a| && HoldPoint(b) == |b|
  {
    ShortIsFlushed(a);
    ShortIsFlushed(b);
    FirstStep(a);
    assert [a, b][..1] == [a];
    assert Filtered([a]) == Stream(a, "");
    assert "" + b == b;
    assert b[..|b|] == b && b[|b|..] == "";
  }

  lemma ShortIsFlushed(s: string)
    requires |s| < 5
    ensures Strip(s) == s && HoldPoint(s) == |s|
  {
    OneCloseOnly(s);
    forall i: nat ensures !MarkerAt(s, i) {
      forall k | 0 <= k < |PARTIAL_MARKERS| ensures !MatchesAt(s, i, PARTIAL_MARKERS[k]) {
        LongMarker(k);
      }
    }
    HoldPointUnique(s, HoldPoint(s), |s|);
  }

  lemma LongMarker(k: nat)
    requires k < |PARTIAL_MARKERS|
    ensures |PARTIAL_MARKERS[k]| >= 5
  {
  }
}
