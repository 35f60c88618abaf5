/** The rolling tool-marker detector of the conversation engine: `_split_at_marker_boundary`
    and the token loop that calls it again after every token. */
module MarkerSplit {
  import opened Text

  const STATIC_OPENERS: seq<string> := ["<tool>", "[tool>", "<tool]", "[tool]", "<tool_call>"]
  const MAX_OPENER: nat := 11

  // The openers a split looks for: the static ones, held back from their first character on,
  // and the registered tool names, recognised only as a complete `[NAME]`.
  datatype Markers = Markers(statics: seq<string>, names: set<string>)

  function TinkerMarkers(names: set<string>): Markers { Markers(STATIC_OPENERS, names) }

  function Static(m: Markers): Markers { m.(names := {}) }

  function Bracketed(name: string): string { "[" + name + "]" }

  // ----- what the split means -------------------------------------------------------

  // A complete opener, static or `[NAME]`, starts at i.
  ghost predicate CompleteAt(s: string, i: nat, m: Markers) {
    || (exists k | 0 <= k < |m.statics| :: MatchesAt(s, i, m.statics[k]))
    || (exists n | n in m.names :: MatchesAt(s, i, Bracketed(n)))
  }

  // The text ends, from i on, inside a static opener that has not been completed.
  ghost predicate PartialAt(s: string, i: nat, m: Markers) {
    i < |s| && exists k | 0 <= k < |m.statics| :: s[i..] < m.statics[k]
  }

  ghost predicate OpensAt(s: string, i: nat, m: Markers) {
    CompleteAt(s, i, m) || PartialAt(s, i, m)
  }

  // Where one scan of the whole text stops being safe to show.
  ghost function Boundary(s: string, m: Markers): (b: nat)
    ensures b <= |s|
  {
    BoundaryFrom(s, 0, m)
  }

  ghost function BoundaryFrom(s: string, i: nat, m: Markers): (b: nat)
    requires i <= |s|
    ensures i <= b <= |s|
    decreases |s| - i
  {
    if i == |s| || OpensAt(s, i, m) then i else BoundaryFrom(s, i + 1, m)
  }

  // The boundary is the leftmost opening, or the end.
  lemma BoundaryIsLeftmost(s: string, m: Markers)
    ensures var b := Boundary(s, m);
            && (b < |s| ==> OpensAt(s, b, m))
            && (forall j: nat | j < b :: !OpensAt(s, j, m))
  {
    BoundaryFromIsLeftmost(s, 0, m);
  }

  lemma {:induction false} BoundaryFromIsLeftmost(s: string, i: nat, m: Markers)
    requires i <= |s|
    ensures var b := BoundaryFrom(s, i, m);
            && (b < |s| ==> OpensAt(s, b, m))
            && (forall j: nat | i <= j < b :: !OpensAt(s, j, m))
    decreases |s| - i
  {
    if i < |s| && !OpensAt(s, i, m) {
      BoundaryFromIsLeftmost(s, i + 1, m);
    }
  }

  lemma BoundaryIs(s: string, b: nat, m: Markers)
    requires b <= |s|
    requires b < |s| ==> OpensAt(s, b, m)
    requires forall j: nat | j < b :: !OpensAt(s, j, m)
    ensures b == Boundary(s, m)
  {
    BoundaryIsLeftmost(s, m);
  }

  // ----- the shape of the openers ---------------------------------------------------

  predicate FirstCharOnce(op: string) {
    1 <= |op| <= MAX_OPENER && forall j | 1 <= j < |op| :: op[j] != op[0]
  }

  predicate WellShaped(m: Markers) {
    forall k | 0 <= k < |m.statics| :: FirstCharOnce(m.statics[k])
  }

  lemma TinkerMarkersWellShaped(names: set<string>)
    ensures WellShaped(TinkerMarkers(names))
  {
    forall k | 0 <= k < |STATIC_OPENERS| ensures FirstCharOnce(STATIC_OPENERS[k]) {
      assert k == 0 || k == 1 || k == 2 || k == 3 || k == 4;
    }
  }

  // The tail scan tries the shortest partial of each opener first and stops at the first hit.
  // That is the only hit: a second, longer one would repeat the opener's first character.
  lemma OnePartialPerOpener(s: string, op: string, p: nat, q: nat)
    requires FirstCharOnce(op)
    requires 1 <= p < |op| && 1 <= q < |op|
    requires p <= |s| && q <= |s|
    requires s[|s| - p..] == op[..p]
    requires s[|s| - q..] == op[..q]
    ensures p == q
  {
    TwoPartialsRepeat(s, op, p, q);
    TwoPartialsRepeat(s, op, q, p);
  }

  lemma TwoPartialsRepeat(s: string, op: string, p: nat, q: nat)
    requires 1 <= p < |op| && 1 <= q < |op| && p <= |s| && q <= |s|
    requires s[|s| - p..] == op[..p] && s[|s| - q..] == op[..q]
    ensures p < q ==> op[q - p] == op[0]
  {
    if p < q {
      assert s[|s| - p] == s[|s| - p..][0] == op[0];
      assert s[|s| - p] == s[|s| - q..][q - p] == op[q - p];
    }
  }

  // ----- the code -------------------------------------------------------------------

  // `accumulated.find(op)`, with |s| standing for "not found".
  method Find(s: string, op: string) returns (idx: nat)
    requires op != ""
    ensures idx <= |s|
    ensures idx < |s| ==> MatchesAt(s, idx, op)
    ensures forall j: nat | j < idx :: !MatchesAt(s, j, op)
  {
    idx := 0;
    while idx < |s|
      invariant idx <= |s|
      invariant forall j: nat | j < idx :: !MatchesAt(s, j, op)
    {
      if MatchesAt(s, idx, op) { return; }
      idx := idx + 1;
    }
  }

  method SplitAtMarkerBoundary(accumulated: string, m: Markers)
    returns (flushable: string, held: string)
    requires WellShaped(m)
    ensures flushable == accumulated[..Boundary(accumulated, m)]
    ensures held == accumulated[Boundary(accumulated, m)..]
  {
    var holdAt: nat := |accumulated|;
    // Earliest complete opener, static ones first.
    for k := 0 to |m.statics|
      invariant holdAt <= |accumulated|
      invariant holdAt < |accumulated| ==> CompleteAt(accumulated, holdAt, m)
      invariant forall i: nat, j | i < holdAt && 0 <= j < k :: !MatchesAt(accumulated, i, m.statics[j])
    {
      var idx := Find(accumulated, m.statics[k]);
      if idx < holdAt { holdAt := idx; }
    }
    var rest := m.names;
    while rest != {}
      invariant rest <= m.names
      invariant holdAt <= |accumulated|
      invariant holdAt < |accumulated| ==> CompleteAt(accumulated, holdAt, m)
      invariant forall i: nat, j | i < holdAt && 0 <= j < |m.statics| :: !MatchesAt(accumulated, i, m.statics[j])
      invariant forall i: nat, n | i < holdAt && n in m.names - rest :: !MatchesAt(accumulated, i, Bracketed(n))
    {
      var n :| n in rest;
      var idx := Find(accumulated, Bracketed(n));
      if idx < holdAt { holdAt := idx; }
      rest := rest - {n};
    }
    assert forall i: nat | i < holdAt :: !CompleteAt(accumulated, i, m);
    ghost var complete := holdAt;
    // Tail partials, shortest first.
    var window := if |accumulated| <= MAX_OPENER then accumulated else accumulated[|accumulated| - MAX_OPENER..];
    for k := 0 to |m.statics|
      invariant holdAt <= complete
      invariant holdAt < |accumulated| ==> OpensAt(accumulated, holdAt, m)
      invariant forall i: nat, j | i < holdAt && 0 <= j < k :: !(accumulated[i..] < m.statics[j])
    {
      holdAt := LowerToPartial(accumulated, window, m, k, holdAt);
    }
    BoundaryIs(accumulated, holdAt, m);
    flushable, held := accumulated[..holdAt], accumulated[holdAt..];
  }

  // One opener's share of the tail scan: the loop over `partial_len` with its `break`.
  method LowerToPartial(s: string, window: string, m: Markers, k: nat, holdAt: nat)
    returns (lowered: nat)
    requires WellShaped(m) && k < |m.statics|
    requires window == if |s| <= MAX_OPENER then s else s[|s| - MAX_OPENER..]
    requires holdAt <= |s|
    requires holdAt < |s| ==> OpensAt(s, holdAt, m)
    ensures lowered <= holdAt
    ensures lowered < |s| ==> OpensAt(s, lowered, m)
    ensures forall i: nat | i < lowered :: !(s[i..] < m.statics[k])
  {
    var op := m.statics[k];
    lowered := holdAt;
    var partialLen := 1;
    while partialLen < |op|
      invariant 1 <= partialLen <= |op|
      invariant lowered == holdAt
      invariant forall p | 1 <= p < partialLen && p <= |s| :: s[|s| - p..] != op[..p]
    {
      WindowSuffix(s, window, op, partialLen);
      if partialLen <= |window| && window[|window| - partialLen..] == op[..partialLen] {
        var tailStart := |s| - partialLen;
        assert s[tailStart..] == op[..partialLen] < op;
        assert PartialAt(s, tailStart, m);
        if tailStart < lowered { lowered := tailStart; }
        forall i: nat | i < lowered ensures s[i..] < op ==> i == tailStart {
          OnlyTailPartial(s, op, i, partialLen);
        }
        return;
      }
      partialLen := partialLen + 1;
    }
    forall i: nat | i < lowered ensures !(s[i..] < op) { PartialHead(s, i, op); }
  }

  lemma PartialHead(s: string, i: nat, op: string)
    requires i <= |s|
    ensures s[i..] < op <==> |s| - i < |op| && s[|s| - (|s| - i)..] == op[..|s| - i]
  {
  }

  lemma OnlyTailPartial(s: string, op: string, i: nat, p: nat)
    requires FirstCharOnce(op) && i < |s|
    requires 1 <= p < |op| && p <= |s| && s[|s| - p..] == op[..p]
    ensures s[i..] < op ==> i == |s| - p
  {
    if s[i..] < op {
      PartialHead(s, i, op);
      OnePartialPerOpener(s, op, |s| - i, p);
    }
  }

  // Looking at the last eleven characters is as good as looking at the whole text.
  lemma WindowSuffix(s: string, window: string, op: string, p: nat)
    requires window == if |s| <= MAX_OPENER then s else s[|s| - MAX_OPENER..]
    requires p < |op| <= MAX_OPENER
    ensures (p <= |window| && window[|window| - p..] == op[..p]) <==> (p <= |s| && s[|s| - p..] == op[..p])
  {
    if p <= |window| {
      assert window[|window| - p..] == s[|s| - p..];
    }
  }

  // ----- the token loop -------------------------------------------------------------

  datatype Stream = Stream(flushed: string, held: string)

  // Everything yielded, and everything still held back, after these tokens.
  ghost function Streamed(tokens: seq<string>, m: Markers): (r: Stream)
    ensures r.flushed + r.held == Concat(tokens)
  {
    if tokens == [] then Stream("", "")
    else After(Streamed(tokens[..|tokens| - 1], m), tokens[|tokens| - 1], m)
  }

  ghost function After(before: Stream, token: string, m: Markers): (r: Stream)
    ensures r.flushed + r.held == before.flushed + before.held + token
  {
    var buffer := before.held + token;
    var b := Boundary(buffer, m);
    assert before.flushed + buffer == before.flushed + before.held + token;
    assert buffer[..b] + buffer[b..] == buffer;
    Stream(before.flushed + buffer[..b], buffer[b..])
  }

  // The `async for` of one generation.  Without a registry every token is yielded raw.
  method StreamGeneration(tokens: seq<string>, m: Markers, hasRegistry: bool)
    returns (shown: seq<string>, held: string, response: string)
    requires WellShaped(m)
    ensures response == Concat(tokens)
    ensures hasRegistry ==> Stream(Concat(shown), held) == Streamed(tokens, m)
    ensures !hasRegistry ==> shown == tokens && held == ""
    ensures hasRegistry ==> "" !in shown
  {
    hide Streamed, Boundary, Concat, WellShaped, After;
    shown, held, response := [], "", "";
    NothingStreamed(m);
    for i := 0 to |tokens|
      invariant response == Concat(tokens[..i])
      invariant hasRegistry ==> Stream(Concat(shown), held) == Streamed(tokens[..i], m)
      invariant !hasRegistry ==> shown == tokens[..i] && held == ""
      invariant hasRegistry ==> "" !in shown
    {
      StreamedStep(tokens, i, m);
      response := response + tokens[i];
      if !hasRegistry {
        shown := shown + [tokens[i]];
        continue;
      }
      AfterIs(Stream(Concat(shown), held), tokens[i], m);
      held := held + tokens[i];
      var flushable;
      flushable, held := SplitAtMarkerBoundary(held, m);
      if flushable != "" {
        ConcatSnoc(shown, flushable);
        shown := shown + [flushable];
      }
    }
    assert tokens[..|tokens|] == tokens;
  }

  lemma NothingStreamed(m: Markers)
    ensures Streamed([], m) == Stream("", "") && Concat([]) == ""
  {
  }

  lemma StreamedStep(tokens: seq<string>, i: nat, m: Markers)
    requires i < |tokens|
    ensures Streamed(tokens[..i + 1], m) == After(Streamed(tokens[..i], m), tokens[i], m)
    ensures Concat(tokens[..i + 1]) == Concat(tokens[..i]) + tokens[i]
  {
    assert tokens[..i + 1][..i] == tokens[..i];
  }

  lemma AfterIs(before: Stream, token: string, m: Markers)
    ensures var buffer := before.held + token;
            After(before, token, m)
            == Stream(before.flushed + buffer[..Boundary(buffer, m)], buffer[Boundary(buffer, m)..])
    ensures Boundary(before.held + token, m) == 0 ==> After(before, token, m).flushed == before.flushed
  {
    assert before.flushed + "" == before.flushed;
  }

  // ----- one scan of the tail is one scan of the whole ----------------------------------

  lemma MatchesAtDrop(s: string, f: nat, i: nat, p: string)
    requires f <= |s|
    ensures MatchesAt(s[f..], i, p) <==> MatchesAt(s, f + i, p)
  {
    if f + i + |p| <= |s| {
      assert s[f..][i..i + |p|] == s[f + i..f + i + |p|];
    }
  }

  lemma OpensAtDrop(s: string, f: nat, i: nat, m: Markers)
    requires f <= |s|
    ensures OpensAt(s[f..], i, m) <==> OpensAt(s, f + i, m)
  {
    forall p: string ensures MatchesAt(s[f..], i, p) <==> MatchesAt(s, f + i, p) { MatchesAtDrop(s, f, i, p); }
    if i < |s[f..]| {
      assert s[f..][i..] == s[f + i..];
    }
  }

  // Dropping text that was already safe does not move the boundary.
  lemma RestartKeepsBoundary(s: string, f: nat, m: Markers)
    requires f <= Boundary(s, m)
    ensures Boundary(s[f..], m) == Boundary(s, m) - f
  {
    BoundaryIsLeftmost(s, m);
    var b := Boundary(s, m);
    forall j: nat ensures OpensAt(s[f..], j, m) <==> OpensAt(s, f + j, m) { OpensAtDrop(s, f, j, m); }
    BoundaryIs(s[f..], b - f, m);
  }

  // Whatever opens before text seen so far was already visible there: only a `[NAME]`
  // opener, which is not held as a partial, can appear behind the boundary later.
  lemma StaticBoundaryGrows(s: string, t: string, m: Markers)
    ensures Boundary(s, Static(m)) <= Boundary(s + t, Static(m))
  {
    BoundaryIsLeftmost(s, Static(m));
    BoundaryIsLeftmost(s + t, Static(m));
    var b := Boundary(s + t, Static(m));
    if b < |s| {
      OpenedEarlier(s, t, b, Static(m));
    }
  }

  lemma OpenedEarlier(s: string, t: string, i: nat, m: Markers)
    requires i < |s| && OpensAt(s + t, i, m)
    ensures OpensAt(s, i, m) || CompleteAt(s + t, i, m)
    ensures m.names == {} ==> OpensAt(s, i, m)
  {
    if exists k | 0 <= k < |m.statics| :: MatchesAt(s + t, i, m.statics[k]) {
      var k :| 0 <= k < |m.statics| && MatchesAt(s + t, i, m.statics[k]);
      var op := m.statics[k];
      if i + |op| <= |s| {
        assert s[i..i + |op|] == (s + t)[i..i + |op|];
        assert MatchesAt(s, i, m.statics[k]);
      } else {
        assert s[i..] == (s + t)[i..i + |op|][..|s| - i];
        assert s[i..] < m.statics[k];
      }
    } else if PartialAt(s + t, i, m) {
      var k :| 0 <= k < |m.statics| && (s + t)[i..] < m.statics[k];
      assert s[i..] == (s + t)[i..][..|s| - i];
      assert s[i..] < m.statics[k];
    }
  }

  // ----- tokenization independence --------------------------------------------------------

  // No token boundary at which one scan of the text so far would flush past the point
  // where one scan of the whole text stops.
  ghost predicate NeverOvershoots(tokens: seq<string>, m: Markers) {
    forall i | 0 <= i <= |tokens| :: Boundary(Concat(tokens[..i]), m) <= Boundary(Concat(tokens), m)
  }

  // The stream never holds back more than a single scan of the same text.
  lemma {:induction false} StreamedAtLeast(tokens: seq<string>, m: Markers)
    ensures Boundary(Concat(tokens), m) <= |Streamed(tokens, m).flushed|
  {
    if tokens != [] {
      var n := |tokens| - 1;
      var before := Streamed(tokens[..n], m);
      var text := Concat(tokens);
      if |before.flushed| <= Boundary(text, m) {
        assert before.held + tokens[n] == text[|before.flushed|..];
        RestartKeepsBoundary(text, |before.flushed|, m);
      }
    }
  }

  lemma {:induction false} StreamedGrows(tokens: seq<string>, i: nat, m: Markers)
    requires i <= |tokens|
    ensures |Streamed(tokens[..i], m).flushed| <= |Streamed(tokens, m).flushed|
  {
    if i == |tokens| {
      assert tokens[..i] == tokens;
    } else {
      var n := |tokens| - 1;
      StreamedGrows(tokens[..n], i, m);
      assert tokens[..n][..i] == tokens[..i];
    }
  }

  // While no boundary overshoots the limit, the stream stands exactly at the boundary
  // of the text received so far.
  lemma {:induction false} StreamedOnBoundary(tokens: seq<string>, whole: string, m: Markers)
    requires Concat(tokens) <= whole
    requires forall i | 0 <= i <= |tokens| :: Boundary(Concat(tokens[..i]), m) <= Boundary(whole, m)
    ensures |Streamed(tokens, m).flushed| == Boundary(Concat(tokens), m)
  {
    if tokens != [] {
      var n := |tokens| - 1;
      forall i | 0 <= i <= n ensures Boundary(Concat(tokens[..n][..i]), m) <= Boundary(whole, m) {
        assert tokens[..n][..i] == tokens[..i];
      }
      StreamedOnBoundary(tokens[..n], whole, m);
      assert Boundary(Concat(tokens[..n]), m) <= Boundary(whole, m);
      AfterOnBoundary(Streamed(tokens[..n], m), tokens[n], whole, m);
    }
  }

  lemma AfterOnBoundary(before: Stream, token: string, whole: string, m: Markers)
    requires before.flushed + before.held + token <= whole
    requires |before.flushed| == Boundary(before.flushed + before.held, m) <= Boundary(whole, m)
    ensures |After(before, token, m).flushed| == Boundary(before.flushed + before.held + token, m)
  {
    var head, f := before.flushed + before.held, |before.flushed|;
    NoOpeningBehind(head, token, whole, f, m);
    assert before.held + token == (head + token)[f..];
    RestartKeepsBoundary(head + token, f, m);
  }

  // A boundary that falls back belongs to a complete opener, and that opener also limits
  // the whole text.
  lemma NoOpeningBehind(head: string, token: string, whole: string, f: nat, m: Markers)
    requires head + token <= whole
    requires f == Boundary(head, m) && f <= Boundary(whole, m)
    ensures f <= Boundary(head + token, m)
  {
    var text := head + token;
    var b := Boundary(text, m);
    if b < |head| {
      assert OpensAt(text, b, m) by { BoundaryIsLeftmost(text, m); }
      OpenedEarlier(head, token, b, m);
      if CompleteAt(text, b, m) {
        StillComplete(text, whole, b, m);
        BoundaryIsLeftmost(whole, m);
        assert OpensAt(whole, b, m);
      } else {
        BoundaryIsLeftmost(head, m);
      }
    }
  }

  lemma StillComplete(s: string, whole: string, i: nat, m: Markers)
    requires s <= whole && CompleteAt(s, i, m)
    ensures CompleteAt(whole, i, m)
  {
    if exists k | 0 <= k < |m.statics| :: MatchesAt(s, i, m.statics[k]) {
      var k :| 0 <= k < |m.statics| && MatchesAt(s, i, m.statics[k]);
      assert MatchesAt(whole, i, m.statics[k]);
    } else {
      var n :| n in m.names && MatchesAt(s, i, Bracketed(n));
      assert MatchesAt(whole, i, Bracketed(n));
    }
  }

  // Streaming agrees with one split of the whole text exactly when no token boundary
  // overshoots, whatever tool names are registered.
  lemma StreamEqualsOneSplitIff(tokens: seq<string>, m: Markers)
    ensures var text, r := Concat(tokens), Streamed(tokens, m);
            var b := Boundary(text, m);
            r == Stream(text[..b], text[b..]) <==> NeverOvershoots(tokens, m)
  {
    var text, r := Concat(tokens), Streamed(tokens, m);
    var b := Boundary(text, m);
    assert r.flushed == text[..|r.flushed|] && r.held == text[|r.flushed|..];
    if NeverOvershoots(tokens, m) {
      StreamedOnBoundary(tokens, text, m);
    }
    if r == Stream(text[..b], text[b..]) {
      forall i | 0 <= i <= |tokens| ensures Boundary(Concat(tokens[..i]), m) <= b {
        StreamedAtLeast(tokens[..i], m);
        StreamedGrows(tokens, i, m);
      }
    }
  }

  // With no registered names every tokenization gives the split of the whole text.
  lemma ChunkIndependence(tokens: seq<string>, m: Markers)
    requires m.names == {}
    ensures var text := Concat(tokens);
            Streamed(tokens, m) == Stream(text[..Boundary(text, m)], text[Boundary(text, m)..])
  {
    assert m == Static(m);
    forall i | 0 <= i <= |tokens|
      ensures Boundary(Concat(tokens[..i]), Static(m)) <= Boundary(Concat(tokens), Static(m))
    {
      assert tokens[..i] + tokens[i..] == tokens;
      ConcatAppend(tokens[..i], tokens[i..]);
      StaticBoundaryGrows(Concat(tokens[..i]), Concat(tokens[i..]), m);
    }
    StreamEqualsOneSplitIff(tokens, Static(m));
  }

  // `[NAME]` openers are not held as partials, so a tokenization can carry one out.
  lemma BracketNameEscapes()
    ensures var tokens, m := ["[rec", "all]"], TinkerMarkers({"recall"});
            Streamed(tokens, m) == Stream(Concat(tokens), "") && Boundary(Concat(tokens), m) == 0
  {
    NoMarkers("[rec", {"recall"});
    NoMarkers("all]", {"recall"});
    TwoTokensEscape("[rec", "all]", {"recall"});
    JoinsToRecall();
    WholeOpens("[rec" + "all]", TinkerMarkers({"recall"}));
  }

  lemma JoinsToRecall()
    ensures "[rec" + "all]" == Bracketed("recall")
  {
  }

  lemma TwoTokensEscape(a: string, b: string, names: set<string>)
    requires Boundary(a, TinkerMarkers(names)) == |a| && Boundary(b, TinkerMarkers(names)) == |b|
    ensures Streamed([a, b], TinkerMarkers(names)) == Stream(a + b, "") && Concat([a, b]) == a + b
  {
    FlushWhole([], a, TinkerMarkers(names));
    FlushWhole([a], b, TinkerMarkers(names));
    assert [] + [a] == [a] && [a] + [b] == [a, b];
    assert "" + a == a;
  }

  lemma WholeOpens(s: string, m: Markers)
    requires s == Bracketed("recall") && "recall" in m.names
    ensures Boundary(s, m) == 0
  {
    assert MatchesAt(s, 0, Bracketed("recall"));
    BoundaryIs(s, 0, m);
  }

  lemma FlushWhole(before: seq<string>, token: string, m: Markers)
    requires Streamed(before, m).held == "" && Boundary(token, m) == |token|
    ensures Streamed(before + [token], m) == Stream(Streamed(before, m).flushed + token, "")
    ensures Concat(before + [token]) == Concat(before) + token
  {
    assert (before + [token])[..|before|] == before;
    assert Streamed(before, m).held + token == token;
    assert token[..|token|] == token && token[|token|..] == "";
  }

  // Every static opener has a small t in second place, so text without one flushes whole.
  lemma NoMarkers(text: string, names: set<string>)
    requires forall i | 0 <= i < |text| :: text[i] != 't'
    requires text != "" ==> text[|text| - 1] != '<' && text[|text| - 1] != '['
    requires forall n | n in names :: |text| < |n| + 2
    ensures Boundary(text, TinkerMarkers(names)) == |text|
  {
    var m := TinkerMarkers(names);
    forall i: nat | i < |text| ensures !OpensAt(text, i, m) {
      forall k | 0 <= k < |m.statics| ensures !MatchesAt(text, i, m.statics[k]) && !(text[i..] < m.statics[k]) {
        OpenerHead(text, i, STATIC_OPENERS[k]);
        OpenerShape(k);
      }
      assert forall n | n in m.names :: |Bracketed(n)| == |n| + 2;
    }
    BoundaryIs(text, |text|, m);
  }

  lemma OpenerShape(k: nat)
    requires k < |STATIC_OPENERS|
    ensures var op := STATIC_OPENERS[k];
            |op| >= 2 && op[1] == 't' && (op[0] == '<' || op[0] == '[')
  {
  }

  lemma OpenerHead(s: string, i: nat, op: string)
    requires i < |s| && |op| >= 2
    ensures MatchesAt(s, i, op) ==> i + 1 < |s| && s[i] == op[0] && s[i + 1] == op[1]
    ensures s[i..] < op ==> s[i] == op[0] && (i + 1 < |s| ==> s[i + 1] == op[1])
  {
    if MatchesAt(s, i, op) {
      assert s[i..i + |op|][0] == s[i] && s[i..i + |op|][1] == s[i + 1];
    }
    PrefixHead(s[i..], op);
  }

  lemma PrefixHead(t: string, op: string)
    requires t != ""
    ensures t < op ==> op[0] == t[0] && (|t| > 1 ==> op[1] == t[1])
  {
  }

  // ----- what no tokenization can leak, and how much is held ---------------------------

  lemma {:induction false} StreamedWithinStatic(tokens: seq<string>, m: Markers)
    ensures |Streamed(tokens, m).flushed| <= Boundary(Concat(tokens), Static(m))
  {
    if tokens != [] {
      var n := |tokens| - 1;
      StreamedWithinStatic(tokens[..n], m);
      var before, text := Streamed(tokens[..n], m), Concat(tokens);
      StaticBoundaryGrows(Concat(tokens[..n]), tokens[n], m);
      var f := |before.flushed|;
      var buffer := before.held + tokens[n];
      assert buffer == text[f..];
      RestartKeepsBoundary(text, f, Static(m));
      MoreNamesHoldMore(buffer, m);
    }
  }

  lemma MoreNamesHoldMore(s: string, m: Markers)
    ensures Boundary(s, m) <= Boundary(s, Static(m))
  {
    BoundaryIsLeftmost(s, Static(m));
    BoundaryIsLeftmost(s, m);
    assert forall i: nat | OpensAt(s, i, Static(m)) :: OpensAt(s, i, m);
  }

  // Whatever names are registered and however the reply is cut, no static opener, and no
  // beginning of one at the very end, is ever yielded.
  lemma NoStaticOpenerLeaks(tokens: seq<string>, m: Markers, i: nat)
    requires i < |Streamed(tokens, m).flushed|
    ensures !OpensAt(Concat(tokens), i, Static(m))
    ensures !CompleteAt(Streamed(tokens, m).flushed, i, Static(m))
  {
    StreamedWithinStatic(tokens, m);
    BoundaryIsLeftmost(Concat(tokens), Static(m));
    if CompleteAt(Streamed(tokens, m).flushed, i, Static(m)) {
      StillComplete(Streamed(tokens, m).flushed, Concat(tokens), i, Static(m));
    }
  }

  // For the engine's own markers: none of the five ways to open a call ever appears in what is yielded,
  // nor does an opening at which the reply goes on behind it.
  lemma NoToolTagLeaks(tokens: seq<string>, names: set<string>, i: nat)
    requires i < |Streamed(tokens, TinkerMarkers(names)).flushed|
    ensures forall p | p in {"<tool>", "[tool>", "<tool]", "[tool]", "<tool_call>"} ::
              !MatchesAt(Concat(tokens), i, p) && !MatchesAt(Streamed(tokens, TinkerMarkers(names)).flushed, i, p)
  {
    hide Streamed;
    NoStaticOpenerLeaks(tokens, TinkerMarkers(names), i);
    assert STATIC_OPENERS[0] == "<tool>" && STATIC_OPENERS[1] == "[tool>" && STATIC_OPENERS[2] == "<tool]";
    assert STATIC_OPENERS[3] == "[tool]" && STATIC_OPENERS[4] == "<tool_call>";
    assert forall k | 0 <= k < 5 :: STATIC_OPENERS[k] in Static(TinkerMarkers(names)).statics;
  }

  // Until a complete opener arrives at most ten characters are held back.
  lemma {:induction false} HeldIsShort(tokens: seq<string>, m: Markers)
    requires WellShaped(m)
    ensures var held := Streamed(tokens, m).held;
            CompleteAt(held, 0, m) || |held| < MAX_OPENER
  {
    if tokens != [] {
      var n := |tokens| - 1;
      var before := Streamed(tokens[..n], m);
      var buffer := before.held + tokens[n];
      var b := Boundary(buffer, m);
      BoundaryIsLeftmost(buffer, m);
      if b < |buffer| {
        OpensAtDrop(buffer, b, 0, m);
        var held := buffer[b..];
        if !CompleteAt(held, 0, m) {
          var k :| 0 <= k < |m.statics| && held[0..] < m.statics[k];
          assert held[0..] == held;
        }
      }
    }
  }
}
