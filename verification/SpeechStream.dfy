/** The streaming loop of a voice turn: LLM tokens shown to the client, cut at a hallucinated
    speaker change, and flushed to speech by sentence, by clause or by timeout. */
module SpeechStream {
  import opened Text

  // ----- whitespace ---------------------------------------------------------------------

  function Visible(c: char): string { if IsSpace(c) then "" else [c] }

  function NonSpace(s: string): string {
    if s == "" then "" else Visible(s[0]) + NonSpace(s[1..])
  }

  predicate Blank(s: string) { Trim(s) == "" }

  lemma {:induction false} NonSpaceAppend(a: string, b: string)
    ensures NonSpace(a + b) == NonSpace(a) + NonSpace(b)
  {
    if a == "" {
      assert a + b == b;
    } else {
      calc {
        NonSpace(a + b);
        { assert (a + b)[1..] == a[1..] + b; }
        Visible(a[0]) + NonSpace(a[1..] + b);
        { NonSpaceAppend(a[1..], b); }
        Visible(a[0]) + (NonSpace(a[1..]) + NonSpace(b));
        (Visible(a[0]) + NonSpace(a[1..])) + NonSpace(b);
      }
    }
  }

  lemma {:induction false} RStripKeepsNonSpace(s: string)
    ensures NonSpace(RStrip(s)) == NonSpace(s)
  {
    if s != "" && IsSpace(s[|s| - 1]) {
      var n := |s| - 1;
      assert s == s[..n] + [s[n]];
      NonSpaceAppend(s[..n], [s[n]]);
      RStripKeepsNonSpace(s[..n]);
    }
  }

  lemma {:induction false} LStripKeepsNonSpace(s: string)
    ensures NonSpace(LStrip(s)) == NonSpace(s)
  {
    if s != "" && IsSpace(s[0]) {
      LStripKeepsNonSpace(s[1..]);
    }
  }

  lemma TrimKeepsNonSpace(s: string)
    ensures NonSpace(Trim(s)) == NonSpace(s)
  {
    LStripKeepsNonSpace(s);
    RStripKeepsNonSpace(LStrip(s));
  }

  // ----- the flush patterns ----------------------------------------------------------------

  predicate IsStop(c: char) { c == '.' || c == '!' || c == '?' }

  predicate IsPause(c: char) { c == ',' || c == ';' || c == ':' || c == '\U{2014}' }

  // `[.!?]\s*$`
  predicate SentenceEnd(s: string) { RStrip(s) != "" && IsStop(RStrip(s)[|RStrip(s)| - 1]) }

  // `[,;:—]\s*$`
  predicate ClauseEnd(s: string) { RStrip(s) != "" && IsPause(RStrip(s)[|RStrip(s)| - 1]) }

  // The first position from i on where `(?<=[.!?])\s+` matches.
  function SplitPoint(s: string, i: nat): (r: nat)
    requires i <= |s|
    ensures i <= r <= |s|
    ensures r < |s| ==> 0 < r && IsStop(s[r - 1]) && IsSpace(s[r])
    decreases |s| - i
  {
    if i == |s| then i
    else if 0 < i && IsStop(s[i - 1]) && IsSpace(s[i]) then i
    else SplitPoint(s, i + 1)
  }

  // `re.split` on that pattern.
  function SplitSentences(s: string): (pieces: seq<string>)
    ensures pieces != []
    decreases |s|
  {
    var cut := SplitPoint(s, 0);
    if cut == |s| then [s] else [s[..cut]] + SplitSentences(LStrip(s[cut..]))
  }

  // The last whitespace from position i down, or -1.
  function LastSpace(s: string, end: nat): (r: int)
    requires end <= |s|
    ensures -1 <= r < end
    ensures r >= 0 ==> IsSpace(s[r])
    decreases end
  {
    if end == 0 then -1 else if IsSpace(s[end - 1]) then end - 1 else LastSpace(s, end - 1)
  }

  // `\s\S*$`, whose `$` also matches before a final newline: the start of the match, or -1.
  function LastWordBoundary(s: string): (r: int)
    ensures -1 <= r < |s|
    ensures r >= 0 ==> IsSpace(s[r])
  {
    if s != "" && s[|s| - 1] == '\n' && LastSpace(s, |s| - 1) >= 0 then LastSpace(s, |s| - 1)
    else LastSpace(s, |s|)
  }

  // ----- the stop patterns ------------------------------------------------------------------

  const OVERLAP: nat := 32
  const STOP_BODIES: seq<string> := ["user:", "human:", "assistant:", "<|end", "<|im_end"]

  // Short enough that `\n\n\n` and the body fit into the overlap and one character.
  predicate ShortBodies(bodies: seq<string>) {
    forall k | 0 <= k < |bodies| :: 0 < |bodies[k]| <= OVERLAP - 2
  }

  lemma StopBodiesAreShort()
    ensures ShortBodies(STOP_BODIES)
  {
  }

  predicate BodyAt(s: string, i: nat, bodies: seq<string>) {
    i <= |s| && exists k | 0 <= k < |bodies| :: FoldPrefix(s[i..], bodies[k])
  }

  // `(?:^|\n\n\n|\n)(...)` matches with its start at i; `^` is the start of the text only.
  predicate StopAt(s: string, i: nat, bodies: seq<string>) {
    || (i == 0 && BodyAt(s, 0, bodies))
    || (MatchesAt(s, i, "\n") && BodyAt(s, i + 1, bodies))
    || (MatchesAt(s, i, "\n\n\n") && BodyAt(s, i + 3, bodies))
  }

  // `pattern.search(s, from)`: the leftmost start, or |s| + 1.
  function FirstStop(s: string, from: nat, bodies: seq<string>): (r: nat)
    requires from <= |s| + 1
    ensures from <= r <= |s| + 1
    ensures r <= |s| ==> StopAt(s, r, bodies)
    ensures forall i | from <= i < r :: !StopAt(s, i, bodies)
    decreases |s| + 1 - from
  {
    if from == |s| + 1 || StopAt(s, from, bodies) then from else FirstStop(s, from + 1, bodies)
  }

  predicate HasStop(s: string, bodies: seq<string>) { FirstStop(s, 0, bodies) <= |s| }

  lemma BodyAtInPrefix(s: string, t: string, i: nat, bodies: seq<string>)
    requires ShortBodies(bodies)
    requires BodyAt(s + t, i, bodies) && i + OVERLAP - 2 <= |s|
    ensures BodyAt(s, i, bodies)
  {
    var k :| 0 <= k < |bodies| && FoldPrefix((s + t)[i..], bodies[k]);
    assert forall n | 0 <= n < |bodies[k]| :: s[i..][n] == (s + t)[i..][n];
    assert FoldPrefix(s[i..], bodies[k]);
  }

  lemma StopAtInPrefix(s: string, t: string, i: nat, bodies: seq<string>)
    requires ShortBodies(bodies) && StopAt(s + t, i, bodies) && i + OVERLAP + 1 <= |s|
    ensures StopAt(s, i, bodies)
  {
    assert MatchesAt(s + t, i, "\n") ==> MatchesAt(s, i, "\n") by { assert (s + t)[i..i + 1] == s[i..i + 1]; }
    assert MatchesAt(s + t, i, "\n\n\n") ==> MatchesAt(s, i, "\n\n\n") by { assert (s + t)[i..i + 3] == s[i..i + 3]; }
    if i == 0 && BodyAt(s + t, 0, bodies) { BodyAtInPrefix(s, t, 0, bodies); }
    else if MatchesAt(s + t, i, "\n") && BodyAt(s + t, i + 1, bodies) { BodyAtInPrefix(s, t, i + 1, bodies); }
    else { BodyAtInPrefix(s, t, i + 3, bodies); }
  }

  // A stop that was not in the text before the token starts inside the overlap.
  lemma NewStopIsNear(s: string, t: string, i: nat, bodies: seq<string>)
    requires ShortBodies(bodies) && StopAt(s + t, i, bodies) && !HasStop(s, bodies)
    ensures |s| < i + OVERLAP + 1
  {
    if i + OVERLAP + 1 <= |s| { StopAtInPrefix(s, t, i, bodies); }
  }

  // Watermark refinement: looking from the overlap on finds what a full rescan finds.
  lemma WatermarkScan(s: string, t: string, bodies: seq<string>)
    requires ShortBodies(bodies) && !HasStop(s, bodies)
    ensures var from := if |s| <= OVERLAP then 0 else |s| - OVERLAP;
            FirstStop(s + t, from, bodies) == FirstStop(s + t, 0, bodies)
  {
    var from := if |s| <= OVERLAP then 0 else |s| - OVERLAP;
    var near, full := FirstStop(s + t, from, bodies), FirstStop(s + t, 0, bodies);
    if full <= |s + t| {
      NewStopIsNear(s, t, full, bodies);
    }
  }

  // ----- one token ----------------------------------------------------------------------------

  // The readings of `time.monotonic()` while one token is handled.
  datatype Clock = Clock(check: real, flushed: real)

  datatype Turn = Turn(
    full: string,          // full_response
    buffer: string,        // sentence_buffer
    inCode: bool,
    lastFlush: real,
    shown: seq<string>,    // texts of the `llm` events
    spoken: seq<string>)   // texts passed to `_synthesize_and_send`

  function Start(now: real): Turn { Turn("", "", false, now, [], []) }

  function SpeakableOf(pieces: seq<string>): seq<string> {
    if pieces == [] then []
    else SpeakableOf(pieces[..|pieces| - 1])
         + (if Blank(pieces[|pieces| - 1]) then [] else [Trim(pieces[|pieces| - 1])])
  }

  lemma SpeakableOne(s: string)
    ensures SpeakableOf([s]) == if Blank(s) then [] else [Trim(s)]
  {
    hide Trim, Blank, IsSpace;
    assert [s] == [] + [s] && [s][..0] == [];
  }

  function CountMarks(s: string): nat {
    if |s| < 3 then 0
    else if s[..3] == "```" then 1 + CountMarks(s[3..])
    else CountMarks(s[1..])
  }

  function FlushSentences(t: Turn, c: Clock): Turn {
    var pieces := SplitSentences(t.buffer);
    var last := pieces[|pieces| - 1];
    var complete := if SentenceEnd(last) then pieces else pieces[..|pieces| - 1];
    t.(spoken := t.spoken + SpeakableOf(complete),
       buffer := if SentenceEnd(last) then "" else last,
       lastFlush := c.flushed)
  }

  function FlushClause(t: Turn, c: Clock, localTts: bool): Turn {
    if |t.buffer| < (if localTts then 20 else 60) then t
    else t.(spoken := t.spoken + SpeakableOf([t.buffer]), buffer := "", lastFlush := c.flushed)
  }

  function FlushTimeout(t: Turn, c: Clock): Turn {
    var m := LastWordBoundary(t.buffer);
    if m < 10 then t
    else t.(spoken := t.spoken + SpeakableOf([t.buffer[..m]]),
            buffer := LStrip(t.buffer[m..]),
            lastFlush := if Blank(t.buffer[..m]) then t.lastFlush else c.flushed)
  }

  // The token is shown, the code-block state toggles, and at most one flush rule applies.
  function Take(t: Turn, token: string, c: Clock, localTts: bool): Turn {
    Flush(t.(full := t.full + token, buffer := t.buffer + token, shown := t.shown + [token],
             inCode := if CountMarks(token) % 2 == 1 then !t.inCode else t.inCode), c, localTts)
  }

  function Flush(t: Turn, c: Clock, localTts: bool): Turn {
    if SentenceEnd(t.buffer) then FlushSentences(t, c)
    else if ClauseEnd(t.buffer) && !t.inCode then FlushClause(t, c, localTts)
    else if localTts && !t.inCode && |t.buffer| >= 20 && c.check - t.lastFlush > 0.3 then FlushTimeout(t, c)
    else t
  }

  // The token that completes a stop pattern: keep what lies before it.
  function Halt(t: Turn, token: string, keepEnd: nat): Turn
    requires keepEnd <= |t.full + token|
  {
    var partial := if keepEnd > |t.full| then token[..keepEnd - |t.full|] else "";
    var u := if Blank(partial) then t else t.(shown := t.shown + [partial], buffer := t.buffer + partial);
    u.(full := (t.full + token)[..keepEnd])
  }

  // ----- where sentences end, by their characters ------------------------------------------

  // No full stop, exclamation or question mark with whitespace behind it lies inside the text.
  ghost predicate Unbroken(s: string) {
    forall i | 0 <= i < |s| - 1 && (s[i] == '.' || s[i] == '!' || s[i] == '?') :: !IsSpace(s[i + 1])
  }

  // The text ends in one of the three.
  ghost predicate EndsSentence(s: string) {
    s != "" && (s[|s| - 1] == '.' || s[|s| - 1] == '!' || s[|s| - 1] == '?')
  }

  // One sentence and no more, without whitespace around it.
  ghost predicate OneSentence(s: string) { EndsSentence(s) && Unbroken(s) && !IsSpace(s[0]) }

  // The text ends in one of these characters, with nothing but whitespace behind it.
  ghost predicate EndsIn(s: string, marks: string) {
    exists i :: 0 <= i < |s| && s[i] in marks && forall j | i < j < |s| :: IsSpace(s[j])
  }

  lemma {:induction false} RStripIs(s: string)
    ensures forall j | |RStrip(s)| <= j < |s| :: IsSpace(s[j])
    ensures RStrip(s) != "" ==> !IsSpace(s[|RStrip(s)| - 1])
  {
    if s != "" && IsSpace(s[|s| - 1]) {
      RStripIs(s[..|s| - 1]);
    }
  }

  lemma {:induction false} LStripIs(s: string) returns (n: nat)
    ensures n <= |s| && LStrip(s) == s[n..]
    ensures forall j | 0 <= j < n :: IsSpace(s[j])
    ensures LStrip(s) != "" ==> !IsSpace(LStrip(s)[0])
  {
    n := 0;
    if s != "" && IsSpace(s[0]) {
      n := LStripIs(s[1..]);
      n := n + 1;
    }
  }

  lemma SentenceEndIff(s: string)
    ensures SentenceEnd(s) <==> EndsIn(s, ".!?")
  {
    RStripIs(s);
    EndsInStripped(s, ".!?");
  }

  lemma ClauseEndIff(s: string)
    ensures ClauseEnd(s) <==> EndsIn(s, ",;:\U{2014}")
  {
    RStripIs(s);
    EndsInStripped(s, ",;:\U{2014}");
  }

  lemma EndsInStripped(s: string, marks: string)
    requires forall c | c in marks :: !IsSpace(c)
    ensures EndsIn(s, marks) <==> RStrip(s) != "" && RStrip(s)[|RStrip(s)| - 1] in marks
  {
    RStripIs(s);
    var r := RStrip(s);
    if r != "" && r[|r| - 1] in marks {
      assert s[|r| - 1] in marks;
    }
  }

  lemma {:induction false} SplitPointIs(s: string, i: nat)
    requires i <= |s|
    ensures forall j | i <= j < SplitPoint(s, i) && 0 < j :: EndsSentence(s[..j]) ==> !IsSpace(s[j])
    ensures SplitPoint(s, i) < |s| ==> EndsSentence(s[..SplitPoint(s, i)]) && IsSpace(s[SplitPoint(s, i)])
    decreases |s| - i
  {
    if i < |s| && !(0 < i && IsStop(s[i - 1]) && IsSpace(s[i])) {
      SplitPointIs(s, i + 1);
    }
  }

  // The pieces with the given gaps put back between them.
  ghost function Rejoined(pieces: seq<string>, gaps: seq<string>): string
    requires pieces != [] && |gaps| == |pieces| - 1
  {
    if gaps == [] then pieces[0] else pieces[0] + gaps[0] + Rejoined(pieces[1..], gaps[1..])
  }

  ghost predicate AllSpace(s: string) { s != "" && forall j | 0 <= j < |s| :: IsSpace(s[j]) }

  // Every piece is unbroken, every piece before the last ends a sentence, every piece behind the first
  // starts with ink, and the pieces with whitespace between them are the text.
  lemma {:induction false} SplitIs(s: string) returns (gaps: seq<string>)
    ensures var pieces := SplitSentences(s);
            && (forall k | 0 <= k < |pieces| :: Unbroken(pieces[k]))
            && (forall k | 0 <= k < |pieces| - 1 :: EndsSentence(pieces[k]))
            && (forall k | 0 < k < |pieces| && pieces[k] != "" :: !IsSpace(pieces[k][0]))
            && |gaps| == |pieces| - 1
            && (forall k | 0 <= k < |gaps| :: AllSpace(gaps[k]))
            && Rejoined(pieces, gaps) == s
    decreases |s|
  {
    hide IsSpace, LStrip, Rejoined;
    var cut := SplitPoint(s, 0);
    HeadUnbroken(s);
    if cut == |s| {
      assert s[..cut] == s && Rejoined([s], []) == s by { RejoinedOne(s); }
      gaps := [];
    } else {
      var n := LStripIs(s[cut..]);
      var pieces := SplitSentences(LStrip(s[cut..]));
      var rest := SplitIs(LStrip(s[cut..]));
      var gap := s[cut..][..n];
      assert LStrip(s[cut..]) == s[cut + n..];
      assert LStrip(s[cut..]) != s[cut..] by { StripsOne(s[cut..]); }
      assert AllSpace(gap);
      gaps := [gap] + rest;
      SplitStep(s, cut, gap, pieces, rest);
      FirstInk(LStrip(s[cut..]));
    }
  }

  lemma RejoinedOne(s: string)
    ensures Rejoined([s], []) == s
  {
  }

  lemma StripsOne(s: string)
    requires s != "" && IsSpace(s[0])
    ensures |LStrip(s)| < |s|
  {
  }

  lemma FirstInk(s: string)
    requires s != "" ==> !IsSpace(s[0])
    ensures var first := SplitSentences(s)[0];
            first != "" ==> !IsSpace(first[0])
  {
    hide IsSpace, LStrip;
  }

  lemma HeadUnbroken(s: string)
    ensures var cut := SplitPoint(s, 0);
            Unbroken(s[..cut]) && (cut < |s| ==> EndsSentence(s[..cut]) && IsSpace(s[cut]))
  {
    hide IsSpace;
    SplitPointIs(s, 0);
    var cut: int := SplitPoint(s, 0);
    forall i: nat | i < cut - 1 && (s[i] == '.' || s[i] == '!' || s[i] == '?') ensures !IsSpace(s[i + 1]) {
      assert EndsSentence(s[..i + 1]);
    }
  }

  lemma SplitStep(s: string, cut: nat, gap: string, pieces: seq<string>, gaps: seq<string>)
    requires cut <= |s| && pieces != [] && |gaps| == |pieces| - 1
    requires gap <= s[cut..] && Rejoined(pieces, gaps) == s[cut + |gap|..]
    ensures Rejoined([s[..cut]] + pieces, [gap] + gaps) == s
  {
    assert ([s[..cut]] + pieces)[1..] == pieces && ([gap] + gaps)[1..] == gaps;
    assert s == s[..cut] + gap + s[cut + |gap|..];
  }

  lemma MarksAreInk()
    ensures !IsSpace('.') && !IsSpace('!') && !IsSpace('?')
  {
  }

  lemma TrimKeepsSentence(s: string)
    requires Unbroken(s) && EndsIn(s, ".!?")
    ensures !Blank(s) && OneSentence(Trim(s))
  {
    MarksAreInk();
    hide IsSpace, LStrip, RStrip;
    var n := LStripIs(s);
    var left := LStrip(s);
    var i :| 0 <= i < |s| && s[i] in ".!?" && forall j | i < j < |s| :: IsSpace(s[j]);
    assert n <= i && left[i - n] == s[i];
    RStripIs(left);
    var r := RStrip(left);
    assert |r| - 1 == i - n;
    forall k | 0 <= k < |r| - 1 && (r[k] == '.' || r[k] == '!' || r[k] == '?') ensures !IsSpace(r[k + 1]) {
      assert r[k] == s[n + k] && r[k + 1] == s[n + k + 1];
    }
  }

  lemma {:induction false} AllSpokenAreSentences(pieces: seq<string>)
    requires forall k | 0 <= k < |pieces| :: Unbroken(pieces[k]) && EndsIn(pieces[k], ".!?")
    ensures |SpeakableOf(pieces)| == |pieces|
    ensures forall k | 0 <= k < |pieces| :: OneSentence(SpeakableOf(pieces)[k])
  {
    hide Blank, Trim, OneSentence, EndsIn, Unbroken;
    if pieces != [] {
      var n := |pieces| - 1;
      AllSpokenAreSentences(pieces[..n]);
      TrimKeepsSentence(pieces[n]);
    }
  }

  lemma EndsInRest(s: string, cut: nat)
    requires EndsIn(s, ".!?") && cut <= |s| && LStrip(s[cut..]) != ""
    ensures EndsIn(LStrip(s[cut..]), ".!?")
  {
    hide IsSpace, LStrip;
    var n := LStripIs(s[cut..]);
    var rest := LStrip(s[cut..]);
    var i :| 0 <= i < |s| && s[i] in ".!?" && forall j | i < j < |s| :: IsSpace(s[j]);
    assert rest[0] == s[cut + n] && i >= cut + n;
    assert rest[i - cut - n] == s[i];
  }

  lemma SplitNothing()
    ensures SplitSentences("") == [""]
  {
  }

  // The last piece of a text that ends a sentence ends it or is empty.
  lemma {:induction false} LastPiece(s: string)
    requires EndsIn(s, ".!?")
    ensures var last := SplitSentences(s)[|SplitSentences(s)| - 1];
            last == "" || EndsIn(last, ".!?")
    decreases |s|
  {
    hide IsSpace, LStrip, EndsIn;
    var cut := SplitPoint(s, 0);
    if cut < |s| {
      if LStrip(s[cut..]) == "" {
        SplitNothing();
      } else {
        EndsInRest(s, cut);
        LastPiece(LStrip(s[cut..]));
      }
    }
  }

  // A sentence flush speaks whole sentences, one by one, and leaves nothing in the buffer.
  lemma FlushSpeaksSentences(t: Turn, c: Clock)
    requires EndsIn(t.buffer, ".!?")
    ensures var u := FlushSentences(t, c);
            && t.spoken < u.spoken
            && (forall k | |t.spoken| <= k < |u.spoken| :: OneSentence(u.spoken[k]))
            && u.buffer == "" && u.lastFlush == c.flushed
  {
    hide SplitSentences, SpeakableOf, OneSentence, Unbroken, EndsIn, SentenceEnd;
    var pieces := SplitSentences(t.buffer);
    var n := |pieces| - 1;
    CompletePieces(t.buffer);
    LastPiece(t.buffer);
    SentenceEndIff(pieces[n]);
    var complete := if SentenceEnd(pieces[n]) then pieces else pieces[..n];
    AllSpokenAreSentences(complete);
    assert FlushSentences(t, c).spoken == t.spoken + SpeakableOf(complete);
  }

  lemma CompletePieces(s: string)
    requires EndsIn(s, ".!?")
    ensures var pieces := SplitSentences(s);
            && (forall k | 0 <= k < |pieces| :: Unbroken(pieces[k]))
            && (forall k | 0 <= k < |pieces| - 1 :: EndsIn(pieces[k], ".!?"))
            && (EndsIn(pieces[|pieces| - 1], ".!?") || |pieces| > 1)
  {
    hide SplitSentences, Unbroken;
    var gaps := SplitIs(s);
    var pieces := SplitSentences(s);
    forall k | 0 <= k < |pieces| - 1 ensures EndsIn(pieces[k], ".!?") {
      assert pieces[k][|pieces[k]| - 1] in ".!?";
    }
  }

  // `\s\S*$` matches at i; `$` is the end of the text or before its final newline.
  ghost predicate WordBreakAt(s: string, i: nat) {
    && i < |s| && IsSpace(s[i])
    && ((forall j | i < j < |s| :: !IsSpace(s[j]))
        || (i < |s| - 1 && s[|s| - 1] == '\n' && forall j | i < j < |s| - 1 :: !IsSpace(s[j])))
  }

  lemma {:induction false} LastSpaceIs(s: string, end: nat)
    requires end <= |s|
    ensures forall j | LastSpace(s, end) < j < end :: !IsSpace(s[j])
    decreases end
  {
    if end > 0 && !IsSpace(s[end - 1]) {
      LastSpaceIs(s, end - 1);
    }
  }

  // The boundary is the leftmost match of the pattern, or -1 if there is none.
  lemma LastWordBoundaryIs(s: string)
    ensures var m := LastWordBoundary(s);
            && (m >= 0 ==> WordBreakAt(s, m))
            && forall i: nat | WordBreakAt(s, i) :: 0 <= m <= i
  {
    hide IsSpace;
    LastSpaceIs(s, |s|);
    if s != "" {
      LastSpaceIs(s, |s| - 1);
    }
  }

  // Which rule a token triggers, read off the characters buffered: nothing behind a sentence end, a
  // clause of 20 or 60 characters outside code, a pause of 0.3 seconds with 20 characters outside code.
  lemma FlushRules(t: Turn, c: Clock, localTts: bool)
    ensures EndsIn(t.buffer, ".!?") ==> Flush(t, c, localTts) == FlushSentences(t, c)
    ensures !EndsIn(t.buffer, ".!?") ==>
              var u, b := Flush(t, c, localTts), t.buffer;
              var clause := EndsIn(b, ",;:\U{2014}") && !t.inCode;
              && (clause && |b| >= (if localTts then 20 else 60) ==>
                 u == t.(spoken := t.spoken + [Trim(b)], buffer := "", lastFlush := c.flushed))
              && (clause && |b| < (if localTts then 20 else 60) ==> u == t)
              && (!clause && !(localTts && !t.inCode && |b| >= 20 && c.check - t.lastFlush > 0.3) ==> u == t)
              && (!clause && localTts && !t.inCode && |b| >= 20 && c.check - t.lastFlush > 0.3 ==>
                 (forall m: nat | WordBreakAt(b, m) && (forall i: nat | i < m :: !WordBreakAt(b, i)) ::
                   u == if m < 10 then t
                        else t.(spoken := t.spoken + (if Trim(b[..m]) == "" then [] else [Trim(b[..m])]),
                                buffer := LStrip(b[m..]),
                                lastFlush := if Trim(b[..m]) == "" then t.lastFlush else c.flushed))
                 && ((forall m: nat :: !WordBreakAt(b, m)) ==> u == t))
  {
    hide EndsIn, LastWordBoundary, SpeakableOf, WordBreakAt, SentenceEnd, FlushSentences, Trim, LStrip;
    SentenceEndIff(t.buffer);
    ClauseEndIff(t.buffer);
    LastWordBoundaryIs(t.buffer);
    SpeakableOne(t.buffer);
    var m := LastWordBoundary(t.buffer);
    if m >= 0 {
      SpeakableOne(t.buffer[..m]);
    }
    if EndsIn(t.buffer, ",;:\U{2014}") {
      PauseNotBlank(t.buffer);
    }
  }

  lemma PauseNotBlank(s: string)
    requires EndsIn(s, ",;:\U{2014}")
    ensures Trim(s) != ""
  {
    var i :| 0 <= i < |s| && s[i] in ",;:\U{2014}" && forall j | i < j < |s| :: IsSpace(s[j]);
    var n := LStripIs(s);
    var left := LStrip(s);
    assert n <= i && left[i - n] == s[i];
    RStripIs(left);
  }

  // ----- the code fence ---------------------------------------------------------------------

  // Places of "```" that do not overlap, in order.
  ghost predicate DisjointMarks(s: string, at: seq<nat>) {
    && (forall k | 0 <= k < |at| :: MatchesAt(s, at[k], "```"))
    && (forall k, l | 0 <= k < l < |at| :: at[k] + 3 <= at[l])
  }

  function Shifted(at: seq<nat>, d: nat): (r: seq<nat>)
    requires forall k | 0 <= k < |at| :: d <= at[k]
  {
    seq(|at|, k requires 0 <= k < |at| => at[k] - d)
  }

  lemma MarksShift(s: string, at: seq<nat>, d: nat)
    requires DisjointMarks(s, at) && d <= |s| && forall k | 0 <= k < |at| :: d <= at[k]
    ensures DisjointMarks(s[d..], Shifted(at, d))
  {
    forall k | 0 <= k < |at| ensures MatchesAt(s[d..], Shifted(at, d)[k], "```") {
      assert s[d..][at[k] - d..at[k] - d + 3] == s[at[k]..at[k] + 3];
    }
  }

  // The marks counted are the most that fit without overlap.
  lemma {:induction false} CountMarksIsMost(s: string, at: seq<nat>)
    requires DisjointMarks(s, at)
    ensures |at| <= CountMarks(s)
    decreases |s|
  {
    if at != [] {
      assert MatchesAt(s, at[0], "```");
      if s[..3] == "```" {
        MarksShift(s, at[1..], 3);
        CountMarksIsMost(s[3..], Shifted(at[1..], 3));
      } else {
        assert at[0] != 0 && forall k | 0 <= k < |at| :: at[0] <= at[k];
        MarksShift(s, at, 1);
        CountMarksIsMost(s[1..], Shifted(at, 1));
      }
    }
  }

  lemma {:induction false} CountedMarks(s: string) returns (at: seq<nat>)
    ensures DisjointMarks(s, at) && |at| == CountMarks(s)
    decreases |s|
  {
    if |s| < 3 {
      return [];
    }
    var d := if s[..3] == "```" then 3 else 1;
    var rest := CountedMarks(s[d..]);
    var moved := seq(|rest|, k requires 0 <= k < |rest| => rest[k] + d);
    forall k | 0 <= k < |rest| ensures MatchesAt(s, moved[k], "```") {
      assert MatchesAt(s[d..], rest[k], "```");
      assert s[d..][rest[k]..rest[k] + 3] == s[moved[k]..moved[k] + 3];
    }
    at := if d == 3 then [0] + moved else moved;
  }

  // ----- where a speaker change is cut ------------------------------------------------------

  // A line starts at h with a speaker's name or a chat mark, in any letter case.
  ghost predicate HeadAt(s: string, h: nat) {
    && h <= |s| && (h == 0 || s[h - 1] == '\n')
    && (FoldPrefix(s[h..], "user:") || FoldPrefix(s[h..], "human:") || FoldPrefix(s[h..], "assistant:")
        || FoldPrefix(s[h..], "<|end") || FoldPrefix(s[h..], "<|im_end"))
  }

  lemma BodyAtIs(s: string, i: nat)
    ensures BodyAt(s, i, STOP_BODIES) <==>
            i <= |s| && (FoldPrefix(s[i..], "user:") || FoldPrefix(s[i..], "human:")
              || FoldPrefix(s[i..], "assistant:") || FoldPrefix(s[i..], "<|end") || FoldPrefix(s[i..], "<|im_end"))
  {
    hide FoldPrefix;
    assert STOP_BODIES[0] == "user:" && STOP_BODIES[1] == "human:" && STOP_BODIES[2] == "assistant:";
    assert STOP_BODIES[3] == "<|end" && STOP_BODIES[4] == "<|im_end";
  }

  // The match takes the newline before such a line, or three.
  ghost function CutBefore(s: string, h: nat): nat
    requires h <= |s|
  {
    if h >= 3 && s[h - 3] == s[h - 2] == s[h - 1] == '\n' then h - 3 else if h >= 1 then h - 1 else 0
  }

  lemma HeadStops(s: string, h: nat)
    requires HeadAt(s, h)
    ensures h < |s| && s[h] != '\n' && StopAt(s, CutBefore(s, h), STOP_BODIES)
  {
    BodyAtIs(s, h);
    assert s[h..][0] == s[h];
    hide BodyAt;
    if h >= 3 && s[h - 3] == s[h - 2] == s[h - 1] == '\n' {
      assert s[h - 3..h] == "\n\n\n";
    } else if h >= 1 {
      assert s[h - 1..h] == "\n";
    }
  }

  lemma StopHasHead(s: string, i: nat) returns (h: nat)
    requires StopAt(s, i, STOP_BODIES)
    ensures HeadAt(s, h)
    ensures i == h == 0 || i == h - 1 || (i == h - 3 && s[i] == s[i + 1] == s[i + 2] == '\n')
  {
    hide BodyAt, FoldPrefix;
    BodyAtIs(s, i);
    if i == 0 && BodyAt(s, 0, STOP_BODIES) {
      h := 0;
    } else if MatchesAt(s, i, "\n") && BodyAt(s, i + 1, STOP_BODIES) {
      BodyAtIs(s, i + 1);
      assert s[i..i + 1][0] == s[i];
      h := i + 1;
    } else {
      BodyAtIs(s, i + 3);
      assert s[i..i + 3][0] == s[i] && s[i..i + 3][1] == s[i + 1] && s[i..i + 3][2] == s[i + 2];
      h := i + 3;
    }
  }

  // The leftmost match is the one before the first such line.
  lemma FirstStopIs(s: string)
    ensures HasStop(s, STOP_BODIES) <==> exists h: nat :: h <= |s| && HeadAt(s, h)
    ensures forall h: nat | h <= |s| && HeadAt(s, h) && (forall g: nat | g < h :: !HeadAt(s, g)) ::
              HasStop(s, STOP_BODIES) && FirstStop(s, 0, STOP_BODIES) == CutBefore(s, h)
  {
    hide StopAt, HeadAt;
    var r := FirstStop(s, 0, STOP_BODIES);
    if r <= |s| {
      var g := StopHasHead(s, r);
      HeadStops(s, g);
    }
    if g: nat :| g <= |s| && HeadAt(s, g) {
      HeadStops(s, g);
    }
    forall h: nat | h <= |s| && HeadAt(s, h) && (forall g: nat | g < h :: !HeadAt(s, g))
      ensures r <= |s| && r == CutBefore(s, h)
    {
      HeadStops(s, h);
      var g := StopHasHead(s, r);
      assert g >= h;
    }
  }

  // The response is the text before its first line that starts with a speaker's name or a chat mark;
  // last is the text without the token that completed that line.
  ghost predicate EndsBeforeSpeaker(r: Run, text: string, last: string)
    requires |last| <= |text|
  {
    && (r.halted <==> exists h: nat :: h <= |text| && HeadAt(text, h))
    && (!r.halted ==> r.turn.full == text && Concat(r.turn.shown) == text)
    && (forall h: nat | h <= |text| && HeadAt(text, h) && (forall g: nat | g < h :: !HeadAt(text, g)) ::
       && r.turn.full == text[..CutBefore(text, h)]
       && Concat(r.turn.shown) == ShownUpTo(text, |last|, CutBefore(text, h)))
  }

  // What a whole stream keeps, for any tokens, of the text received up to the token that ended it.
  lemma KeptEndsBeforeSpeaker(tokens: seq<string>, clocks: seq<Clock>, now: real, localTts: bool)
    requires |clocks| == |tokens|
    ensures var r := RunTokens(tokens, clocks, now, localTts, STOP_BODIES);
            var last := if r.used == 0 then "" else Concat(tokens[..r.used - 1]);
            && last <= Concat(tokens[..r.used]) && EndsBeforeSpeaker(r, Concat(tokens[..r.used]), last)
            && (!r.halted ==> r.used == |tokens|)
  {
    hide RunTokens, EndsBeforeSpeaker, Concat, KeptText;
    StopBodiesAreShort();
    KeptIsReceivedCut(tokens, clocks, now, localTts, STOP_BODIES);
    var r := RunTokens(tokens, clocks, now, localTts, STOP_BODIES);
    if r.used > 0 {
      assert tokens[..r.used] == tokens[..r.used - 1] + [tokens[r.used - 1]];
      ConcatSnoc(tokens[..r.used - 1], tokens[r.used - 1]);
    }
    KeptTextEnds(r, Concat(tokens[..r.used]), if r.used == 0 then "" else Concat(tokens[..r.used - 1]));
  }

  lemma KeptTextEnds(r: Run, text: string, last: string)
    requires KeptText(r, text, last, STOP_BODIES) && last <= text
    ensures EndsBeforeSpeaker(r, text, last)
  {
    hide HeadAt, Concat, CutBefore, FirstStop, ShownUpTo;
    FirstStopIs(text);
  }

  // ----- the whole stream, with a full rescan after every token ----------------------------

  datatype Run = Run(turn: Turn, halted: bool, used: nat)

  ghost function RunTokens(tokens: seq<string>, clocks: seq<Clock>, now: real, localTts: bool,
                           bodies: seq<string>): (r: Run)
    requires |clocks| == |tokens|
    ensures r.used <= |tokens| && (!r.halted ==> r.used == |tokens|)
  {
    if tokens == [] then Run(Start(now), false, 0) else
    var n := |tokens| - 1;
    RunNext(RunTokens(tokens[..n], clocks[..n], now, localTts, bodies), tokens[n], clocks[n], localTts, bodies)
  }

  ghost function RunNext(before: Run, token: string, c: Clock, localTts: bool, bodies: seq<string>): (r: Run)
    ensures r.halted <== before.halted
    ensures r.used == if before.halted then before.used else before.used + 1
  {
    if before.halted then before else
    var text := before.turn.full + token;
    if HasStop(text, bodies) then Run(Halt(before.turn, token, FirstStop(text, 0, bodies)), true, before.used + 1)
    else Run(Take(before.turn, token, c, localTts), false, before.used + 1)
  }

  // ----- the code -----------------------------------------------------------------------------

  method SpeakSentences(t: Turn, c: Clock) returns (u: Turn)
    ensures u == FlushSentences(t, c)
    ensures EndsIn(t.buffer, ".!?") ==>
              && u.buffer == "" && t.spoken < u.spoken
              && forall k | |t.spoken| <= k < |u.spoken| :: OneSentence(u.spoken[k])
  {
    hide OneSentence, EndsIn, SplitSentences;
    if EndsIn(t.buffer, ".!?") {
      FlushSpeaksSentences(t, c);
    }
    var spoken, remainder := SpeakPieces(t.spoken, SplitSentences(t.buffer));
    u := t.(spoken := spoken, buffer := remainder, lastFlush := c.flushed);
  }

  method SpeakPieces(before: seq<string>, sentences: seq<string>) returns (spoken: seq<string>, remainder: string)
    requires sentences != []
    ensures var last := sentences[|sentences| - 1];
            if SentenceEnd(last) then remainder == "" && spoken == before + SpeakableOf(sentences)
            else remainder == last && spoken == before + SpeakableOf(sentences[..|sentences| - 1])
  {
    spoken, remainder := before, "";
    var n := |sentences| - 1;
    for i := 0 to n
      invariant spoken == before + SpeakableOf(sentences[..i])
    {
      SpeakableSnoc(before, sentences, i);
      if !Blank(sentences[i]) { spoken := spoken + [Trim(sentences[i])]; }
    }
    if SentenceEnd(sentences[n]) {
      SpeakableSnoc(before, sentences, n);
      if !Blank(sentences[n]) { spoken := spoken + [Trim(sentences[n])]; }
    } else {
      remainder := sentences[n];
    }
  }

  lemma SpeakableSnoc(before: seq<string>, pieces: seq<string>, i: nat)
    requires i < |pieces|
    ensures before + SpeakableOf(pieces[..i + 1])
         == before + SpeakableOf(pieces[..i]) + (if Blank(pieces[i]) then [] else [Trim(pieces[i])])
    ensures pieces[..|pieces|] == pieces
  {
    assert pieces[..i + 1][..i] == pieces[..i];
  }

  // One token that completes no stop pattern.
  method TakeToken(t: Turn, token: string, c: Clock, localTts: bool) returns (turn: Turn)
    ensures turn == Take(t, token, c, localTts)
  {
    turn := t.(full := t.full + token, shown := t.shown + [token], buffer := t.buffer + token,
               inCode := if CountMarks(token) % 2 == 1 then !t.inCode else t.inCode);
    if SentenceEnd(turn.buffer) {
      turn := SpeakSentences(turn, c);
    } else if ClauseEnd(turn.buffer) && !turn.inCode {
      turn := SpeakClause(turn, c, localTts);
    } else if localTts && !turn.inCode && |turn.buffer| >= 20 && c.check - turn.lastFlush > 0.3 {
      turn := SpeakTimeout(turn, c);
    }
  }

  method SpeakClause(t: Turn, c: Clock, localTts: bool) returns (turn: Turn)
    ensures turn == FlushClause(t, c, localTts)
  {
    SpeakableOne(t.buffer);
    turn := t;
    var clauseMinChars := if localTts then 20 else 60;
    if |t.buffer| >= clauseMinChars {
      if !Blank(t.buffer) { turn := turn.(spoken := turn.spoken + [Trim(t.buffer)]); }
      turn := turn.(buffer := "", lastFlush := c.flushed);
    }
  }

  method SpeakTimeout(t: Turn, c: Clock) returns (turn: Turn)
    ensures turn == FlushTimeout(t, c)
  {
    hide Trim, LStrip, LastWordBoundary, SpeakableOf;
    turn := t;
    var m := LastWordBoundary(t.buffer);
    if m >= 10 {
      var head := t.buffer[..m];
      SpeakableOne(head);
      var flushText := Trim(head);
      turn := turn.(buffer := LStrip(t.buffer[m..]));
      if flushText != "" {
        turn := turn.(spoken := turn.spoken + [flushText], lastFlush := c.flushed);
      }
    }
  }

  // One pass of the loop body: scan from the watermark, then cut or take the token.
  method HandleToken(before: Turn, watermark: nat, token: string, c: Clock, localTts: bool, bodies: seq<string>)
    returns (turn: Turn, halted: bool, scanned: nat)
    requires ShortBodies(bodies) && watermark == |before.full| && !HasStop(before.full, bodies)
    ensures forall n: nat :: Run(turn, halted, n + 1) == RunNext(Run(before, false, n), token, c, localTts, bodies)
    ensures !halted ==> scanned == |turn.full| && !HasStop(turn.full, bodies)
  {
    var full := before.full + token;
    var scanStart := if watermark <= OVERLAP then 0 else watermark - OVERLAP;
    WatermarkScan(before.full, token, bodies);
    var halt := FirstStop(full, scanStart, bodies);
    scanned := |full|;
    if halt <= |full| {
      turn, halted := Halt(before, token, halt), true;
    } else {
      turn := TakeToken(before, token, c, localTts);
      halted := false;
      TakeText(before, token, c, localTts);
    }
  }

  // The `async for` over the LLM stream.
  method StreamToSpeech(tokens: seq<string>, clocks: seq<Clock>, now: real, localTts: bool, bodies: seq<string>)
    returns (turn: Turn, halted: bool)
    requires |clocks| == |tokens| && ShortBodies(bodies)
    ensures turn == RunTokens(tokens, clocks, now, localTts, bodies).turn
    ensures halted == RunTokens(tokens, clocks, now, localTts, bodies).halted
  {
    turn, halted := Start(now), false;
    var watermark := 0;
    NoStopInEmpty(bodies);
    for i := 0 to |tokens|
      invariant !halted
      invariant Run(turn, false, i) == RunTokens(tokens[..i], clocks[..i], now, localTts, bodies)
      invariant watermark == |turn.full| && !HasStop(turn.full, bodies)
    {
      RunSnoc(tokens, clocks, now, localTts, bodies, i);
      turn, halted, watermark := HandleToken(turn, watermark, tokens[i], clocks[i], localTts, bodies);
      if halted {
        HaltedStays(tokens, clocks, now, localTts, bodies, i + 1, |tokens|);
        break;
      }
    }
    assert tokens[..|tokens|] == tokens && clocks[..|clocks|] == clocks;
  }

  lemma NoStopInEmpty(bodies: seq<string>)
    requires ShortBodies(bodies)
    ensures !HasStop("", bodies)
  {
  }

  lemma RunSnoc(tokens: seq<string>, clocks: seq<Clock>, now: real, localTts: bool, bodies: seq<string>, i: nat)
    requires |clocks| == |tokens| && i < |tokens|
    ensures RunTokens(tokens[..i + 1], clocks[..i + 1], now, localTts, bodies)
         == RunNext(RunTokens(tokens[..i], clocks[..i], now, localTts, bodies), tokens[i], clocks[i], localTts, bodies)
  {
    assert tokens[..i + 1][..i] == tokens[..i] && clocks[..i + 1][..i] == clocks[..i];
  }

  lemma {:induction false} HaltedStays(tokens: seq<string>, clocks: seq<Clock>, now: real, localTts: bool,
                                       bodies: seq<string>, k: nat, j: nat)
    requires |clocks| == |tokens| && k <= j <= |tokens|
    requires RunTokens(tokens[..k], clocks[..k], now, localTts, bodies).halted
    ensures RunTokens(tokens[..j], clocks[..j], now, localTts, bodies)
            == RunTokens(tokens[..k], clocks[..k], now, localTts, bodies)
  {
    hide Take, Halt, HasStop, FirstStop;
    if k < j {
      HaltedStays(tokens, clocks, now, localTts, bodies, k, j - 1);
      RunSnoc(tokens, clocks, now, localTts, bodies, j - 1);
    }
  }

  // ----- the kept response ---------------------------------------------------------------------

  // The kept response is the received text, cut at the first stop pattern if there is one.
  lemma {:induction false} KeptIsReceivedCut(tokens: seq<string>, clocks: seq<Clock>, now: real, localTts: bool,
                                             bodies: seq<string>)
    requires |clocks| == |tokens| && ShortBodies(bodies)
    ensures KeptCut(RunTokens(tokens, clocks, now, localTts, bodies), tokens, bodies)
  {
    if tokens == [] {
      assert tokens[..0] == [];
      NoStopInEmpty(bodies);
    } else {
      var n := |tokens| - 1;
      KeptIsReceivedCut(tokens[..n], clocks[..n], now, localTts, bodies);
      KeptCutNext(RunTokens(tokens[..n], clocks[..n], now, localTts, bodies), tokens, clocks[n], localTts, bodies);
    }
  }

  lemma KeptCutNext(before: Run, tokens: seq<string>, c: Clock, localTts: bool, bodies: seq<string>)
    requires tokens != [] && before.used <= |tokens| - 1 && KeptCut(before, tokens[..|tokens| - 1], bodies)
    ensures KeptCut(RunNext(before, tokens[|tokens| - 1], c, localTts, bodies), tokens, bodies)
  {
    hide Halt, Take, HasStop, FirstStop, Concat;
    var n := |tokens| - 1;
    if before.halted {
      assert tokens[..n][..before.used] == tokens[..before.used];
      assert tokens[..n][..before.used - 1] == tokens[..before.used - 1];
    } else {
      assert tokens[..n][..n] == tokens[..n] && tokens[..n + 1] == tokens;
      assert before.turn.full == Concat(tokens[..n]) && before.used == n;
      assert tokens == tokens[..n] + [tokens[n]];
      ConcatSnoc(tokens[..n], tokens[n]);
      KeptCutAfter(before.turn, tokens[n], c, localTts, bodies);
      assert KeptText(RunNext(before, tokens[n], c, localTts, bodies), Concat(tokens), Concat(tokens[..n]), bodies);
    }
  }

  lemma KeptCutAfter(t: Turn, token: string, c: Clock, localTts: bool, bodies: seq<string>)
    requires Concat(t.shown) == t.full && !HasStop(t.full, bodies)
    ensures var text := t.full + token;
            if HasStop(text, bodies) then
              var u := Halt(t, token, FirstStop(text, 0, bodies));
              u.full == text[..FirstStop(text, 0, bodies)]
              && Concat(u.shown) == ShownUpTo(text, |t.full|, FirstStop(text, 0, bodies))
            else Take(t, token, c, localTts).full == text && Concat(Take(t, token, c, localTts).shown) == text
  {
    var text := t.full + token;
    if HasStop(text, bodies) {
      HaltShows(t, token, FirstStop(text, 0, bodies));
    } else {
      ConcatSnoc(t.shown, token);
      TakeText(t, token, c, localTts);
    }
  }

  lemma TakeText(t: Turn, token: string, c: Clock, localTts: bool)
    ensures Take(t, token, c, localTts).full == t.full + token
    ensures Take(t, token, c, localTts).shown == t.shown + [token]
  {
  }

  ghost predicate KeptCut(r: Run, tokens: seq<string>, bodies: seq<string>)
    requires r.used <= |tokens|
  {
    && (r.halted || r.used == |tokens|)
    && (r.halted ==> 0 < r.used)
    && KeptText(r, Concat(tokens[..r.used]), if r.used == 0 then "" else Concat(tokens[..r.used - 1]), bodies)
  }

  // text is what was received, last without the last token.
  ghost predicate KeptText(r: Run, text: string, last: string, bodies: seq<string>) {
    && r.halted == HasStop(text, bodies)
    && r.turn.full == (if r.halted then text[..FirstStop(text, 0, bodies)] else text)
    && (!r.halted ==> Concat(r.turn.shown) == text)
    && (r.halted ==> !HasStop(last, bodies) && last <= text
                     && Concat(r.turn.shown) == ShownUpTo(text, |last|, FirstStop(text, 0, bodies)))
  }

  // The first n characters were shown before; the last token shows what it has before the cut, unless
  // that is blank.
  ghost function ShownUpTo(text: string, n: nat, cut: nat): string
    requires n <= |text| && cut <= |text|
  {
    if n < cut && Trim(text[n..cut]) != "" then text[..cut] else text[..n]
  }

  lemma NothingStripped()
    ensures Trim("") == ""
  {
  }

  lemma HaltShows(t: Turn, token: string, keepEnd: nat)
    requires keepEnd <= |t.full + token| && Concat(t.shown) == t.full
    ensures Concat(Halt(t, token, keepEnd).shown) == ShownUpTo(t.full + token, |t.full|, keepEnd)
  {
    hide IsSpace, Trim;
    var text := t.full + token;
    var partial := if keepEnd > |t.full| then token[..keepEnd - |t.full|] else "";
    ConcatSnoc(t.shown, partial);
    assert text[..|t.full|] == t.full;
    if keepEnd > |t.full| {
      assert partial == text[|t.full|..keepEnd] && text[..keepEnd] == t.full + partial;
    } else {
      assert Trim("") == "" by { NothingStripped(); }
    }
  }

  // ----- inside a code block ----------------------------------------------------------------------

  function Fences(tokens: seq<string>): nat {
    if tokens == [] then 0 else Fences(tokens[..|tokens| - 1]) + CountMarks(tokens[|tokens| - 1])
  }

  // The stream is inside a code block exactly when an odd number of fences has gone by; the token that
  // halts it does not count.
  lemma {:induction false} InCodeIff(tokens: seq<string>, clocks: seq<Clock>, now: real, localTts: bool,
                                     bodies: seq<string>)
    requires |clocks| == |tokens|
    ensures var r := RunTokens(tokens, clocks, now, localTts, bodies);
            && (r.halted ==> r.used > 0)
            && (r.turn.inCode <==> Fences(tokens[..if r.halted then r.used - 1 else r.used]) % 2 == 1)
  {
    hide Take, Halt, HasStop, FirstStop, CountMarks;
    if tokens != [] {
      var n := |tokens| - 1;
      InCodeIff(tokens[..n], clocks[..n], now, localTts, bodies);
      var before := RunTokens(tokens[..n], clocks[..n], now, localTts, bodies);
      assert forall k | 0 <= k <= n :: tokens[..n][..k] == tokens[..k];
      assert tokens[..n + 1] == tokens;
      InCodeKept(before.turn, tokens[n], clocks[n], localTts, bodies);
    }
  }

  lemma InCodeKept(t: Turn, token: string, c: Clock, localTts: bool, bodies: seq<string>)
    ensures Take(t, token, c, localTts).inCode == if CountMarks(token) % 2 == 1 then !t.inCode else t.inCode
    ensures HasStop(t.full + token, bodies) ==>
              Halt(t, token, FirstStop(t.full + token, 0, bodies)).inCode == t.inCode
  {
    hide CountMarks, SplitSentences, SpeakableOf, LastWordBoundary, SentenceEnd, ClauseEnd, Trim, LStrip;
  }

  // ----- spoken equals shown ----------------------------------------------------------------------

  function Voice(texts: seq<string>): string { NonSpace(Concat(texts)) }

  lemma VoiceAppend(a: seq<string>, b: seq<string>)
    ensures Voice(a + b) == Voice(a) + Voice(b)
  {
    ConcatAppend(a, b);
    NonSpaceAppend(Concat(a), Concat(b));
  }

  lemma VoiceOne(s: string)
    ensures Voice([s]) == NonSpace(s)
  {
    assert Concat([s]) == s by { assert [s] == [] + [s]; ConcatSnoc([], s); }
  }

  lemma {:induction false} SpeakableKeepsVoice(pieces: seq<string>)
    ensures Voice(SpeakableOf(pieces)) == Voice(pieces)
  {
    if pieces != [] {
      var n := |pieces| - 1;
      var last := pieces[n];
      SpeakableKeepsVoice(pieces[..n]);
      assert pieces == pieces[..n] + [last];
      VoiceAppend(pieces[..n], [last]);
      VoiceOne(last);
      TrimKeepsNonSpace(last);
      if Blank(last) {
        assert SpeakableOf(pieces) == SpeakableOf(pieces[..n]);
      } else {
        VoiceAppend(SpeakableOf(pieces[..n]), [Trim(last)]);
        VoiceOne(Trim(last));
      }
    }
  }

  // The sentence split drops whitespace only.
  lemma {:induction false} SplitKeepsVoice(s: string)
    ensures Voice(SplitSentences(s)) == NonSpace(s)
    decreases |s|
  {
    var cut := SplitPoint(s, 0);
    if cut == |s| {
      VoiceOne(s);
    } else {
      var rest := LStrip(s[cut..]);
      SplitKeepsVoice(rest);
      HeadVoice(s, cut, SplitSentences(rest));
    }
  }

  lemma HeadVoice(s: string, cut: nat, out: seq<string>)
    requires cut <= |s| && Voice(out) == NonSpace(LStrip(s[cut..]))
    ensures Voice([s[..cut]] + out) == NonSpace(s)
  {
    calc {
      Voice([s[..cut]] + out);
      { VoiceAppend([s[..cut]], out); VoiceOne(s[..cut]); LStripKeepsNonSpace(s[cut..]); }
      NonSpace(s[..cut]) + NonSpace(s[cut..]);
      { NonSpaceAppend(s[..cut], s[cut..]); }
      NonSpace(s[..cut] + s[cut..]);
      { assert s[..cut] + s[cut..] == s; }
      NonSpace(s);
    }
  }

  // What is still buffered is exactly what has been shown and not yet spoken.
  ghost predicate Balanced(t: Turn) {
    Voice(t.shown) == Voice(t.spoken) + NonSpace(t.buffer)
  }

  lemma SpeakBalanced(t: Turn, out: seq<string>, rest: string)
    requires Balanced(t)
    requires NonSpace(t.buffer) == Voice(out) + NonSpace(rest)
    ensures Voice(t.shown) == Voice(t.spoken + out) + NonSpace(rest)
  {
    VoiceAppend(t.spoken, out);
  }

  lemma SentencesConserve(buffer: string)
    ensures var pieces := SplitSentences(buffer);
            var last := pieces[|pieces| - 1];
            && NonSpace(buffer) == Voice(SpeakableOf(pieces))
            && NonSpace(buffer) == Voice(SpeakableOf(pieces[..|pieces| - 1])) + NonSpace(last)
  {
    SplitKeepsVoice(buffer);
    PiecesVoice(SplitSentences(buffer));
  }

  lemma PiecesVoice(pieces: seq<string>)
    requires pieces != []
    ensures Voice(pieces) == Voice(SpeakableOf(pieces))
    ensures Voice(pieces) == Voice(SpeakableOf(pieces[..|pieces| - 1])) + NonSpace(pieces[|pieces| - 1])
  {
    var n := |pieces| - 1;
    SpeakableKeepsVoice(pieces);
    calc {
      Voice(pieces);
      { assert pieces == pieces[..n] + [pieces[n]]; VoiceAppend(pieces[..n], [pieces[n]]); }
      Voice(pieces[..n]) + Voice([pieces[n]]);
      { SpeakableKeepsVoice(pieces[..n]); VoiceOne(pieces[n]); }
      Voice(SpeakableOf(pieces[..n])) + NonSpace(pieces[n]);
    }
  }

  lemma FlushSentencesBalanced(t: Turn, c: Clock)
    requires Balanced(t)
    ensures Balanced(FlushSentences(t, c))
  {
    var pieces := SplitSentences(t.buffer);
    var last := pieces[|pieces| - 1];
    SentencesConserve(t.buffer);
    if SentenceEnd(last) {
      SpeakBalanced(t, SpeakableOf(pieces), "");
    } else {
      SpeakBalanced(t, SpeakableOf(pieces[..|pieces| - 1]), last);
    }
  }

  // Speaking the first part of the buffer and keeping the rest, up to leading whitespace.
  lemma HeadConserves(buffer: string, m: nat)
    requires m <= |buffer|
    ensures NonSpace(buffer) == Voice(SpeakableOf([buffer[..m]])) + NonSpace(LStrip(buffer[m..]))
  {
    hide LStrip, NonSpace, SpeakableOf, Voice;
    LStripKeepsNonSpace(buffer[m..]);
    var head, tail := buffer[..m], buffer[m..];
    assert buffer == head + tail;
    NonSpaceAppend(head, tail);
    SpeakableKeepsVoice([head]);
    VoiceOne(head);
  }

  lemma ShowBalanced(t: Turn, text: string)
    requires Balanced(t)
    ensures Balanced(t.(shown := t.shown + [text], buffer := t.buffer + text))
  {
    VoiceAppend(t.shown, [text]);
    VoiceOne(text);
    NonSpaceAppend(t.buffer, text);
  }

  lemma FlushBalanced(t: Turn, c: Clock, localTts: bool)
    requires Balanced(t)
    ensures Balanced(Flush(t, c, localTts))
  {
    if SentenceEnd(t.buffer) {
      FlushSentencesBalanced(t, c);
    } else {
      FlushClauseBalanced(t, c, localTts);
      FlushTimeoutBalanced(t, c);
    }
  }

  lemma FlushClauseBalanced(t: Turn, c: Clock, localTts: bool)
    requires Balanced(t)
    ensures Balanced(FlushClause(t, c, localTts))
  {
    SpeakableKeepsVoice([t.buffer]);
    VoiceOne(t.buffer);
    SpeakBalanced(t, SpeakableOf([t.buffer]), "");
  }

  lemma FlushTimeoutBalanced(t: Turn, c: Clock)
    requires Balanced(t)
    ensures Balanced(FlushTimeout(t, c))
  {
    var m := LastWordBoundary(t.buffer);
    if m >= 10 {
      HeadConserves(t.buffer, m);
      SpeakBalanced(t, SpeakableOf([t.buffer[..m]]), LStrip(t.buffer[m..]));
    }
  }

  lemma TakeBalanced(t: Turn, token: string, c: Clock, localTts: bool)
    requires Balanced(t)
    ensures Balanced(Take(t, token, c, localTts))
  {
    ShowBalanced(t, token);
    FlushBalanced(t.(full := t.full + token, buffer := t.buffer + token, shown := t.shown + [token],
                     inCode := if CountMarks(token) % 2 == 1 then !t.inCode else t.inCode), c, localTts);
  }

  lemma {:induction false} RunBalanced(tokens: seq<string>, clocks: seq<Clock>, now: real, localTts: bool,
                                       bodies: seq<string>)
    requires |clocks| == |tokens|
    ensures Balanced(RunTokens(tokens, clocks, now, localTts, bodies).turn)
  {
    if tokens != [] {
      var n := |tokens| - 1;
      RunBalanced(tokens[..n], clocks[..n], now, localTts, bodies);
      var before := RunTokens(tokens[..n], clocks[..n], now, localTts, bodies);
      RunNextBalanced(before, tokens[n], clocks[n], localTts, bodies);
    } else {
      assert Balanced(Start(now));
    }
  }

  lemma HaltBalanced(t: Turn, token: string, keepEnd: nat)
    requires Balanced(t) && keepEnd <= |t.full + token|
    ensures Balanced(Halt(t, token, keepEnd))
  {
    ShowBalanced(t, if keepEnd > |t.full| then token[..keepEnd - |t.full|] else "");
  }

  lemma RunNextBalanced(before: Run, token: string, c: Clock, localTts: bool, bodies: seq<string>)
    requires Balanced(before.turn)
    ensures Balanced(RunNext(before, token, c, localTts, bodies).turn)
  {
    var text := before.turn.full + token;
    if HasStop(text, bodies) {
      HaltBalanced(before.turn, token, FirstStop(text, 0, bodies));
    }
    TakeBalanced(before.turn, token, c, localTts);
  }

  // After the stream: speak the rest, then the fallback if the reply was useless.
  method FinishTurn(turn: Turn, useful: bool, fallback: string) returns (t: Turn)
    ensures t.shown == turn.shown + (if useful then [] else [fallback])
    ensures t.spoken == turn.spoken + SpeakableOf([turn.buffer]) + (if useful then [] else [fallback])
    ensures t.full == if useful then turn.full else fallback
  {
    t := turn;
    if !Blank(t.buffer) { t := t.(spoken := t.spoken + [Trim(t.buffer)]); }
    if !useful {
      t := t.(shown := t.shown + [fallback], spoken := t.spoken + [fallback], full := fallback);
    }
  }

  // A whole uncancelled turn, for every stream, clock and TTS locality: the listener hears the
  // non-whitespace characters the reader sees, in order.
  method SpeakTurn(tokens: seq<string>, clocks: seq<Clock>, now: real, localTts: bool, useful: string -> bool,
                   fallback: string)
    returns (t: Turn)
    requires |clocks| == |tokens|
    ensures Voice(t.spoken) == Voice(t.shown)
    ensures var r := RunTokens(tokens, clocks, now, localTts, STOP_BODIES).turn;
            var last := if useful(r.full) then [] else [fallback];
            t.shown == r.shown + last && t.spoken == r.spoken + SpeakableOf([r.buffer]) + last
            && t.full == if useful(r.full) then r.full else fallback
  {
    hide RunTokens, SpeakableOf, Voice;
    StopBodiesAreShort();
    var turn, halted := StreamToSpeech(tokens, clocks, now, localTts, STOP_BODIES);
    RunBalanced(tokens, clocks, now, localTts, STOP_BODIES);
    t := FinishTurn(turn, useful(turn.full), fallback);
    FinishBalanced(turn, if useful(turn.full) then [] else [fallback]);
  }

  lemma FinishBalanced(turn: Turn, last: seq<string>)
    requires Balanced(turn)
    ensures Voice(turn.spoken + SpeakableOf([turn.buffer]) + last) == Voice(turn.shown + last)
  {
    SpeakableKeepsVoice([turn.buffer]);
    VoiceOne(turn.buffer);
    VoiceAppend(turn.spoken, SpeakableOf([turn.buffer]));
    VoiceAppend(turn.spoken + SpeakableOf([turn.buffer]), last);
    VoiceAppend(turn.shown, last);
  }

  // A turn cancelled after any number of tokens has spoken a prefix of what it showed.
  lemma CancelledSpeechIsPrefix(tokens: seq<string>, clocks: seq<Clock>, now: real, localTts: bool, k: nat)
    requires |clocks| == |tokens| && k <= |tokens|
    ensures var t := RunTokens(tokens[..k], clocks[..k], now, localTts, STOP_BODIES).turn;
            Voice(t.spoken) <= Voice(t.shown)
  {
    RunBalanced(tokens[..k], clocks[..k], now, localTts, STOP_BODIES);
  }

  // And so has one cancelled while the flush of one token is under way, after any of its texts: the
  // token's event precedes its flush, and the flush only appends to what was spoken.
  lemma CancelledFlushIsPrefix(before: Turn, token: string, c: Clock, localTts: bool, bodies: seq<string>, done: nat)
    requires Balanced(before) && !HasStop(before.full + token, bodies)
    requires |before.spoken| <= done <= |Take(before, token, c, localTts).spoken|
    ensures var after := Take(before, token, c, localTts);
            before.spoken <= after.spoken && after.shown == before.shown + [token]
            && Voice(after.spoken[..done]) <= Voice(after.shown)
  {
    TakeBalanced(before, token, c, localTts);
    TakeAppends(before, token, c, localTts);
    var after := Take(before, token, c, localTts);
    assert after.spoken == after.spoken[..done] + after.spoken[done..];
    VoiceAppend(after.spoken[..done], after.spoken[done..]);
  }

  lemma TakeAppends(t: Turn, token: string, c: Clock, localTts: bool)
    ensures var u := Take(t, token, c, localTts); t.spoken <= u.spoken && u.shown == t.shown + [token]
  {
    hide SplitSentences, SpeakableOf, LastWordBoundary, SentenceEnd, ClauseEnd, CountMarks, Blank, LStrip;
  }
}
