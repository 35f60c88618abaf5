/** Complete `<tool>...</tool><args>...</args>` blocks: the pattern, its removal, and the places where
    a text can be cut so that stripping the rest alone leaves what stripping the whole does. */
module ToolBlocks {
  import opened Options
  import opened Text

  // ----- the block pattern ------------------------------------------------------------

  function SpaceLen(s: string): (n: nat)
    ensures n <= |s|
  {
    if s != "" && IsSpace(s[0]) then 1 + SpaceLen(s[1..]) else 0
  }

  // `[\s\S]*?</args>\s*>?` at the head of s: the length of the match.
  function CloseArgs(s: string): (r: Option<nat>)
    ensures r.Some? ==> 0 < r.value <= |s|
  {
    if FoldPrefix(s, "</args>") then
      var n := 7 + SpaceLen(s[7..]);
      Some(if n < |s| && s[n] == '>' then n + 1 else n)
    else if s == "" then None
    else match CloseArgs(s[1..])
      case None => None
      case Some(n) => Some(n + 1)
  }

  // `\s*<args>` and what follows it.
  function ArgsBlock(s: string): (r: Option<nat>)
    ensures r.Some? ==> 0 < r.value <= |s|
  {
    var n := SpaceLen(s);
    if !FoldPrefix(s[n..], "<args>") then None
    else match CloseArgs(s[n..][6..])
      case None => None
      case Some(k) => Some(n + 6 + k)
  }

  // `[\s\S]*?</tool>` lazily, up to the first close that the rest of the pattern accepts.
  function CloseTool(s: string): (r: Option<nat>)
    ensures r.Some? ==> 0 < r.value <= |s|
  {
    if FoldPrefix(s, "</tool>") && ArgsBlock(s[7..]).Some? then Some(7 + ArgsBlock(s[7..]).value)
    else if s == "" then None
    else match CloseTool(s[1..])
      case None => None
      case Some(n) => Some(n + 1)
  }

  function BlockLen(s: string): (r: Option<nat>)
    ensures r.Some? ==> 0 < r.value <= |s|
  {
    if !FoldPrefix(s, "<tool>") then None
    else match CloseTool(s[6..])
      case None => None
      case Some(n) => Some(6 + n)
  }

  // `re.sub(block, "", s)`.
  function Strip(s: string): (r: string)
    ensures |r| <= |s|
  {
    if s == "" then ""
    else match BlockLen(s)
      case Some(n) => Strip(s[n..])
      case None => [s[0]] + Strip(s[1..])
  }

  // ----- positions in one text --------------------------------------------------------

  predicate TagAt(s: string, i: nat, p: string) { i <= |s| && FoldPrefix(s[i..], p) }

  // A complete block begins at i.
  predicate BlockAt(s: string, i: nat) { i <= |s| && BlockLen(s[i..]).Some? }

  function BlockEnd(s: string, i: nat): (e: nat)
    requires BlockAt(s, i)
    ensures i < e <= |s|
  {
    i + BlockLen(s[i..]).value
  }

  // A `</tool>` that arguments follow.
  predicate CloseAt(s: string, c: nat) { TagAt(s, c, "</tool>") && ArgsBlock(s[c..][7..]).Some? }

  function CloseEnd(s: string, c: nat): nat
    requires CloseAt(s, c)
  {
    c + 7 + ArgsBlock(s[c..][7..]).value
  }

  // The end of the match whose `</args>` stands at d.
  function AfterArgs(s: string, d: nat): (e: nat)
    requires d + 7 <= |s|
    ensures d + 7 <= e <= |s|
  {
    var n := SpaceLen(s[d..][7..]);
    if d + 7 + n < |s| && s[d + 7 + n] == '>' then d + 7 + n + 1 else d + 7 + n
  }

  const TAGS: seq<string> := ["<tool>", "</tool>", "<args>", "</args>"]

  lemma FoldAngle(c: char)
    ensures Fold(c) == '<' <==> c == '<'
  {
  }

  lemma TagShape(p: string)
    requires p in TAGS
    ensures |p| >= 6 && p[0] == '<' && forall n | 1 <= n < |p| :: p[n] != '<'
  {
  }

  lemma TagAngles(s: string, i: nat, p: string)
    requires TagAt(s, i, p) && p in TAGS
    ensures i + |p| <= |s| && |p| >= 6 && s[i] == '<' && forall j | i < j < i + |p| :: s[j] != '<'
  {
    hide Fold;
    TagShape(p);
    forall j | i <= j < i + |p| ensures Fold(s[j]) == p[j - i] && (s[j] == '<' <==> p[j - i] == '<') {
      assert s[i..][j - i] == s[j];
      FoldAngle(s[j]);
    }
  }

  // Two tags of one text lie apart.
  lemma TagsApart(s: string, i: nat, p: string, j: nat, q: string)
    requires TagAt(s, i, p) && TagAt(s, j, q) && p in TAGS && q in TAGS && i < j
    ensures i + |p| <= j
  {
    hide FoldPrefix;
    TagAngles(s, i, p);
    TagAngles(s, j, q);
  }

  lemma OneTag(s: string, i: nat, p: string, q: string)
    requires TagAt(s, i, p) && TagAt(s, i, q) && p in TAGS && q in TAGS
    ensures p == q
  {
    hide Fold;
    TagShape(p);
    TagShape(q);
    assert p[..3] == q[..3] by {
      forall k | 0 <= k < 3 ensures p[k] == Fold(s[i..][k]) == q[k] {
      }
    }
    TagsDiffer(p, q);
  }

  lemma TagsDiffer(p: string, q: string)
    requires p in TAGS && q in TAGS && |p| >= 3 && |q| >= 3 && p[..3] == q[..3]
    ensures p == q
  {
    assert p[0] == p[..3][0] == q[0];
    assert p[1] == p[..3][1] == q[1];
    assert p[2] == p[..3][2] == q[2];
  }

  // ----- what a match consists of -----------------------------------------------------------

  lemma {:induction false} SpacesOnly(s: string, i: nat)
    requires i < SpaceLen(s)
    ensures s[i] != '<'
  {
    if i > 0 { SpacesOnly(s[1..], i - 1); }
  }

  lemma NoAngleAfterArgs(s: string, d: nat, j: nat)
    requires d + 7 <= |s| && d + 7 <= j < AfterArgs(s, d)
    ensures s[j] != '<'
  {
    if j < d + 7 + SpaceLen(s[d..][7..]) {
      SpacesOnly(s[d..][7..], j - d - 7);
      assert s[d..][7..][j - d - 7] == s[j];
    }
  }

  // The lazy scan for `</args>` ends at the first one.
  lemma {:induction false} FirstCloseArgs(s: string, i: nat) returns (d: nat)
    requires i <= |s| && CloseArgs(s[i..]).Some?
    ensures i <= d && TagAt(s, d, "</args>") && d + 7 <= |s|
    ensures forall j: nat | i <= j < d :: !TagAt(s, j, "</args>")
    ensures i + CloseArgs(s[i..]).value == AfterArgs(s, d)
    decreases |s| - i
  {
    hide FoldPrefix, SpaceLen;
    if TagAt(s, i, "</args>") {
      d := i;
      TagAngles(s, i, "</args>");
    } else {
      assert s[i..] != "";
      assert s[i..][1..] == s[i + 1..];
      d := FirstCloseArgs(s, i + 1);
    }
  }

  // A close that arguments follow: where they open and where they close.
  lemma ArgsOf(s: string, c: nat) returns (w: nat, d: nat)
    requires CloseAt(s, c)
    ensures c + 7 <= w && TagAt(s, w, "<args>") && forall j | c + 7 <= j < w :: s[j] != '<'
    ensures w + 6 <= d && TagAt(s, d, "</args>") && d + 7 <= |s|
    ensures forall j: nat | w + 6 <= j < d :: !TagAt(s, j, "</args>")
    ensures CloseEnd(s, c) == AfterArgs(s, d)
  {
    hide FoldPrefix, SpaceLen, CloseArgs, AfterArgs;
    w := ArgsOpen(s, c);
    assert s[w..][6..] == s[w + 6..];
    d := FirstCloseArgs(s, w + 6);
  }

  lemma ArgsOpen(s: string, c: nat) returns (w: nat)
    requires CloseAt(s, c)
    ensures c + 7 <= w && TagAt(s, w, "<args>") && forall j | c + 7 <= j < w :: s[j] != '<'
    ensures w + 6 <= |s| && CloseArgs(s[w..][6..]).Some?
    ensures CloseEnd(s, c) == w + 6 + CloseArgs(s[w..][6..]).value
  {
    hide FoldPrefix, SpaceLen, CloseArgs;
    TagAngles(s, c, "</tool>");
    var rest := s[c..][7..];
    var n := SpaceLen(rest);
    w := c + 7 + n;
    assert rest[n..] == s[w..];
    TagAngles(s, w, "<args>");
    SpacesBetween(s, c, n);
  }

  lemma SpacesBetween(s: string, c: nat, n: nat)
    requires c + 7 <= |s| && n == SpaceLen(s[c..][7..])
    ensures forall j | c + 7 <= j < c + 7 + n :: s[j] != '<'
  {
    hide SpaceLen;
    forall j | c + 7 <= j < c + 7 + n ensures s[j] != '<' {
      SpacesOnly(s[c..][7..], j - c - 7);
      assert s[c..][7..][j - c - 7] == s[j];
    }
  }

  // The lazy scan for `</tool>` ends at the first one that arguments follow.
  lemma {:induction false} FirstClose(s: string, i: nat) returns (c: nat)
    requires i <= |s| && CloseTool(s[i..]).Some?
    ensures i <= c && CloseAt(s, c)
    ensures forall j: nat | i <= j < c :: !CloseAt(s, j)
    ensures i + CloseTool(s[i..]).value == CloseEnd(s, c)
    decreases |s| - i
  {
    hide FoldPrefix, ArgsBlock;
    if CloseAt(s, i) {
      c := i;
    } else {
      assert s[i..] != "" && s[i..][1..] == s[i + 1..];
      c := FirstClose(s, i + 1);
    }
  }

  lemma {:induction false} CloseIsFound(s: string, i: nat, c: nat)
    requires i <= c && CloseAt(s, c)
    ensures CloseTool(s[i..]).Some?
    decreases c - i
  {
    hide ArgsBlock, Fold;
    if i < c {
      assert s[i..] != "" && s[i..][1..] == s[i + 1..];
      CloseIsFound(s, i + 1, c);
    }
  }

  // The close of the block at k.
  lemma CloseOf(s: string, k: nat) returns (c: nat)
    requires BlockAt(s, k)
    ensures TagAt(s, k, "<tool>") && k + 6 <= c && CloseAt(s, c) && BlockEnd(s, k) == CloseEnd(s, c)
    ensures forall j: nat | k + 6 <= j < c :: !CloseAt(s, j)
  {
    hide Fold, CloseTool, ArgsBlock, CloseAt, CloseEnd;
    assert s[k..][6..] == s[k + 6..];
    c := FirstClose(s, k + 6);
  }

  lemma TagThenClose(s: string, k: nat, c: nat)
    requires TagAt(s, k, "<tool>") && k + 6 <= c && CloseAt(s, c)
    ensures BlockAt(s, k)
  {
    hide Fold, CloseTool, ArgsBlock, CloseAt;
    assert s[k..][6..] == s[k + 6..];
    CloseIsFound(s, k + 6, c);
  }

  // ----- the pattern, by its characters -----------------------------------------------------

  ghost predicate AllSpace(s: string, i: nat, j: nat) { i <= j <= |s| && forall k | i <= k < j :: IsSpace(s[k]) }

  // `</tool>\s*<args>.*?</args>` at c, with the arguments opened at w and closed at d, the first close.
  ghost predicate Closes(s: string, c: nat, w: nat, d: nat) {
    && TagAt(s, c, "</tool>") && c + 7 <= w && AllSpace(s, c + 7, w) && TagAt(s, w, "<args>")
    && w + 6 <= d && TagAt(s, d, "</args>") && forall j: nat | w + 6 <= j < d :: !TagAt(s, j, "</args>")
  }

  // `\s*>?` from i on, as long as it goes.
  ghost predicate Trailer(s: string, i: nat, e: nat) {
    exists n: nat ::
      && AllSpace(s, i, n) && (n < |s| ==> !IsSpace(s[n]))
      && e == if n < |s| && s[n] == '>' then n + 1 else n
  }

  lemma {:induction false} SpaceLenIs(s: string)
    ensures forall k | 0 <= k < SpaceLen(s) :: IsSpace(s[k])
    ensures SpaceLen(s) < |s| ==> !IsSpace(s[SpaceLen(s)])
  {
    hide IsSpace;
    if s != "" && IsSpace(s[0]) {
      SpaceLenIs(s[1..]);
    }
  }

  lemma TrailerIs(s: string, d: nat)
    requires d + 7 <= |s|
    ensures Trailer(s, d + 7, AfterArgs(s, d))
  {
    hide IsSpace, SpaceLen;
    var rest := s[d..][7..];
    SpaceLenIs(rest);
    var n := d + 7 + SpaceLen(rest);
    assert forall k | d + 7 <= k < |s| :: rest[k - d - 7] == s[k];
    assert AllSpace(s, d + 7, n);
  }

  // The spaces between the close tag and the arguments.
  lemma SpacesToArgs(s: string, c: nat) returns (w: nat, d: nat)
    requires CloseAt(s, c)
    ensures Closes(s, c, w, d) && CloseEnd(s, c) == AfterArgs(s, d) && d + 7 <= |s|
  {
    hide FoldPrefix, SpaceLen, CloseArgs, AfterArgs, IsSpace;
    TagAngles(s, c, "</tool>");
    var rest := s[c..][7..];
    SpaceLenIs(rest);
    w := c + 7 + SpaceLen(rest);
    assert rest[SpaceLen(rest)..] == s[w..];
    TagAngles(s, w, "<args>");
    assert forall k | c + 7 <= k < |s| :: rest[k - c - 7] == s[k];
    assert s[w..][6..] == s[w + 6..];
    d := FirstCloseArgs(s, w + 6);
  }

  lemma {:induction false} CloseArgsFound(s: string, i: nat, d: nat)
    requires i <= d && TagAt(s, d, "</args>")
    ensures CloseArgs(s[i..]).Some?
    decreases d - i
  {
    hide Fold, SpaceLen;
    if i < d {
      assert s[i..] != "" && s[i..][1..] == s[i + 1..];
      CloseArgsFound(s, i + 1, d);
    }
  }

  lemma ClosesIsClose(s: string, c: nat, w: nat, d: nat)
    requires Closes(s, c, w, d)
    ensures CloseAt(s, c)
  {
    hide FoldPrefix, SpaceLen, CloseArgs, IsSpace;
    TagAngles(s, c, "</tool>");
    TagAngles(s, w, "<args>");
    var rest := s[c..][7..];
    SpaceLenIs(rest);
    AngleIsInk();
    assert forall k | c + 7 <= k < |s| :: rest[k - c - 7] == s[k];
    assert SpaceLen(rest) == w - c - 7;
    assert rest[w - c - 7..] == s[w..] && s[w..][6..] == s[w + 6..];
    CloseArgsFound(s, w + 6, d);
  }

  lemma AngleIsInk()
    ensures !IsSpace('<')
  {
  }

  // A block is the lazy match of `<tool>.*?</tool>\s*<args>.*?</args>\s*>?`, in any letter case: there is
  // one at k exactly when a complete close follows the tag, and it ends with the first such close.
  lemma BlockAtIff(s: string, k: nat)
    ensures BlockAt(s, k) <==> TagAt(s, k, "<tool>") && exists c: nat, w, d :: k + 6 <= c && Closes(s, c, w, d)
    ensures BlockAt(s, k) ==>
              exists c: nat, w: nat, d: nat ::
                && k + 6 <= c && Closes(s, c, w, d) && Trailer(s, d + 7, BlockEnd(s, k))
                && forall b: nat, v, e | k + 6 <= b < c :: !Closes(s, b, v, e)
  {
    hide BlockAt, BlockEnd, CloseAt, CloseEnd, Closes, TagAt, Trailer;
    forall c, w, d | Closes(s, c, w, d) ensures CloseAt(s, c) {
      ClosesIsClose(s, c, w, d);
    }
    if BlockAt(s, k) {
      var c := CloseOf(s, k);
      var w, d := SpacesToArgs(s, c);
      TrailerIs(s, d);
      assert Closes(s, c, w, d) && Trailer(s, d + 7, BlockEnd(s, k));
    }
    if TagAt(s, k, "<tool>") {
      forall c: nat, w, d | k + 6 <= c && Closes(s, c, w, d) ensures BlockAt(s, k) {
        TagThenClose(s, k, c);
      }
    }
  }

  // ----- ends of blocks ---------------------------------------------------------------------

  // A later close does not end earlier.
  lemma CloseEndsMonotone(s: string, c: nat, c2: nat)
    requires CloseAt(s, c) && CloseAt(s, c2) && c <= c2
    ensures CloseEnd(s, c) <= CloseEnd(s, c2)
  {
    hide FoldPrefix, ArgsBlock, CloseEnd, AfterArgs;
    if c < c2 {
      var w, d := ArgsOf(s, c);
      var w2, d2 := ArgsOf(s, c2);
      if d2 < d {
        assert w2 + 6 <= d2 && c2 < w2;
        TagBefore(s, c, w, c2);
        assert false;
      } else if d < d2 {
        EndBeforeTag(s, d, d2, "</args>");
      }
    }
  }

  // A `</tool>` after the close at c is after its `<args>`.
  lemma TagBefore(s: string, c: nat, w: nat, c2: nat)
    requires TagAt(s, c, "</tool>") && TagAt(s, w, "<args>") && TagAt(s, c2, "</tool>") && c < c2 && c + 7 <= w
    requires forall j | c + 7 <= j < w :: s[j] != '<'
    ensures w + 6 <= c2
  {
    hide FoldPrefix;
    TagsApart(s, c, "</tool>", c2, "</tool>");
    TagAngles(s, c2, "</tool>");
    if c2 == w { OneTag(s, w, "<args>", "</tool>"); }
    TagsApart(s, w, "<args>", c2, "</tool>");
  }

  // The match whose `</args>` stands at d ends before the next tag.
  lemma EndBeforeTag(s: string, d: nat, t: nat, p: string)
    requires TagAt(s, d, "</args>") && d + 7 <= |s| && TagAt(s, t, p) && p in TAGS && d < t
    ensures AfterArgs(s, d) <= t
  {
    hide FoldPrefix, AfterArgs;
    TagsApart(s, d, "</args>", t, p);
    TagAngles(s, t, p);
    if t < AfterArgs(s, d) { NoAngleAfterArgs(s, d, t); }
  }

  lemma BlockEndsMonotone(s: string, k: nat, o: nat)
    requires BlockAt(s, k) && BlockAt(s, o) && k <= o
    ensures BlockEnd(s, k) <= BlockEnd(s, o)
  {
    hide TagAt, CloseAt, CloseEnd, BlockEnd, BlockLen;
    var c := CloseOf(s, k);
    var c2 := CloseOf(s, o);
    assert c <= c2;
    CloseEndsMonotone(s, c, c2);
  }

  // Of two blocks, the later one starting inside the earlier one and ending after it, the later
  // one's close comes after the end of the earlier one.
  lemma InnerClose(s: string, k: nat, o: nat) returns (c: nat)
    requires BlockAt(s, k) && BlockAt(s, o) && k < o < BlockEnd(s, k) < BlockEnd(s, o)
    ensures BlockEnd(s, k) <= c && CloseAt(s, c) && BlockEnd(s, o) == CloseEnd(s, c)
    ensures forall j: nat | o + 6 <= j < c :: !CloseAt(s, j)
  {
    hide FoldPrefix, CloseAt, CloseEnd, BlockEnd, BlockAt, AfterArgs;
    var ck := CloseOf(s, k);
    c := CloseOf(s, o);
    TagsApart(s, k, "<tool>", o, "<tool>");
    if c < BlockEnd(s, k) {
      CloseIsTag(s, ck);
      if ck == o { OneTag(s, o, "<tool>", "</tool>"); }
      if o < ck { TagsApart(s, o, "<tool>", ck, "</tool>"); } else { SameEnd(s, ck, c); }
    }
  }

  lemma CloseIsTag(s: string, c: nat)
    requires CloseAt(s, c)
    ensures TagAt(s, c, "</tool>")
  {
  }

  // A close inside the match of an earlier one takes the same `</args>`.
  lemma SameEnd(s: string, ck: nat, c: nat)
    requires CloseAt(s, ck) && CloseAt(s, c) && ck < c < CloseEnd(s, ck)
    ensures CloseEnd(s, ck) == CloseEnd(s, c)
  {
    hide FoldPrefix, ArgsBlock, CloseEnd, AfterArgs;
    var w, d := ArgsOf(s, ck);
    var w2, d2 := ArgsOf(s, c);
    TagBefore(s, ck, w, c);
    if d < c { EndBeforeTag(s, d, c, "</tool>"); }
    if d == c { OneTag(s, d, "</args>", "</tool>"); }
    TagsApart(s, c, "</tool>", d, "</args>");
    TagAngles(s, d, "</args>");
    if d == w2 { OneTag(s, d, "</args>", "<args>"); }
    TagsApart(s, w2, "<args>", d, "</args>");
    assert d == d2;
  }

  // ----- scanning from a position ------------------------------------------------------------

  // No block begins from i up to j.
  ghost predicate BlockFree(s: string, i: nat, j: nat) {
    forall k: nat | i <= k < j :: !BlockAt(s, k)
  }

  lemma {:induction false} StripKeeps(s: string, i: nat, j: nat)
    requires i <= j <= |s| && BlockFree(s, i, j)
    ensures Strip(s[i..]) == s[i..j] + Strip(s[j..])
    decreases j - i
  {
    hide BlockLen;
    if i < j {
      StripKeeps(s, i + 1, j);
      assert !BlockAt(s, i) && s[i..] != "" && s[i..][1..] == s[i + 1..];
      assert [s[i]] + s[i + 1..j] == s[i..j];
    } else {
      assert s[i..j] == "";
    }
  }

  lemma StripSkips(s: string, k: nat)
    requires BlockAt(s, k)
    ensures Strip(s[k..]) == Strip(s[BlockEnd(s, k)..])
  {
    hide FoldPrefix, CloseTool;
    assert s[k..] != "";
    assert s[k..][BlockLen(s[k..]).value..] == s[BlockEnd(s, k)..];
  }

  lemma {:induction false} NextBlock(s: string, i: nat) returns (q: nat)
    requires i <= |s|
    ensures i <= q <= |s| && BlockFree(s, i, q) && (q < |s| ==> BlockAt(s, q))
    decreases |s| - i
  {
    hide BlockAt;
    if i == |s| || BlockAt(s, i) { q := i; } else { q := NextBlock(s, i + 1); }
  }

  // The scan that writes `out` has written n characters of it and stands at i.
  ghost predicate Scan(s: string, out: string, i: nat, n: nat) {
    i <= |s| && n <= |out| && out[n..] == Strip(s[i..])
  }

  lemma ScanKeeps(s: string, out: string, i: nat, n: nat, j: nat)
    requires Scan(s, out, i, n) && i <= j <= |s| && BlockFree(s, i, j)
    ensures Scan(s, out, j, n + (j - i)) && out[n..n + (j - i)] == s[i..j]
  {
    hide Strip, BlockFree;
    StripKeeps(s, i, j);
    assert out[n + (j - i)..] == out[n..][j - i..];
    assert out[n..n + (j - i)] == out[n..][..j - i];
  }

  lemma ScanSkips(s: string, out: string, i: nat, n: nat)
    requires Scan(s, out, i, n) && BlockAt(s, i)
    ensures Scan(s, out, BlockEnd(s, i), n)
  {
    hide Strip, BlockAt, BlockEnd;
    StripSkips(s, i);
  }

  // Two scans that write the same text and stand at one place have written equally much.
  lemma ScansMeet(s: string, out: string, i: nat, n: nat, m: nat)
    requires Scan(s, out, i, n) && Scan(s, out, i, m)
    ensures n == m
  {
    hide Strip;
    assert |out| - n == |Strip(s[i..])| == |out| - m;
  }

  // Where a scan is when it reaches t: there, or in a block around it.
  lemma {:induction false} ScanTo(s: string, out: string, i: nat, n: nat, t: nat) returns (o: nat, m: nat)
    requires Scan(s, out, i, n) && i <= t <= |s|
    ensures i <= o <= t && n <= m && Scan(s, out, o, m)
    ensures o == t || (BlockAt(s, o) && t < BlockEnd(s, o))
    decreases t - i
  {
    hide Scan, BlockFree, BlockAt, BlockEnd;
    var q := NextBlock(s, i);
    if t <= q {
      FreePart(s, i, t, q);
      ScanKeeps(s, out, i, n, t);
      o, m := t, n + (t - i);
    } else {
      ScanKeeps(s, out, i, n, q);
      if t < BlockEnd(s, q) {
        o, m := q, n + (q - i);
      } else {
        ScanSkips(s, out, q, n + (q - i));
        o, m := ScanTo(s, out, BlockEnd(s, q), n + (q - i), t);
      }
    }
  }

  lemma FreePart(s: string, i: nat, j: nat, k: nat)
    requires j <= k && BlockFree(s, i, k)
    ensures BlockFree(s, i, j)
  {
  }

  // ----- arguments left open -------------------------------------------------------------------

  // An `<args>` at w that no `</args>` follows before t.
  ghost predicate OpenFrom(s: string, t: nat, w: nat) {
    TagAt(s, w, "<args>") && w + 6 <= t && forall d: nat | w + 6 <= d && d + 7 <= t :: !TagAt(s, d, "</args>")
  }

  ghost predicate Open(s: string, t: nat) { exists w: nat :: OpenFrom(s, t, w) }

  // It does not lie before the end of a block, which ends in `</args>`.
  lemma OpenPastBlock(s: string, k: nat, t: nat, w: nat)
    requires BlockAt(s, k) && BlockEnd(s, k) <= t && OpenFrom(s, t, w)
    ensures BlockEnd(s, k) <= w
  {
    hide FoldPrefix, CloseAt, CloseEnd, BlockAt, BlockEnd, AfterArgs;
    var c := CloseOf(s, k);
    var w0, d := ArgsOf(s, c);
    if w < d { TagsApart(s, w, "<args>", d, "</args>"); }
    if w == d { OneTag(s, w, "<args>", "</args>"); }
    EndBeforeTag(s, d, w, "<args>");
  }

  // A tag inside the match that follows a close stands behind open arguments.
  lemma OpenInside(s: string, c: nat, t: nat) returns (w: nat)
    requires CloseAt(s, c) && TagAt(s, t, "<tool>") && c < t < CloseEnd(s, c)
    ensures c < w && OpenFrom(s, t, w)
  {
    hide FoldPrefix, ArgsBlock, CloseEnd, AfterArgs;
    var d;
    w, d := ArgsOf(s, c);
    TagsApart(s, c, "</tool>", t, "<tool>");
    TagAngles(s, t, "<tool>");
    if t == w { OneTag(s, t, "<args>", "<tool>"); }
    TagsApart(s, w, "<args>", t, "<tool>");
    if d < t { EndBeforeTag(s, d, t, "<tool>"); }
  }

  lemma TagInSlice(s: string, i: nat, p: string)
    requires i + |p| <= |s|
    ensures TagAt(s, i, p) <==> FoldPrefix(s[i..i + |p|], p)
  {
    hide Fold;
    assert s[i..i + |p|] == s[i..][..|p|];
  }

  lemma TagMoves(s: string, i: nat, j: nat, n: nat, x: nat, p: string)
    requires i + n <= |s| && j + n <= |s| && s[i..i + n] == s[j..j + n] && x + |p| <= n
    ensures TagAt(s, i + x, p) <==> TagAt(s, j + x, p)
  {
    hide TagAt;
    SliceOfSlice(s, i, i + n, x, x + |p|);
    SliceOfSlice(s, j, j + n, x, x + |p|);
    TagInSlice(s, i + x, p);
    TagInSlice(s, j + x, p);
  }

  lemma OpenMoves(s: string, i: nat, j: nat, n: nat, w: nat)
    requires i + n <= |s| && j + n <= |s| && s[i..i + n] == s[j..j + n]
    requires i <= w && OpenFrom(s, i + n, w)
    ensures OpenFrom(s, j + n, j + (w - i))
  {
    hide TagAt;
    TagMoves(s, i, j, n, w - i, "<args>");
    forall d: nat | j + (w - i) + 6 <= d && d + 7 <= j + n ensures !TagAt(s, d, "</args>") {
      TagMoves(s, i, j, n, d - j, "</args>");
    }
  }

  // Part of a `<tool>` closes no arguments.
  lemma OpenTrim(s: string, m: nat, p: nat, w: nat)
    requires OpenFrom(s, m, w) && TagAt(s, p, "<tool>") && p <= m < p + 6
    ensures OpenFrom(s, p, w)
  {
    hide FoldPrefix;
    if w == p { OneTag(s, w, "<args>", "<tool>"); }
    if p < w { TagsApart(s, p, "<tool>", w, "<args>"); }
    TagsApart(s, w, "<args>", p, "<tool>");
  }

  // ----- a cut behind the start of a block -------------------------------------------------------

  // Writing s[..b] and then scanning from b gives `out`, and a tag stands at p before b.
  ghost predicate Cut(s: string, out: string, b: nat, p: nat) {
    && p + 6 <= b <= |s| && TagAt(s, p, "<tool>")
    && b <= |out| && out[..b] == s[..b] && Scan(s, out, b, b)
  }

  lemma CutLater(s: string, out: string, b: nat, p: nat) returns (b2: nat)
    requires p < b <= |s| && TagAt(s, p, "<tool>")
    requires b <= |out| && out[..b] == s[..b] && Scan(s, out, b, b)
    ensures b <= b2 && Cut(s, out, b2, p)
  {
    hide FoldPrefix, Scan, BlockLen;
    TagAngles(s, p, "<tool>");
    b2 := if p + 6 <= b then b else p + 6;
    assert BlockFree(s, b, b2) by {
      forall k: nat | b <= k < b2 ensures !BlockAt(s, k) {
        if BlockAt(s, k) {
          var c := CloseOf(s, k);
          TagsApart(s, p, "<tool>", k, "<tool>");
        }
      }
    }
    ScanKeeps(s, out, b, b, b2);
    WrittenRoom(s, out, b2, b2);
    WrittenLater(s, out, b, b2);
  }

  lemma WrittenLater(s: string, out: string, b: nat, b2: nat)
    requires b <= b2 <= |s| && Scan(s, out, b2, b2) && out[..b] == s[..b] && out[b..b2] == s[b..b2]
    ensures out[..b2] == s[..b2]
  {
    assert out[..b2] == out[..b] + out[b..b2];
    assert s[..b2] == s[..b] + s[b..b2];
  }

  // What one run of kept characters wrote, found again in the text before the cut.
  lemma RunCopied(s: string, out: string, b: nat, p: nat, e: nat, n: nat, q: nat, len: nat)
    requires Cut(s, out, b, p) && e <= q <= |s| && n + (q - e) <= |out| && out[n..n + (q - e)] == s[e..q]
    requires len <= q - e && n + len <= b
    ensures s[e..e + len] == s[n..n + len]
  {
    hide TagAt, Scan;
    assert s[e..e + len] == s[e..q][..len];
    assert out[n..n + len] == out[n..n + (q - e)][..len];
    assert out[n..n + len] == out[..b][n..n + len];
    assert s[n..n + len] == s[..b][n..n + len];
  }

  // The tag at p, if one run wrote its copy.
  lemma TagKept(s: string, out: string, b: nat, p: nat, e: nat, n: nat, q: nat)
    requires Cut(s, out, b, p) && e <= q <= |s| && n + (q - e) <= |out| && out[n..n + (q - e)] == s[e..q]
    requires n <= p && p + 6 <= n + (q - e)
    ensures TagAt(s, e + (p - n), "<tool>")
  {
    hide TagAt, Scan;
    RunCopied(s, out, b, p, e, n, q, p + 6 - n);
    TagMoves(s, n, e, p + 6 - n, p - n, "<tool>");
  }

  // Open arguments, if one run wrote them up to the copy of the tag at p.
  lemma OpenCopied(s: string, out: string, b: nat, p: nat, e: nat, n: nat, q: nat, w: nat)
    requires Cut(s, out, b, p) && e <= q <= |s| && n + (q - e) <= |out| && out[n..n + (q - e)] == s[e..q]
    requires n <= p <= n + (q - e) < p + 6
    requires e <= w && OpenFrom(s, q, w)
    ensures Open(s, p)
  {
    hide TagAt, Scan, OpenFrom;
    RunCopied(s, out, b, p, e, n, q, q - e);
    OpenMoves(s, e, n, q - e, w);
    OpenTrim(s, n + (q - e), p, n + (w - e));
  }

  // A tag before a block opens one itself, by the close of that block at the latest.
  lemma TagBeforeBlock(s: string, t: nat, q: nat)
    requires TagAt(s, t, "<tool>") && BlockAt(s, q) && t < q
    ensures BlockAt(s, t)
  {
    hide FoldPrefix, CloseAt, BlockAt, BlockEnd;
    var c := CloseOf(s, q);
    TagsApart(s, t, "<tool>", q, "<tool>");
    TagThenClose(s, t, c);
  }

  // The scan has left the block at k behind the cut, and the scan from the cut is in the block at o.
  lemma {:induction false} BehindCut(s: string, out: string, b: nat, p: nat, k: nat, n: nat, o: nat, m: nat)
    requires Cut(s, out, b, p) && BlockAt(s, k) && BlockAt(s, o) && k < o < BlockEnd(s, k) < BlockEnd(s, o)
    requires Scan(s, out, BlockEnd(s, k), n) && n <= p && Scan(s, out, o, m) && b <= m
    ensures Open(s, p)
    decreases |s| - k
  {
    hide TagAt, Scan, BlockAt, BlockEnd, BlockFree, CloseAt, CloseEnd, OpenFrom, Open;
    var e, e2 := BlockEnd(s, k), BlockEnd(s, o);
    var q := NextBlock(s, e);
    ScanSkips(s, out, o, m);
    ScanKeeps(s, out, e, n, q);
    var n2 := n + (q - e);
    WrittenRoom(s, out, q, n2);
    var c := InnerClose(s, k, o);
    if e2 <= q {
      FreePart(s, e, e2, q);
      ScanKeeps(s, out, e, n, e2);
      ScansMeet(s, out, e2, m, n + (e2 - e));
      TagKept(s, out, b, p, e, n, q);
      var t := e + (p - n);
      NotFree(s, e, t, q);
      CloseOrOpen(s, c, t);
      var w := OpenInside(s, c, t);
      assert out[n..n + (t - e)] == out[n..n + (q - e)][..t - e] == s[e..q][..t - e] == s[e..t];
      OpenCopied(s, out, b, p, e, n, t, w);
    } else if n2 <= p {
      BlockEndsMonotone(s, o, q);
      ScanSkips(s, out, q, n2);
      var o2, m2 := ScanTo(s, out, e2, m, BlockEnd(s, q));
      if o2 == BlockEnd(s, q) { ScansMeet(s, out, o2, n2, m2); }
      BehindCut(s, out, b, p, q, n2, o2, m2);
    } else if p + 6 <= n2 {
      TagKept(s, out, b, p, e, n, q);
      TagBeforeBlock(s, e + (p - n), q);
      NotFree(s, e, e + (p - n), q);
    } else {
      if q <= c {
        SameClose(s, o, q, c);
        ScanSkips(s, out, q, n2);
        ScansMeet(s, out, e2, n2, m);
      }
      BlockIsTag(s, q);
      var w := OpenInside(s, c, q);
      OpenCopied(s, out, b, p, e, n, q, w);
    }
  }

  lemma WrittenRoom(s: string, out: string, i: nat, n: nat)
    requires Scan(s, out, i, n)
    ensures n <= |out|
  {
  }

  lemma NotFree(s: string, i: nat, t: nat, j: nat)
    requires BlockFree(s, i, j) && i <= t < j
    ensures !BlockAt(s, t)
  {
  }

  lemma BlockIsTag(s: string, k: nat)
    requires BlockAt(s, k)
    ensures TagAt(s, k, "<tool>")
  {
  }

  // A kept tag is after every close.
  lemma CloseOrOpen(s: string, c: nat, t: nat)
    requires CloseAt(s, c) && TagAt(s, t, "<tool>") && !BlockAt(s, t)
    ensures c < t
  {
    hide FoldPrefix, BlockAt, ArgsBlock;
    if c == t { OneTag(s, t, "</tool>", "<tool>"); }
    if t < c {
      TagsApart(s, t, "<tool>", c, "</tool>");
      TagThenClose(s, t, c);
    }
  }

  // Two blocks that have one close before them end together.
  lemma SameClose(s: string, o: nat, q: nat, c: nat)
    requires BlockAt(s, o) && BlockAt(s, q) && o <= q <= c && CloseAt(s, c) && BlockEnd(s, o) == CloseEnd(s, c)
    requires forall j: nat | o + 6 <= j < c :: !CloseAt(s, j)
    ensures BlockEnd(s, q) == BlockEnd(s, o)
  {
    hide FoldPrefix, BlockAt, BlockEnd, CloseAt, CloseEnd;
    var c2 := CloseOf(s, q);
    CloseIsTag(s, c);
    if q == c { OneTag(s, q, "<tool>", "</tool>"); }
    TagsApart(s, q, "<tool>", c, "</tool>");
    assert c2 == c;
  }

  // The scan stands before the cut, at the block at k.
  lemma {:induction false} BeforeCut(s: string, out: string, b: nat, p: nat, k: nat, n: nat)
    requires Cut(s, out, b, p) && BlockAt(s, 0) && Scan(s, out, 0, 0)
    requires BlockAt(s, k) && k < b && Scan(s, out, k, n) && n <= p && n <= k
    ensures Open(s, p)
    decreases |s| - p, |s| - k
  {
    hide TagAt, BlockAt, BlockEnd, BlockFree, CloseAt, CloseEnd, OpenFrom, Open, Scan;
    var e := BlockEnd(s, k);
    ScanSkips(s, out, k, n);
    if b < e {
      var o, m := ScanTo(s, out, b, b, e);
      if o == e { ScansMeet(s, out, e, n, m); }
      BehindCut(s, out, b, p, k, n, o, m);
    } else {
      var q := NextBlock(s, e);
      if b <= q {
        FreePart(s, e, b, q);
        ScanKeeps(s, out, e, n, b);
        ScansMeet(s, out, b, n + (b - e), b);
      }
      ScanKeeps(s, out, e, n, q);
      var n2 := n + (q - e);
      WrittenRoom(s, out, q, n2);
      if n2 <= p {
        BeforeCut(s, out, b, p, q, n2);
      } else if p + 6 <= n2 {
        TagKept(s, out, b, p, e, n, q);
        TagBeforeBlock(s, e + (p - n), q);
        NotFree(s, e, e + (p - n), q);
      } else {
        BlockIsTag(s, q);
        var b2 := CutLater(s, out, b, q);
        BeforeCut(s, out, b2, q, 0, 0);
        var w := OpenWitness(s, q);
        OpenPastBlock(s, k, q, w);
        OpenCopied(s, out, b, p, e, n, q, w);
      }
    }
  }

  lemma OpenWitness(s: string, t: nat) returns (w: nat)
    requires Open(s, t)
    ensures OpenFrom(s, t, w)
  {
    w :| OpenFrom(s, t, w);
  }

  lemma CutBreaks(s: string, b: nat)
    requires BlockAt(s, 0) && 0 < b <= |s|
    ensures Strip(s) != s[..b] + Strip(s[b..])
  {
    hide FoldPrefix, CloseTool, BlockAt, Strip;
    var out := Strip(s);
    if out == s[..b] + Strip(s[b..]) {
      assert s[0..] == s && out[0..] == out && out[b..] == Strip(s[b..]) && out[..b] == s[..b];
      BlockIsTag(s, 0);
      var b2 := CutLater(s, out, b, 0);
      BeforeCut(s, out, b2, 0, 0, 0);
    }
  }

  lemma SameRest(head: string, a: string, b: string)
    ensures head + a == head + b <==> a == b
  {
    assert (head + a)[|head|..] == a;
    assert (head + b)[|head|..] == b;
  }

  lemma CutAfterFirst(s: string, i: nat, b: nat)
    requires i < b <= |s| && BlockFree(s, 0, i) && BlockAt(s, i)
    ensures Strip(s) != s[..b] + Strip(s[b..])
  {
    hide BlockAt, BlockFree, Strip;
    StripKeeps(s, 0, i);
    assert s[0..] == s && s[0..i] == s[..i];
    var rest, c := s[i..], b - i;
    BlockInTail(s, i);
    CutBreaks(rest, c);
    SameRest(s[..i], Strip(rest), rest[..c] + Strip(rest[c..]));
    assert s[b..] == rest[c..];
    assert s[..b] == s[..i] + rest[..c];
    assert (s[..i] + rest[..c]) + Strip(rest[c..]) == s[..i] + (rest[..c] + Strip(rest[c..]));
  }

  // Text can be cut off and left unstripped exactly when no block begins in it.
  lemma StripCutIff(s: string, b: nat)
    requires b <= |s|
    ensures Strip(s) == s[..b] + Strip(s[b..]) <==> forall i: nat | i < b :: !BlockAt(s, i)
  {
    hide BlockAt, Strip;
    assert s[0..] == s && s[0..b] == s[..b];
    var i := NextBlock(s, 0);
    if b <= i {
      StripKeeps(s, 0, b);
    } else {
      CutAfterFirst(s, i, b);
    }
  }

  lemma BlockInTail(s: string, i: nat)
    requires BlockAt(s, i)
    ensures i <= |s| && BlockAt(s[i..], 0)
  {
    assert s[i..][0..] == s[i..];
  }
}
