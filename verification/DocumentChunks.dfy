/** Overlapping chunks of an ingested document. */
module DocumentChunks {
  import opened Text

  const CHUNK_SIZE: nat := 512
  const CHUNK_OVERLAP: nat := 50
  const WIDTH: nat := 2048     // CHUNK_SIZE tokens of four characters
  const STRIDE: nat := 1848    // WIDTH less CHUNK_OVERLAP tokens

  // Where a stripped string begins and ends.
  function FirstInk(s: string): (i: nat)
    ensures i <= |s| && (i < |s| ==> !IsSpace(s[i])) && forall k | 0 <= k < i :: IsSpace(s[k])
  {
    if s == "" || !IsSpace(s[0]) then 0 else 1 + FirstInk(s[1..])
  }

  function AfterLastInk(s: string): (i: nat)
    ensures i <= |s| && (i > 0 ==> !IsSpace(s[i - 1])) && forall k | i <= k < |s| :: IsSpace(s[k])
  {
    if s == "" || !IsSpace(s[|s| - 1]) then |s| else AfterLastInk(s[..|s| - 1])
  }

  // What is left of a stripped string lies between the two.
  lemma TrimIs(s: string)
    ensures Trim(s) == if FirstInk(s) < AfterLastInk(s) then s[FirstInk(s)..AfterLastInk(s)] else ""
  {
    hide IsSpace;
    LStripIs(s);
    RStripIs(LStrip(s));
    AfterLastInkUnique(s, FirstInk(s));
  }

  lemma {:induction false} LStripIs(s: string)
    ensures LStrip(s) == s[FirstInk(s)..]
  {
    if s != "" && IsSpace(s[0]) {
      LStripIs(s[1..]);
    }
  }

  lemma {:induction false} RStripIs(s: string)
    ensures RStrip(s) == s[..AfterLastInk(s)]
  {
    if s != "" && IsSpace(s[|s| - 1]) {
      RStripIs(s[..|s| - 1]);
    }
  }

  lemma AfterLastInkUnique(s: string, i: nat)
    requires i == FirstInk(s)
    ensures AfterLastInk(s[i..]) == if i < AfterLastInk(s) then AfterLastInk(s) - i else 0
  {
    hide IsSpace;
    var tail := s[i..];
    var n := AfterLastInk(tail);
    forall k | 0 <= k < |tail| ensures tail[k] == s[i + k] {
    }
    if n > 0 {
      assert tail[n - 1] == s[i + n - 1];
    }
    if i < AfterLastInk(s) {
      assert tail[AfterLastInk(s) - 1 - i] == s[AfterLastInk(s) - 1];
    }
  }

  // The k-th raw window.
  function Window(text: string, k: nat): string
    requires k * STRIDE < |text|
  {
    text[k * STRIDE..if k * STRIDE + WIDTH < |text| then k * STRIDE + WIDTH else |text|]
  }

  // What is stored for the windows from the k-th on.
  function StoredFrom(text: string, k: nat): seq<string>
    decreases if k * STRIDE < |text| then |text| - k * STRIDE else 0
  {
    if k * STRIDE >= |text| then []
    else (if Trim(Window(text, k)) == "" then [] else [Trim(Window(text, k))]) + StoredFrom(text, k + 1)
  }

  method ChunkText(text: string) returns (chunks: seq<string>, ghost windows: nat)
    ensures chunks == StoredFrom(text, 0)
    ensures windows == (|text| + 1847) / 1848
  {
    hide Trim, StoredFrom;
    var charSize := CHUNK_SIZE * 4;
    var overlapChars := CHUNK_OVERLAP * 4;
    chunks, windows := [], 0;
    var start := 0;
    while start < |text|
      invariant start == windows * STRIDE && (windows == 0 || (windows - 1) * STRIDE < |text|)
      invariant chunks + StoredFrom(text, windows) == StoredFrom(text, 0)
      decreases |text| - start
    {
      var end := start + charSize;
      var chunk := text[start..if end < |text| then end else |text|];
      StoredSplits(text, windows);
      assert chunk == Window(text, windows);
      if Trim(chunk) != "" {
        chunks := chunks + [Trim(chunk)];
      }
      start := end - overlapChars;
      windows := windows + 1;
    }
    StoredEnds(text, windows);
  }

  lemma StoredEnds(text: string, k: nat)
    ensures k * STRIDE >= |text| ==> StoredFrom(text, k) == []
  {
  }

  lemma StoredSplits(text: string, k: nat)
    requires k * STRIDE < |text|
    ensures var stripped := Trim(Window(text, k));
            StoredFrom(text, k) == (if stripped == "" then [] else [stripped]) + StoredFrom(text, k + 1)
  {
  }

  lemma {:induction false} StoredHas(text: string, j: nat, k: nat)
    requires j <= k && k * STRIDE < |text| && Trim(Window(text, k)) != ""
    ensures Trim(Window(text, k)) in StoredFrom(text, j)
    decreases k - j
  {
    hide Trim;
    if j < k {
      StoredHas(text, j + 1, k);
    }
  }

  ghost predicate Contains(s: string, part: string) {
    exists i: nat :: MatchesAt(s, i, part)
  }

  // A part of a string that begins and ends in ink lies within the stripped string.
  lemma InkSurvivesStrip(s: string, i: nat, len: nat)
    requires len >= 1 && i + len <= |s| && !IsSpace(s[i]) && !IsSpace(s[i + len - 1])
    ensures Trim(s) != "" && Contains(Trim(s), s[i..i + len])
  {
    hide IsSpace, Trim;
    TrimIs(s);
    var first, last := FirstInk(s), AfterLastInk(s);
    assert first <= i && i + len <= last;
    SlicedPart(s, first, last, i, len);
  }

  lemma SlicedPart(s: string, first: nat, last: nat, i: nat, len: nat)
    requires first <= i && i + len <= last <= |s|
    ensures Contains(s[first..last], s[i..i + len])
  {
    SliceOfSlice(s, first, last, i - first, i - first + len);
    assert MatchesAt(s[first..last], i - first, s[i..i + len]);
  }

  ghost predicate InWindow(text: string, k: nat, p: nat, len: nat) {
    k * STRIDE < |text| && k * STRIDE <= p && p + len <= k * STRIDE + WIDTH
  }

  // The passage at p lies within one raw window exactly when it ends within WIDTH of the start of
  // the last window that begins at or before it. For passages of up to 201 characters this always
  // holds; for one of 202 characters it fails at p == 1847.
  lemma InSomeWindowIff(text: string, p: nat, len: nat)
    requires len >= 1 && p + len <= |text|
    ensures (exists k: nat :: InWindow(text, k, p, len)) <==> p % 1848 + len <= 2048
    ensures len <= 201 ==> exists k: nat :: InWindow(text, k, p, len)
  {
    var k := p / STRIDE;
    assert p == k * STRIDE + p % STRIDE;
    if p % STRIDE + len <= WIDTH {
      assert InWindow(text, k, p, len);
    }
    forall j: nat | InWindow(text, j, p, len) ensures p % STRIDE + len <= WIDTH {
      assert j <= k;
    }
  }

  // Every phrase of up to 201 characters that begins and ends with a non-space character lies
  // whole inside one of the stored chunks.
  lemma PhraseStored(text: string, p: nat, len: nat)
    requires 1 <= len <= 201 && p + len <= |text|
    requires !IsSpace(text[p]) && !IsSpace(text[p + len - 1])
    ensures exists chunk | chunk in StoredFrom(text, 0) :: Contains(chunk, text[p..p + len])
  {
    hide Trim, IsSpace, StoredFrom, Contains;
    InSomeWindowIff(text, p, len);
    var k: nat :| InWindow(text, k, p, len);
    PhraseInWindow(text, k, p, len);
    StoredHas(text, 0, k);
  }

  lemma PhraseInWindow(text: string, k: nat, p: nat, len: nat)
    requires len >= 1 && p + len <= |text| && InWindow(text, k, p, len)
    requires !IsSpace(text[p]) && !IsSpace(text[p + len - 1])
    ensures Trim(Window(text, k)) != "" && Contains(Trim(Window(text, k)), text[p..p + len])
  {
    hide Trim, IsSpace;
    var w := Window(text, k);
    var i := p - k * STRIDE;
    SliceOfSlice(text, k * STRIDE, k * STRIDE + |w|, i, i + len);
    InkSurvivesStrip(w, i, len);
  }

  // The part of the k-th window that the next one does not repeat.
  function Head(text: string, k: nat): string
    requires k * STRIDE < |text|
  {
    text[k * STRIDE..if (k + 1) * STRIDE < |text| then (k + 1) * STRIDE else |text|]
  }

  function Heads(text: string, n: nat): seq<string>
    requires n == 0 || (n - 1) * STRIDE < |text|
  {
    if n == 0 then [] else Heads(text, n - 1) + [Head(text, n - 1)]
  }

  // The heads of the windows are prefixes of them and join to the whole text.
  lemma {:induction false} HeadsJoin(text: string, n: nat)
    requires n == 0 || (n - 1) * STRIDE < |text|
    ensures Concat(Heads(text, n)) == text[..if n * STRIDE < |text| then n * STRIDE else |text|]
    ensures n > 0 ==> Head(text, n - 1) <= Window(text, n - 1)
  {
    hide Concat;
    if n == 0 {
      NoParts();
    } else {
      HeadsJoin(text, n - 1);
      ConcatSnoc(Heads(text, n - 1), Head(text, n - 1));
    }
  }

  lemma NoParts()
    ensures Concat([]) == ""
  {
  }

  lemma WindowsRestoreText(text: string)
    ensures var n := (|text| + STRIDE - 1) / STRIDE;
            (n == 0 || (n - 1) * STRIDE < |text|) && Concat(Heads(text, n)) == text
  {
    var n := (|text| + STRIDE - 1) / STRIDE;
    HeadsJoin(text, n);
    assert text[..|text|] == text;
  }

  // Every stored chunk is a non-blank part of the text without space at its ends.
  lemma {:induction false} StoredIsInk(text: string, k: nat, chunk: string)
    requires chunk in StoredFrom(text, k)
    ensures 1 <= |chunk| <= 2048 && !IsSpace(chunk[0]) && !IsSpace(chunk[|chunk| - 1])
    ensures Contains(text, chunk)
    decreases if k * STRIDE < |text| then |text| - k * STRIDE else 0
  {
    hide Trim, IsSpace;
    var w := Window(text, k);
    if Trim(w) != "" && chunk == Trim(w) {
      StrippedIsInk(w);
      PartOfPart(text, k, Trim(w));
    } else {
      StoredIsInk(text, k + 1, chunk);
    }
  }

  lemma StrippedIsInk(s: string)
    ensures var r := Trim(s);
            |r| <= |s| && Contains(s, r) && (r != "" ==> !IsSpace(r[0]) && !IsSpace(r[|r| - 1]))
  {
    hide IsSpace, Trim;
    TrimIs(s);
    if FirstInk(s) < AfterLastInk(s) {
      assert MatchesAt(s, FirstInk(s), Trim(s));
    } else {
      assert MatchesAt(s, 0, "");
    }
  }

  lemma PartOfPart(text: string, k: nat, part: string)
    requires k * STRIDE < |text| && Contains(Window(text, k), part)
    ensures Contains(text, part)
  {
    var w := Window(text, k);
    var i: nat :| MatchesAt(w, i, part);
    SliceOfSlice(text, k * STRIDE, k * STRIDE + |w|, i, i + |part|);
    assert MatchesAt(text, k * STRIDE + i, part);
  }
}
