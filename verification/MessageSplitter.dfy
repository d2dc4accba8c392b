/** splitText and Renderer.sendText in packages/messaging-gateway/src/renderer.ts. */
module MessageSplitter {
  import opened JsText
  import opened Sequences

  /** Where the loop cuts: the last paragraph break, else line break, else blank, else the limit. */
  function SplitPoint(text: Text, maxLen: nat): (at: nat)
    requires maxLen >= 1
    ensures 1 <= at <= maxLen
  {
    var paragraph := LastIndexOf(text, [NEWLINE, NEWLINE], maxLen);
    if paragraph > 0 then paragraph
    else
      var line := LastIndexOf(text, [NEWLINE], maxLen);
      if line > 0 then line
      else
        var blank := LastIndexOf(text, [BLANK], maxLen);
        if blank > 0 then blank else maxLen
  }

  function Chunks(text: Text, maxLen: nat): seq<Text>
    requires maxLen >= 1
    decreases |text|
  {
    if |text| > maxLen then
      var at := SplitPoint(text, maxLen);
      [TrimEnd(text[..at])] + Chunks(TrimStart(text[at..]), maxLen)
    else if Trim(text) != [] then [Trim(text)]
    else []
  }

  method SplitText(text: Text, maxLen: nat) returns (chunks: seq<Text>)
    requires maxLen >= 1
    ensures chunks == Chunks(text, maxLen)
  {
    chunks := [];
    var remaining := text;
    while |remaining| > maxLen
      invariant chunks + Chunks(remaining, maxLen) == Chunks(text, maxLen)
      decreases |remaining|
    {
      var splitAt := LastIndexOf(remaining, [NEWLINE, NEWLINE], maxLen);
      if splitAt <= 0 { splitAt := LastIndexOf(remaining, [NEWLINE], maxLen); }
      if splitAt <= 0 { splitAt := LastIndexOf(remaining, [BLANK], maxLen); }
      if splitAt <= 0 { splitAt := maxLen; }
      assert splitAt == SplitPoint(remaining, maxLen);
      Assoc(chunks, [TrimEnd(remaining[..splitAt])], Chunks(TrimStart(remaining[splitAt..]), maxLen));
      chunks := chunks + [TrimEnd(remaining[..splitAt])];
      remaining := TrimStart(remaining[splitAt..]);
    }
    if Trim(remaining) != [] {
      chunks := chunks + [Trim(remaining)];
    }
  }

  /** What sendText posts: the text itself when it fits, else its chunks in order. */
  method SendText(text: Text, maxLen: nat) returns (posted: seq<Text>)
    requires maxLen >= 1
    ensures posted == Posted(text, maxLen)
  {
    if |text| <= maxLen { return [text]; }
    var chunks := SplitText(text, maxLen);
    posted := [];
    for i := 0 to |chunks|
      invariant posted == chunks[..i]
    {
      posted := posted + [chunks[i]];
    }
  }

  function Posted(text: Text, maxLen: nat): seq<Text>
    requires maxLen >= 1
  {
    if |text| <= maxLen then [text] else Chunks(text, maxLen)
  }

  /** No posted message exceeds the platform's limit. */
  lemma {:induction false} ChunksFit(text: Text, maxLen: nat)
    requires maxLen >= 1
    ensures forall c | c in Chunks(text, maxLen) :: |c| <= maxLen
    ensures forall c | c in Posted(text, maxLen) :: |c| <= maxLen
    decreases |text|
  {
    if |text| > maxLen { ChunksFit(TrimStart(text[SplitPoint(text, maxLen)..]), maxLen); }
  }

  /** The text is the chunks in order, with the gaps around them. */
  function Weave(gaps: seq<Text>, chunks: seq<Text>): Text
    requires |gaps| == |chunks| + 1
  {
    if chunks == [] then gaps[0] else gaps[0] + chunks[0] + Weave(gaps[1..], chunks[1..])
  }

  /** Nothing but white space is lost, and nothing is reordered or repeated. */
  lemma {:induction false} ChunksPreserveText(text: Text, maxLen: nat) returns (gaps: seq<Text>)
    requires maxLen >= 1
    ensures |gaps| == |Chunks(text, maxLen)| + 1 && Blank(gaps)
    ensures Weave(gaps, Chunks(text, maxLen)) == text
    decreases |text|
  {
    if |text| > maxLen {
      var at := SplitPoint(text, maxLen);
      var tail := TrimStart(text[at..]);
      var rest := ChunksPreserveText(tail, maxLen);
      var gap := GapAt(text, at);
      gaps := AddCut(gap, TrimEnd(text[..at]), rest, Chunks(tail, maxLen));
    } else {
      var before, after := GapsAroundTrimmed(text);
      if Trim(text) != [] {
        gaps := [before, after];
        WeaveFirst(before, Trim(text), [after], []);
        assert gaps == [before] + [after];
      } else {
        gaps := [text];
      }
    }
  }

  lemma {:induction false} WeaveFirst(gap: Text, chunk: Text, gaps: seq<Text>, chunks: seq<Text>)
    requires |gaps| == |chunks| + 1
    ensures Weave([gap] + gaps, [chunk] + chunks) == gap + chunk + Weave(gaps, chunks)
  {
    assert ([gap] + gaps)[1..] == gaps && ([chunk] + chunks)[1..] == chunks;
  }

  /** The white space removed around a cut. */
  lemma {:induction false} GapAt(text: Text, at: nat) returns (gap: Text)
    requires at <= |text|
    ensures AllSpace(gap) && text == TrimEnd(text[..at]) + (gap + TrimStart(text[at..]))
  {
    var first, second := text[..at], text[at..];
    TrimEndFacts(first);
    TrimStartFacts(second);
    var a, b := first[|TrimEnd(first)|..], second[..|second| - |TrimStart(second)|];
    gap := a + b;
    assert text == first + second;
    GapBetween(TrimEnd(first), a, b, TrimStart(second));
  }

  lemma {:induction false} GapBetween(head: Text, a: Text, b: Text, tail: Text)
    requires AllSpace(a) && AllSpace(b)
    ensures AllSpace(a + b) && (head + a) + (b + tail) == head + ((a + b) + tail)
  {
    BlankConcat(a, b);
    Regroup(head, a, b, tail);
  }

  lemma {:induction false} Regroup(a: Text, b: Text, c: Text, d: Text)
    ensures (a + b) + (c + d) == a + ((b + c) + d) && a + (b + (c + d)) == a + ((b + c) + d)
    ensures ((a + b) + c) + d == a + ((b + c) + d)
  {
  }

  lemma {:induction false} GapsAroundTrimmed(text: Text) returns (before: Text, after: Text)
    ensures AllSpace(before) && AllSpace(after) && text == before + Trim(text) + after
    ensures Trim(text) == [] ==> AllSpace(text)
  {
    var tail := TrimStart(text);
    TrimStartFacts(text);
    TrimEndFacts(tail);
    before, after := text[..|text| - |tail|], tail[|Trim(text)|..];
    Assoc(before, Trim(text), after);
    if Trim(text) == [] { BlankConcat(before, tail); }
  }

  lemma {:induction false} BlankConcat(a: Text, b: Text)
    requires AllSpace(a) && AllSpace(b)
    ensures AllSpace(a + b)
  {
  }

  ghost predicate Blank(gaps: seq<Text>) { forall g | g in gaps :: AllSpace(g) }

  /** One more chunk in front, and the gap after it. */
  lemma {:induction false} AddCut(gap: Text, chunk: Text, rest: seq<Text>, chunks: seq<Text>) returns (gaps: seq<Text>)
    requires |rest| == |chunks| + 1 && AllSpace(gap) && Blank(rest)
    ensures |gaps| == |chunks| + 2 && Blank(gaps)
    ensures Weave(gaps, [chunk] + chunks) == chunk + (gap + Weave(rest, chunks))
  {
    var merged := [gap + rest[0]] + rest[1..];
    assert rest[0] in rest;
    JoinsGap(gap, rest, chunks);
    WeaveFirst([], chunk, merged, chunks);
    gaps := [[]] + merged;
    assert [] + chunk == chunk;
  }

  lemma {:induction false} JoinsGap(gap: Text, rest: seq<Text>, chunks: seq<Text>)
    requires |rest| == |chunks| + 1
    ensures Weave([gap + rest[0]] + rest[1..], chunks) == gap + Weave(rest, chunks)
  {
    var merged := [gap + rest[0]] + rest[1..];
    if chunks != [] {
      assert merged[1..] == rest[1..];
      Regroup(gap, rest[0], chunks[0], Weave(rest[1..], chunks[1..]));
    }
  }

  /** A text that starts with white space loses a whole first chunk to it exactly when the part
      before its first cut is blank; every other text gives non-empty chunks only. */
  lemma {:induction false} ChunksNonEmptyIff(text: Text, maxLen: nat)
    requires maxLen >= 1
    ensures (forall c | c in Chunks(text, maxLen) :: c != [])
            <==> !(|text| > maxLen && AllSpace(text[..SplitPoint(text, maxLen)]))
  {
    if |text| > maxLen {
      var at := SplitPoint(text, maxLen);
      var tail := TrimStart(text[at..]);
      TrimEndFacts(text[..at]);
      TrimStartFacts(text[at..]);
      ChunksNonEmpty(tail, maxLen);
      assert Chunks(text, maxLen)[0] == TrimEnd(text[..at]);
      assert Chunks(text, maxLen)[0] in Chunks(text, maxLen);
    }
  }

  /** Without leading white space, as every caller ensures, no chunk is empty. */
  lemma {:induction false} ChunksNonEmpty(text: Text, maxLen: nat)
    requires maxLen >= 1 && (text != [] ==> !IsSpace(text[0]))
    ensures forall c | c in Chunks(text, maxLen) :: c != []
    decreases |text|
  {
    if |text| > maxLen {
      var at := SplitPoint(text, maxLen);
      TrimEndFacts(text[..at]);
      TrimStartFacts(text[at..]);
      assert !IsSpace(text[..at][0]);
      ChunksNonEmpty(TrimStart(text[at..]), maxLen);
    }
  }

  lemma {:induction false} OccursChar(s: Text, c: Unit, k: int)
    ensures Occurs([c], s, k) <==> 0 <= k < |s| && s[k] == c
  {
    if 0 <= k < |s| { assert s[k..k + 1] == [s[k]]; }
  }

  /** A paragraph break, line break or blank from 1 to the limit. */
  predicate HasBreak(text: Text, needle: Text, maxLen: nat) { exists j :: 0 < j <= maxLen && Occurs(needle, text, j) }

  /** at is the last place from 1 to the limit where the needle is. */
  predicate IsLast(text: Text, needle: Text, maxLen: nat, at: nat) {
    0 < at <= maxLen && Occurs(needle, text, at) && forall j | at < j <= maxLen :: !Occurs(needle, text, j)
  }

  /** A cut falls on the last paragraph break within the limit; without one, on the last line break;
      without one of those, on the last blank; and only without any of them at the limit, inside a word. */
  lemma {:induction false} CutsAtBreaks(text: Text, maxLen: nat)
    requires |text| > maxLen >= 1
    ensures var at := SplitPoint(text, maxLen);
            if HasBreak(text, [NEWLINE, NEWLINE], maxLen) then IsLast(text, [NEWLINE, NEWLINE], maxLen, at)
            else if HasBreak(text, [NEWLINE], maxLen) then IsLast(text, [NEWLINE], maxLen, at) && text[at] == NEWLINE
            else if HasBreak(text, [BLANK], maxLen) then IsLast(text, [BLANK], maxLen, at) && text[at] == BLANK
            else at == maxLen && forall j | 0 < j <= maxLen :: text[j] != BLANK && text[j] != NEWLINE
  {
    forall j | 0 <= j <= maxLen
      ensures (Occurs([NEWLINE], text, j) <==> text[j] == NEWLINE) && (Occurs([BLANK], text, j) <==> text[j] == BLANK)
    {
      OccursChar(text, NEWLINE, j);
      OccursChar(text, BLANK, j);
    }
    LastBreak(text, [NEWLINE, NEWLINE], maxLen);
    LastBreak(text, [NEWLINE], maxLen);
    LastBreak(text, [BLANK], maxLen);
  }

  lemma {:induction false} LastBreak(text: Text, needle: Text, maxLen: nat)
    ensures var at := LastIndexOf(text, needle, maxLen);
            if HasBreak(text, needle, maxLen) then at > 0 && IsLast(text, needle, maxLen, at) else at <= 0
  {
  }
}
