// The message splitter of internal/channels/text.go. Texts are rune sequences, so a byte
// offset of the code that falls on a rune boundary is a rune index here.
module Splitter {
  import opened Text

  // ---- what a boundary is ------------------------------------------------------

  datatype Kind = Paragraph | Line | Sentence | Space

  predicate IsBreak(c: char) {
    c == '\r' || c == '\n'
  }

  predicate IsClosing(c: char) {
    c == '"' || c == '\'' || c == ')' || c == ']' || c == '}'
  }

  // Position p of text lies right after two line feeds that only line breaks separate,
  // in a run of breaks that does not open the text.
  predicate EndsParagraph(text: string, p: nat)
    requires 0 < p <= |text|
  {
    && text[p - 1] == '\n'
    && (exists j :: 0 <= j < p - 1 && text[j] == '\n' && AllBreaks(text, j, p))
    && !AllBreaks(text, 0, p)
  }

  predicate AllBreaks(text: string, from: int, to: int)
    requires 0 <= from && to <= |text|
  {
    forall i :: from <= i < to ==> IsBreak(text[i])
  }

  // A dot, then closing punctuation up to p, then white space.
  predicate EndsSentence(text: string, p: nat)
    requires 0 < p <= |text|
  {
    exists d :: 0 <= d < p && DotReaches(text, d, p)
  }

  predicate DotReaches(text: string, d: nat, p: nat)
    requires d < p <= |text|
  {
    text[d] == '.' && AllClosing(text, d + 1, p) && p < |text| && IsSpace(text[p])
  }

  predicate AllClosing(text: string, from: int, to: int)
    requires 0 <= from && to <= |text|
  {
    forall i :: from <= i < to ==> IsClosing(text[i])
  }

  predicate Boundary(k: Kind, text: string, p: nat)
    requires 0 < p <= |text|
  {
    match k
    case Paragraph => EndsParagraph(text, p)
    case Line => p > 1 && text[p - 1] == '\n'
    case Sentence => EndsSentence(text, p)
    case Space => p > 1 && IsSpace(text[p - 1])
  }

  // The last boundary at or before p, or 0.
  function LastBoundary(k: Kind, text: string, p: nat): (r: nat)
    requires p <= |text|
    ensures r <= p
    ensures r > 0 ==> Boundary(k, text, r)
    ensures forall q :: r < q <= p ==> !Boundary(k, text, q)
  {
    if p == 0 || Boundary(k, text, p) then p else LastBoundary(k, text, p - 1)
  }

  // ---- headings ------------------------------------------------------------------

  // Section 4.2 of CommonMark 0.31: one to six '#', then a blank or the end of the line.
  predicate AtxHeading(line: string) {
    exists n :: 1 <= n <= 6 && n <= |line| && Hashes(line, n) && EndsMarker(line, n)
  }

  predicate Hashes(line: string, n: int)
    requires n <= |line|
  {
    forall i :: 0 <= i < n ==> line[i] == '#'
  }

  predicate EndsMarker(line: string, n: nat)
    requires n <= |line|
  {
    n == |line| || line[n] == ' ' || line[n] == '\t'
  }

  predicate LoneHeading(text: string) {
    '\n' !in text && AtxHeading(text)
  }

  // strings.TrimRight(s, " \t\r\n")
  function TrimRightBreaks(s: string): (r: string)
    ensures |r| <= |s| && r == s[..|r|]
    ensures r != "" ==> r[|r| - 1] !in {' ', '\t', '\r', '\n'}
    ensures forall i :: |r| <= i < |s| ==> s[i] in {' ', '\t', '\r', '\n'}
  {
    if s != "" && s[|s| - 1] in " \t\r\n" then TrimRightBreaks(s[..|s| - 1]) else s
  }

  // One past the last line feed, or 0.
  function LastLineStart(s: string): (r: nat)
    ensures r <= |s| && (r > 0 ==> s[r - 1] == '\n')
    ensures forall i :: r <= i < |s| ==> s[i] != '\n'
  {
    if s == "" || s[|s| - 1] == '\n' then |s| else LastLineStart(s[..|s| - 1])
  }

  function AvoidTrailingHeading(text: string, splitAt: nat): (r: nat)
    requires splitAt <= |text|
    ensures r <= splitAt && (splitAt > 0 ==> r > 0)
  {
    if splitAt == 0 || splitAt >= |text| then splitAt
    else
      var candidate := TrimRightBreaks(text[..splitAt]);
      var lineStart := LastLineStart(candidate);
      if lineStart == 0 then splitAt
      else if AtxHeading(TrimSpace(candidate[lineStart..])) then lineStart
      else splitAt
  }

  // The text before a cut, without the blanks and breaks at its end, has its last line from
  // p to e.
  predicate LastLine(text: string, cut: nat, p: nat, e: nat) {
    && p <= e <= cut <= |text|
    && (forall i :: e <= i < cut ==> text[i] in {' ', '\t', '\r', '\n'})
    && (e > 0 ==> text[e - 1] !in {' ', '\t', '\r', '\n'})
    && (p > 0 ==> text[p - 1] == '\n') && (forall i :: p <= i < e ==> text[i] != '\n')
  }

  // A cut moves back over a last line that is a heading, unless that is the first line.
  lemma CutMovesBefore(text: string, cut: nat, p: nat, e: nat)
    requires 0 < cut < |text| && LastLine(text, cut, p, e)
    ensures AvoidTrailingHeading(text, cut) == if p > 0 && AtxHeading(TrimSpace(text[p..e])) then p else cut
  {
    var candidate := TrimRightBreaks(text[..cut]);
    assert |candidate| == e;
    assert candidate == text[..e] && LastLineStart(candidate) == p;
    assert candidate[p..] == text[p..e];
    hide TrimSpace, AtxHeading;
  }

  // A cut at either end stays.
  lemma CutAtEndStays(text: string)
    ensures AvoidTrailingHeading(text, 0) == 0 && AvoidTrailingHeading(text, |text|) == |text|
    ensures HeadingSafe(text, 0) == 0 && HeadingSafe(text, |text|) == |text|
  {
    hide TrimSpace, AtxHeading, LastLineStart, TrimRightBreaks;
  }

  lemma ClosingIs(c: char)
    ensures IsClosing(c) <==> c in "\"')]}"
  {
  }

  function HeadingSafe(text: string, splitAt: nat): (r: nat)
    requires splitAt <= |text|
    ensures r <= splitAt
    ensures 0 < r < |text| ==> !LoneHeading(TrimSpace(text[..r]))
  {
    var s := AvoidTrailingHeading(text, splitAt);
    if 0 < s < |text| && LoneHeading(TrimSpace(text[..s])) then 0 else s
  }

  // A cut is given up exactly when what stands before it is a single line and a heading.
  lemma HeadingSafeIs(text: string, splitAt: nat)
    requires splitAt <= |text|
    ensures var s := AvoidTrailingHeading(text, splitAt);
            HeadingSafe(text, splitAt)
            == if 0 < s < |text| && (forall i :: 0 <= i < |TrimSpace(text[..s])| ==> TrimSpace(text[..s])[i] != '\n')
                  && AtxHeading(TrimSpace(text[..s]))
               then 0 else s
  {
    hide TrimSpace, AtxHeading, AvoidTrailingHeading;
  }

  // Where the text is cut when only the first `cut` runes fit: the strongest kind of
  // boundary whose last occurrence is heading-safe, or 0.
  function BestSplit(text: string, cut: nat): (r: nat)
    requires cut <= |text|
    ensures r <= cut
    ensures 0 < r < |text| ==> !LoneHeading(TrimSpace(text[..r]))
  {
    var paragraph := HeadingSafe(text, LastBoundary(Paragraph, text, cut));
    var line := HeadingSafe(text, LastBoundary(Line, text, cut));
    var sentence := HeadingSafe(text, LastBoundary(Sentence, text, cut));
    if paragraph > 0 then paragraph
    else if line > 0 then line
    else if sentence > 0 then sentence
    else HeadingSafe(text, LastBoundary(Space, text, cut))
  }

  // ---- what a good split is --------------------------------------------------------

  // Chunks joined by gaps of white space give the text.
  ghost predicate JoinsTo(chunks: seq<string>, text: string)
    decreases |chunks|
  {
    if |chunks| == 0 then false
    else if |chunks| == 1 then text == chunks[0]
    else exists gap, rest :: Gap(chunks[0], gap, rest, text) && JoinsTo(chunks[1..], rest)
  }

  ghost predicate Gap(chunk: string, gap: string, rest: string, text: string) {
    text == chunk + gap + rest && AllSpace(gap)
  }

  // Every chunk but the last is either a hard cut of exactly `limit` runes, taken because
  // no kind of boundary offers a heading-safe place, or a natural cut, which is never a
  // heading on its own.
  ghost predicate CutsWell(text: string, limit: nat, chunks: seq<string>)
    decreases |chunks|
  {
    if |text| <= limit then chunks == [text]
    else
      && chunks != []
      && var s := BestSplit(text, limit);
      && chunks[0] == TrimSpace(text[..if s > 0 then s else limit])
      && (s > 0 ==> !LoneHeading(chunks[0]))
      && (s == 0 ==> forall k :: HeadingSafe(text, LastBoundary(k, text, limit)) == 0)
      && CutsWell(TrimSpace(text[if s > 0 then s else limit..]), limit, chunks[1..])
  }

  predicate GoodChunk(chunk: string, limit: nat) {
    chunk != "" && Trimmed(chunk) && |chunk| <= limit
  }

  // The chunks of a trimmed text: cut, trim both sides, go on with the rest.
  function Chunks(text: string, limit: nat): (chunks: seq<string>)
    requires Trimmed(text) && 0 < limit
    decreases |text|
  {
    if |text| <= limit then [text]
    else
      var s := CutPoint(text, limit);
      CutIsProgress(text, s);
      [TrimSpace(text[..s])] + Chunks(TrimSpace(text[s..]), limit)
  }

  function CutPoint(text: string, limit: nat): (s: nat)
    requires 0 < limit <= |text|
    ensures 0 < s <= limit
  {
    if BestSplit(text, limit) > 0 then BestSplit(text, limit) else limit
  }

  function Split(input: string, limit: int): seq<string> {
    var text := TrimSpace(input);
    if text == "" then [""]
    else if limit <= 0 then [text]
    else Chunks(text, limit)
  }

  // ---- the code ----------------------------------------------------------------------

  method SplitText(input: string, limit: int) returns (chunks: seq<string>)
    ensures chunks == Split(input, limit)
  {
    var text := TrimSpace(input);
    if text == "" {
      return [""];
    }
    if limit <= 0 || |text| <= limit {
      return [text];
    }
    chunks := [];
    var remaining := text;
    while remaining != ""
      invariant Trimmed(remaining) && remaining != ""
      invariant chunks + Chunks(remaining, limit) == Chunks(text, limit)
      decreases |remaining|
    {
      if |remaining| <= limit {
        return chunks + [remaining];
      }
      var cut := LongestPrefixByRunes(remaining, limit);
      var splitAt := BestTextSplit(remaining, cut);
      if splitAt <= 0 {
        splitAt := cut;
      }
      var chunk := TrimSpace(remaining[..splitAt]);
      CutIsProgress(remaining, splitAt);
      if chunk == "" {
        assert false;  // the fallback for an empty chunk is never needed
      }
      ChunksStep(chunks, remaining, limit);
      chunks := chunks + [chunk];
      remaining := TrimSpace(remaining[splitAt..]);
    }
  }

  method LongestPrefixByRunes(text: string, limit: int) returns (n: nat)
    ensures n == if limit <= 0 then 0 else if |text| <= limit then |text| else limit
  {
    if limit <= 0 {
      return 0;
    }
    var runes := 0;
    for idx := 0 to |text|
      invariant runes == idx <= limit
    {
      if runes == limit {
        return idx;
      }
      runes := runes + 1;
    }
    return |text|;
  }

  method BestTextSplit(text: string, cut: nat) returns (r: nat)
    requires cut <= |text|
    ensures r == BestSplit(text, cut)
  {
    var idx := LastMultiLineBoundary(text, cut);
    if idx > 0 {
      var safe := HeadingSafe(text, idx);
      if safe > 0 {
        return safe;
      }
    }
    idx := LastLineBoundary(text, cut);
    if idx > 0 {
      var safe := HeadingSafe(text, idx);
      if safe > 0 {
        return safe;
      }
    }
    idx := LastDotBoundary(text, cut);
    if idx > 0 {
      var safe := HeadingSafe(text, idx);
      if safe > 0 {
        return safe;
      }
    }
    idx := LastWhitespaceBoundary(text, cut);
    if idx > 0 {
      var safe := HeadingSafe(text, idx);
      if safe > 0 {
        return safe;
      }
    }
    return 0;
  }

  method IsMarkdownHeading(line: string) returns (r: bool)
    ensures r <==> AtxHeading(line)
  {
    var count := 0;
    while count < |line| && line[count] == '#'
      invariant 0 <= count <= |line| && Hashes(line, count)
    {
      count := count + 1;
    }
    r := count > 0 && count <= 6 && (count == |line| || line[count] == ' ' || line[count] == '\t');
    if r {
      assert EndsMarker(line, count);
    }
  }

  method LastMultiLineBoundary(text: string, cut: nat) returns (best: nat)
    requires cut <= |text|
    ensures best == LastBoundary(Paragraph, text, cut)
  {
    best := 0;
    var runStart := -1;
    var lineBreaks := 0;
    ghost var firstFeed := 0;
    for i := 0 to cut
      invariant best <= i && (best > 0 ==> EndsParagraph(text, best))
      invariant forall q :: best < q <= i ==> !EndsParagraph(text, q)
      invariant runStart >= 0 ==> runStart < i && AllBreaks(text, runStart, i)
      invariant runStart > 0 ==> !IsBreak(text[runStart - 1])
      invariant runStart < 0 ==> lineBreaks == 0 && (i > 0 ==> !IsBreak(text[i - 1]))
      invariant lineBreaks == 0 ==> forall j :: 0 <= j < i && j >= runStart >= 0 ==> text[j] != '\n'
      invariant lineBreaks > 0 ==> runStart >= 0 && runStart <= firstFeed < i && text[firstFeed] == '\n'
      invariant lineBreaks == 1 ==> forall j :: runStart <= j < i && j != firstFeed ==> text[j] != '\n'
    {
      match text[i]
      case '\r' =>
        if runStart < 0 {
          runStart := i;
        }
      case '\n' =>
        if runStart < 0 {
          runStart := i;
        }
        if lineBreaks == 0 {
          firstFeed := i;
        }
        lineBreaks := lineBreaks + 1;
        if lineBreaks >= 2 && runStart > 0 {
          assert AllBreaks(text, firstFeed, i + 1);
          best := i + 1;
        }
      case _ =>
        runStart := -1;
        lineBreaks := 0;
    }
    LastIs(Paragraph, text, cut, best);
  }

  method LastLineBoundary(text: string, cut: nat) returns (r: nat)
    requires cut <= |text|
    ensures r == LastBoundary(Line, text, cut)
  {
    var idx := cut - 1;
    while idx >= 0 && text[idx] != '\n'
      invariant -1 <= idx < cut
      invariant forall j :: idx < j < cut ==> text[j] != '\n'
    {
      idx := idx - 1;
    }
    r := if idx > 0 then idx + 1 else 0;
    LastIs(Line, text, cut, r);
  }

  method LastDotBoundary(text: string, cut: nat) returns (best: nat)
    requires cut <= |text|
    ensures best == LastBoundary(Sentence, text, cut)
  {
    best := 0;
    ghost var dot := 0;
    for idx := 0 to cut
      invariant best <= cut && (best > 0 ==> dot < idx && dot < best && DotReaches(text, dot, best))
      invariant forall d, q :: 0 <= d < idx && d < q && best < q <= cut ==> !DotReaches(text, d, q)
    {
      if text[idx] != '.' {
        continue;
      }
      var end, ok := DotBoundaryEnd(text, idx, cut);
      if ok {
        // no closing run of an earlier dot passes this dot
        assert best <= end;
        best, dot := end, idx;
      }
    }
    LastIs(Sentence, text, cut, best);
  }

  // Closing punctuation right after the dot; the boundary counts when white space follows.
  method DotBoundaryEnd(text: string, dot: nat, cut: nat) returns (end: nat, ok: bool)
    requires dot < cut <= |text| && text[dot] == '.'
    ensures ok ==> dot < end <= cut && DotReaches(text, dot, end)
    ensures forall q :: dot < q <= cut && DotReaches(text, dot, q) ==> ok && q == end
  {
    end := dot + 1;
    while end < |text| && end < cut && IsClosing(text[end])
      invariant dot < end <= cut && AllClosing(text, dot + 1, end)
    {
      end := end + 1;
    }
    if end == |text| {
      return 0, false;
    }
    ok := IsSpace(text[end]);
  }

  method LastWhitespaceBoundary(text: string, cut: nat) returns (best: nat)
    requires cut <= |text|
    ensures best == LastBoundary(Space, text, cut)
  {
    best := 0;
    for idx := 0 to cut
      invariant best <= idx && (best > 0 ==> Boundary(Space, text, best))
      invariant forall q :: best < q <= idx ==> !Boundary(Space, text, q)
    {
      if idx > 0 && IsSpace(text[idx]) {
        best := idx + 1;
      }
    }
  }

  // ---- proofs ------------------------------------------------------------------------

  lemma LastIs(k: Kind, text: string, p: nat, r: nat)
    requires r <= p <= |text| && (r > 0 ==> Boundary(k, text, r))
    requires forall q :: r < q <= p ==> !Boundary(k, text, q)
    ensures LastBoundary(k, text, p) == r
  {
  }

  // Cutting a trimmed text strictly inside gives a non-empty chunk and a non-empty rest.
  lemma CutIsProgress(text: string, s: nat)
    requires Trimmed(text) && 0 < s < |text|
    ensures 0 < |TrimSpace(text[..s])| <= s
    ensures 0 < |TrimSpace(text[s..])| < |text|
  {
    BlankIsAllSpace(text[..s]);
    BlankIsAllSpace(text[s..]);
    assert text[..s][0] == text[0];
    assert text[s..][|text| - s - 1] == text[|text| - 1];
  }

  lemma ChunksStep(done: seq<string>, text: string, limit: nat)
    requires Trimmed(text) && 0 < limit < |text|
    ensures var s := CutPoint(text, limit);
            done + Chunks(text, limit) == (done + [TrimSpace(text[..s])]) + Chunks(TrimSpace(text[s..]), limit)
  {
    var s := CutPoint(text, limit);
    var rest := Chunks(TrimSpace(text[s..]), limit);
    assert done + ([TrimSpace(text[..s])] + rest) == (done + [TrimSpace(text[..s])]) + rest;
  }

  lemma {:induction false} ChunksAreGood(text: string, limit: nat)
    requires Trimmed(text) && text != "" && 0 < limit
    ensures forall i :: 0 <= i < |Chunks(text, limit)| ==> GoodChunk(Chunks(text, limit)[i], limit)
    decreases |text|
  {
    if |text| > limit {
      var s := CutPoint(text, limit);
      CutIsProgress(text, s);
      ChunksAreGood(TrimSpace(text[s..]), limit);
    }
  }

  lemma {:induction false} ChunksJoin(text: string, limit: nat)
    requires Trimmed(text) && text != "" && 0 < limit
    ensures JoinsTo(Chunks(text, limit), text)
    decreases |text|
  {
    if |text| > limit {
      var s := CutPoint(text, limit);
      CutIsProgress(text, s);
      var rest := TrimSpace(text[s..]);
      ChunksJoin(rest, limit);
      var gap := CutGap(text, s);
      assert Chunks(text, limit)[1..] == Chunks(rest, limit);
      assert Gap(Chunks(text, limit)[0], gap, rest, text);
    }
  }

  lemma CutGap(text: string, s: nat) returns (gap: string)
    requires Trimmed(text) && 0 < s < |text|
    ensures Gap(TrimSpace(text[..s]), gap, TrimSpace(text[s..]), text)
  {
    var a, b := text[..s], text[s..];
    assert a[0] == text[0] && b[|b| - 1] == text[|text| - 1];
    gap := GapBetween(a, b);
    assert text == a + b;
  }

  lemma GapBetween(a: string, b: string) returns (gap: string)
    requires a != "" && !IsSpace(a[0]) && b != "" && !IsSpace(b[|b| - 1])
    ensures Gap(TrimSpace(a), gap, TrimSpace(b), a + b)
  {
    var tail := EndGap(a);
    var lead := StartGap(b);
    gap := tail + lead;
    GlueParts(TrimSpace(a), tail, lead, TrimSpace(b));
  }

  lemma EndGap(a: string) returns (tail: string)
    requires a != "" && !IsSpace(a[0])
    ensures a == TrimSpace(a) + tail && AllSpace(tail)
  {
    assert TrimLeft(a) == a;
    TrimRightParts(a);
    tail := a[|TrimSpace(a)|..];
  }

  lemma StartGap(b: string) returns (lead: string)
    requires b != "" && !IsSpace(b[|b| - 1])
    ensures b == lead + TrimSpace(b) && AllSpace(lead)
  {
    var rest := TrimLeft(b);
    lead := b[..|b| - |rest|];
    TrimLeftParts(b);
    assert b == lead + rest;
    assert rest != "" by {
      assert b[|b| - 1] in b[|b| - 1..];
    }
    assert rest[|rest| - 1] == b[|b| - 1];
  }

  lemma GlueParts(a: string, tail: string, lead: string, b: string)
    requires AllSpace(tail) && AllSpace(lead)
    ensures (a + tail) + (lead + b) == a + (tail + lead) + b
    ensures AllSpace(tail + lead)
  {
  }

  lemma {:induction false} ChunksCutWell(text: string, limit: nat)
    requires Trimmed(text) && 0 < limit
    ensures CutsWell(text, limit, Chunks(text, limit))
    decreases |text|
  {
    if |text| > limit {
      var s := CutPoint(text, limit);
      CutIsProgress(text, s);
      ChunksCutWell(TrimSpace(text[s..]), limit);
      assert Chunks(text, limit)[1..] == Chunks(TrimSpace(text[s..]), limit);
      if BestSplit(text, limit) == 0 {
        NoSafeBoundary(text, limit);
      }
    }
  }

  lemma NoSafeBoundary(text: string, limit: nat)
    requires limit <= |text| && BestSplit(text, limit) == 0
    ensures forall k :: HeadingSafe(text, LastBoundary(k, text, limit)) == 0
  {
    forall k ensures HeadingSafe(text, LastBoundary(k, text, limit)) == 0 {
      match k {
        case Paragraph =>
        case Line =>
        case Sentence =>
        case Space =>
      }
    }
  }

  // The whole contract of splitting: with a positive limit, every chunk is trimmed,
  // non-empty and at most `limit` runes, only white space is lost between chunks, and
  // every cut is natural where it can be.
  lemma SplitIsLosslessAndBounded(input: string, limit: int)
    ensures Blank(input) ==> Split(input, limit) == [""]
    ensures !Blank(input) && limit <= 0 ==> Split(input, limit) == [TrimSpace(input)]
    ensures !Blank(input) && limit > 0 ==>
              && (forall i :: 0 <= i < |Split(input, limit)| ==> GoodChunk(Split(input, limit)[i], limit))
              && JoinsTo(Split(input, limit), TrimSpace(input))
              && CutsWell(TrimSpace(input), limit, Split(input, limit))
  {
    var text := TrimSpace(input);
    if text != "" && limit > 0 {
      ChunksAreGood(text, limit);
      ChunksJoin(text, limit);
      ChunksCutWell(text, limit);
    }
  }
}
