/** What the chunker's pattern functions find, in terms of the characters of the text: tokens, stripped text,
    paragraphs and sections. */
module ChunkerText {
  import opened Domain
  import opened Chunker

  // ---------------------------------------------------------------- tokens

  /** Characters `k` and `k + 1` belong to one token: two word characters, or a word character and a connector
      with a word character on its other side. */
  ghost predicate Joins(s: string, k: nat) {
    && k + 1 < |s|
    && (|| (IsWord(s[k]) && IsWord(s[k + 1]))
        || (IsWord(s[k]) && IsConnector(s[k + 1]) && k + 2 < |s| && IsWord(s[k + 2]))
        || (k > 0 && IsWord(s[k - 1]) && IsConnector(s[k]) && IsWord(s[k + 1])))
  }

  /** Characters `i` to `j` are joined to each other and to nothing else. */
  ghost predicate TokenAt(s: string, i: nat, j: nat) {
    && i < j <= |s| && !IsSpace(s[i])
    && (forall k: nat | i <= k < j - 1 :: Joins(s, k))
    && (i > 0 ==> !Joins(s, i - 1)) && (j < |s| ==> !Joins(s, j - 1))
  }

  lemma KindsDiffer(c: char)
    ensures !(IsWord(c) && IsConnector(c)) && !(IsSpace(c) && IsWord(c)) && !(IsSpace(c) && IsConnector(c))
  {
  }

  lemma {:induction false} RunExact(s: string)
    ensures forall k | 0 <= k < RunLength(s) :: IsWord(s[k])
    ensures RunLength(s) < |s| ==> !IsWord(s[RunLength(s)])
  {
    if s != "" && IsWord(s[0]) {
      RunExact(s[1..]);
      forall k | 0 <= k < RunLength(s) ensures IsWord(s[k]) {
        assert k > 0 ==> s[k] == s[1..][k - 1];
      }
    }
  }

  lemma RunJoined(s: string, q: nat, run: nat)
    requires q + run <= |s| && forall k | q <= k < q + run :: IsWord(s[k])
    ensures forall k: nat | q <= k < q + run - 1 :: Joins(s, k)
  {
    hide IsWord, IsConnector;
  }

  lemma ConnectorJoins(s: string, e: nat)
    requires 0 < e && e + 1 < |s| && IsWord(s[e - 1]) && IsConnector(s[e]) && IsWord(s[e + 1])
    ensures Joins(s, e - 1) && Joins(s, e)
  {
    hide IsWord, IsConnector;
  }

  lemma WordStops(s: string, e: nat)
    requires 0 < e < |s| && IsWord(s[e - 1]) && !IsWord(s[e]) && !(IsConnector(s[e]) && e + 1 < |s| && IsWord(s[e + 1]))
    ensures !Joins(s, e - 1)
  {
    hide IsWord, IsConnector;
    KindsDiffer(s[e - 1]);
  }

  /** The run of word characters at `q`, in the whole text. */
  lemma RunFrom(s: string, q: nat)
    requires q < |s| && IsWord(s[q])
    ensures var run := RunLength(s[q..]);
            && 0 < run <= |s| - q && (forall k | q <= k < q + run :: IsWord(s[k])) && (q + run < |s| ==> !IsWord(s[q + run]))
            && (Continues(s[q..], run) <==> q + run + 1 < |s| && IsConnector(s[q + run]) && IsWord(s[q + run + 1]))
  {
    hide IsWord, IsConnector;
    var run := RunLength(s[q..]);
    RunExact(s[q..]);
    forall k | q <= k < q + run ensures IsWord(s[k]) {
      assert s[k] == s[q..][k - q];
    }
  }

  /** The word that starts at `q` is joined up to its end and not beyond. */
  lemma {:induction false} WordJoined(s: string, q: nat)
    requires q < |s| && IsWord(s[q])
    ensures var e := q + WordLength(s[q..]);
            && q < e <= |s| && (forall k: nat | q <= k < e - 1 :: Joins(s, k))
            && (e < |s| ==> !Joins(s, e - 1))
    decreases |s| - q
  {
    hide IsWord, IsConnector, RunLength, Continues, Joins;
    var run := RunLength(s[q..]);
    RunFrom(s, q);
    RunJoined(s, q, run);
    if Continues(s[q..], run) {
      ConnectorJoins(s, q + run);
      WordJoined(s, q + run + 1);
      assert s[q..][run + 1..] == s[q + run + 1..];
    } else if q + run < |s| {
      WordStops(s, q + run);
    }
  }

  lemma TokenJoined(s: string, q: nat)
    requires q < |s| && !IsSpace(s[q]) && (q > 0 ==> !Joins(s, q - 1))
    ensures TokenAt(s, q, q + TokenLength(s[q..]))
  {
    hide IsConnector, IsSpace, WordLength;
    if IsWord(s[q]) {
      WordJoined(s, q);
    }
  }

  lemma SpaceJoinsNothing(s: string, q: nat)
    requires q < |s| && IsSpace(s[q])
    ensures !Joins(s, q)
  {
    hide IsWord, IsConnector, IsSpace;
    KindsDiffer(s[q]);
  }

  lemma {:induction false} SpansFrom(s: string, q: nat, i: nat, j: nat)
    requires q <= |s| && (0 < q < |s| ==> !Joins(s, q - 1))
    ensures Span(i, j) in Spans(s[q..], q) <==> q <= i && TokenAt(s, i, j)
    decreases |s| - q
  {
    hide Spans, Tokens, TokenLength, IsSpace, Joins;
    if q == |s| {
      NoSpans(q);
      assert s[q..] == "";
    } else if IsSpace(s[q]) {
      SpaceHead(s[q..], q);
      SpaceJoinsNothing(s, q);
      assert s[q..][1..] == s[q + 1..];
      SpansFrom(s, q + 1, i, j);
    } else {
      TokenHead(s[q..], q);
      TokenJoined(s, q);
      var k := TokenLength(s[q..]);
      assert s[q..][k..] == s[q + k..];
      SpansFrom(s, q + k, i, j);
      OneToken(s, q, q + k, i, j);
    }
  }

  lemma NoSpans(offset: nat)
    ensures Spans("", offset) == []
  {
  }

  /** No other token starts inside a token. */
  lemma OneToken(s: string, p: nat, e: nat, i: nat, j: nat)
    requires TokenAt(s, p, e)
    ensures p <= i < e ==> (TokenAt(s, i, j) <==> i == p && j == e)
  {
    hide Joins, IsSpace;
  }

  /** The tokens are exactly the maximal joined stretches of characters that are not white space, and the
      list of tokens is their texts. */
  lemma TokensExact(s: string, i: nat, j: nat)
    ensures Span(i, j) in Spans(s, 0) <==> TokenAt(s, i, j)
    ensures forall n | 0 <= n < |Tokens(s)| :: Tokens(s)[n] == s[Spans(s, 0)[n].start..Spans(s, 0)[n].end]
  {
    hide Spans, Tokens, TokenAt;
    SpansFrom(s, 0, i, j);
    assert s[0..] == s;
    TokenTexts(s, 0);
  }

  lemma {:induction false} TokenTexts(s: string, q: nat)
    requires q <= |s|
    ensures forall n | 0 <= n < |Tokens(s[q..])| ::
              Tokens(s[q..])[n] == s[Spans(s[q..], q)[n].start..Spans(s[q..], q)[n].end]
    decreases |s| - q
  {
    hide Spans, Tokens, TokenLength, IsSpace;
    if q == |s| {
      NoText();
      assert s[q..] == "";
    } else if IsSpace(s[q]) {
      SpaceHead(s[q..], q);
      assert s[q..][1..] == s[q + 1..];
      TokenTexts(s, q + 1);
    } else {
      TokenHead(s[q..], q);
      var k := TokenLength(s[q..]);
      assert s[q..][k..] == s[q + k..] && s[q..][..k] == s[q..q + k];
      TokenTexts(s, q + k);
    }
  }

  // ---------------------------------------------------------------- stripping

  /** Nothing, or a text with no white space at either end. */
  ghost predicate Trim(s: string) {
    s == "" || (!IsSpace(s[0]) && !IsSpace(s[|s| - 1]))
  }

  lemma {:induction false} StripLeftExact(s: string)
    ensures |StripLeft(s)| <= |s| && Blank(s[..|s| - |StripLeft(s)|]) && s[|s| - |StripLeft(s)|..] == StripLeft(s)
    ensures StripLeft(s) == "" || !IsSpace(StripLeft(s)[0])
  {
    hide IsSpace;
    if s != "" && IsSpace(s[0]) {
      StripLeftExact(s[1..]);
      var n := |s| - |StripLeft(s)|;
      forall i | 0 <= i < n ensures IsSpace(s[..n][i]) {
        assert i > 0 ==> s[i] == s[1..][..n - 1][i - 1];
      }
      assert s[n..] == s[1..][n - 1..];
    }
  }

  lemma {:induction false} StripRightExact(s: string)
    ensures |StripRight(s)| <= |s| && s[..|StripRight(s)|] == StripRight(s) && Blank(s[|StripRight(s)|..])
    ensures StripRight(s) == "" || !IsSpace(StripRight(s)[|StripRight(s)| - 1])
  {
    hide IsSpace;
    if s != "" && IsSpace(s[|s| - 1]) {
      StripRightExact(s[..|s| - 1]);
      var n := |StripRight(s)|;
      forall i | 0 <= i < |s| - n ensures IsSpace(s[n..][i]) {
        assert i < |s| - n - 1 ==> s[n + i] == s[..|s| - 1][n..][i];
      }
    }
  }

  /** Stripping takes white space off both ends, and leaves none there. */
  lemma StripExact(s: string)
    ensures Trim(Strip(s))
    ensures exists a: nat, b: nat :: a <= b <= |s| && Blank(s[..a]) && Strip(s) == s[a..b] && Blank(s[b..])
  {
    hide IsSpace, StripLeft, StripRight;
    StripLeftExact(s);
    StripRightExact(StripLeft(s));
    var t := StripLeft(s);
    var a, b := |s| - |t|, |s| - |t| + |Strip(s)|;
    assert s[a..b] == t[..|Strip(s)|] && s[b..] == t[|Strip(s)|..];
    assert Strip(s) != "" ==> Strip(s)[0] == t[0];
  }

  lemma {:induction false} BlankStrips(s: string)
    requires Trim(s)
    ensures Strip(s) == s
  {
  }

  // ---------------------------------------------------------------- paragraphs

  /** Line feeds at `i` and `j` with nothing but white space between them. */
  ghost predicate GapAt(s: string, i: nat, j: nat) {
    i < j < |s| && s[i] == '\n' && s[j] == '\n' && forall k | i <= k <= j :: IsSpace(s[k])
  }

  ghost predicate HasGap(s: string) {
    exists i: nat, j: nat :: GapAt(s, i, j)
  }

  lemma {:induction false} SpaceEndExact(s: string, i: nat)
    requires i <= |s|
    ensures (forall k | i <= k < SpaceEnd(s, i) :: IsSpace(s[k])) && (SpaceEnd(s, i) < |s| ==> !IsSpace(s[SpaceEnd(s, i)]))
    decreases |s| - i
  {
    hide IsSpace;
    if i < |s| && IsSpace(s[i]) {
      SpaceEndExact(s, i + 1);
    }
  }

  lemma {:induction false} LastLineFeedExact(s: string, i: nat, e: nat)
    requires i <= e <= |s|
    ensures var r := LastLineFeed(s, i, e);
            && (r.None? ==> forall k | i <= k < e :: s[k] != '\n')
            && (r.Some? ==> forall k | r.value < k < e :: s[k] != '\n')
  {
    if i < e && s[e - 1] != '\n' {
      LastLineFeedExact(s, i, e - 1);
    }
  }

  /** A gap that starts at `i` ends behind the last line feed it can reach. */
  lemma GapEndExact(s: string, i: nat)
    requires i < |s|
    ensures GapEnd(s, i).None? <==> forall j: nat :: !GapAt(s, i, j)
    ensures GapEnd(s, i).Some? ==> GapAt(s, i, GapEnd(s, i).value - 1) && forall j: nat | GapAt(s, i, j) :: j < GapEnd(s, i).value
  {
    LineFeedIsSpace();
    hide IsSpace, SpaceEnd, LastLineFeed;
    if s[i] == '\n' {
      var e := SpaceEnd(s, i + 1);
      SpaceEndExact(s, i + 1);
      LastLineFeedExact(s, i + 1, e);
      var last := LastLineFeed(s, i + 1, e);
      if last.Some? {
        assert GapAt(s, i, last.value);
      }
      forall j: nat | GapAt(s, i, j) ensures j < e {
      }
    }
  }

  lemma LineFeedIsSpace()
    ensures IsSpace('\n')
  {
  }

  /** The first gap starts before every other one. */
  lemma {:induction false} NextGapExact(s: string, i: nat)
    requires i <= |s|
    ensures var g := NextGap(s, i);
            && (g.None? ==> forall a: nat, b: nat | GapAt(s, a, b) :: a < i)
            && (g.Some? ==> GapAt(s, g.value.0, g.value.1 - 1) && i <= g.value.0
                            && (forall a: nat, b: nat | GapAt(s, a, b) :: a < i || a >= g.value.0)
                            && (forall b: nat | GapAt(s, g.value.0, b) :: b < g.value.1))
    decreases |s| - i
  {
    hide GapEnd, GapAt;
    if i < |s| {
      GapEndExact(s, i);
      if GapEnd(s, i).None? {
        NextGapExact(s, i + 1);
      }
    } else {
      GapsInside(s);
    }
  }

  lemma GapsInside(s: string)
    ensures forall a: nat, b: nat | GapAt(s, a, b) :: a < b < |s|
  {
  }

  /** The gaps between the pieces. */
  ghost function Gaps(s: string): seq<string>
    decreases |s|
  {
    var gap := NextGap(s, 0);
    if gap.None? then [] else [s[gap.value.0..gap.value.1]] + Gaps(s[gap.value.1..])
  }

  ghost function Woven(pieces: seq<string>, gaps: seq<string>): string
    requires |pieces| == |gaps| + 1
  {
    if gaps == [] then pieces[0] else pieces[0] + gaps[0] + Woven(pieces[1..], gaps[1..])
  }

  /** White space from one line feed to another. */
  ghost predicate IsGap(g: string) {
    |g| >= 2 && GapAt(g, 0, |g| - 1)
  }

  /** The pieces and the gaps between them make up the text; no piece has a gap in it, and none starts earlier or
      ends later than the text allows. */
  ghost predicate SplitsAt(s: string, pieces: seq<string>, gaps: seq<string>) {
    && |pieces| == |gaps| + 1 && Woven(pieces, gaps) == s
    && (forall g | g in gaps :: IsGap(g))
    && (forall i | 0 <= i < |gaps| :: !HasGap(pieces[i] + "\n"))
    && (forall i | 0 < i < |pieces| :: !HasGap("\n" + pieces[i]))
    && !HasGap(pieces[|gaps|])
  }

  lemma GapPart(s: string, i: nat, j: nat, a: nat, b: nat)
    requires i <= j <= |s| && GapAt(s[i..j], a, b)
    ensures GapAt(s, i + a, i + b)
  {
    hide IsSpace;
    forall k | i + a <= k <= i + b ensures IsSpace(s[k]) {
      assert s[i..j][k - i] == s[k];
    }
  }

  /** The paragraphs of a text are split by every line feed, white space, line feed, leftmost and longest. */
  lemma {:induction false} SplitExact(s: string)
    ensures SplitsAt(s, Split(s), Gaps(s))
    decreases |s|
  {
    hide IsSpace, NextGap, GapAt;
    NextGapExact(s, 0);
    var gap := NextGap(s, 0);
    if gap.None? {
      assert Woven([s], []) == s;
    } else {
      var i, e := gap.value.0, gap.value.1;
      var rest := s[e..];
      SplitExact(rest);
      FirstPiece(s, i, e);
      SecondPiece(s, i, e, Split(rest), Gaps(rest));
      SplitsNext(s, i, e, Split(rest), Gaps(rest));
    }
  }

  lemma FirstPiece(s: string, i: nat, e: nat)
    requires i < e <= |s| && GapAt(s, i, e - 1) && forall a: nat, b: nat | GapAt(s, a, b) :: a >= i
    ensures !HasGap(s[..i] + "\n") && IsGap(s[i..e])
  {
    hide IsSpace;
    var t := s[0..i + 1];
    assert s[..i] + "\n" == t;
    forall a: nat, b: nat ensures !GapAt(t, a, b) {
      if GapAt(t, a, b) {
        GapPart(s, 0, i + 1, a, b);
      }
    }
    forall k | 0 <= k <= e - 1 - i ensures IsSpace(s[i..e][k]) {
      assert s[i..e][k] == s[i + k];
    }
  }

  lemma WovenStarts(pieces: seq<string>, gaps: seq<string>)
    requires |pieces| == |gaps| + 1
    ensures pieces[0] <= Woven(pieces, gaps)
  {
  }

  /** Behind a longest gap no line feed follows after white space alone. */
  lemma SecondPiece(s: string, i: nat, e: nat, pieces: seq<string>, gaps: seq<string>)
    requires i < e <= |s| && GapAt(s, i, e - 1) && forall b: nat | GapAt(s, i, b) :: b < e
    requires SplitsAt(s[e..], pieces, gaps)
    ensures !HasGap("\n" + pieces[0])
  {
    hide IsSpace, Woven;
    WovenStarts(pieces, gaps);
    var t := "\n" + pieces[0];
    assert t == s[e - 1..e + |pieces[0]|];
    forall a: nat, b: nat ensures !GapAt(t, a, b) {
      if GapAt(t, a, b) {
        if a == 0 {
          GapPart(s, e - 1, e + |pieces[0]|, a, b);
          GapsJoin(s, i, e - 1, e - 1 + b);
        } else {
          InsidePiece(pieces[0], a, b, gaps != []);
        }
      }
    }
  }

  lemma GapsJoin(s: string, i: nat, j: nat, k: nat)
    requires GapAt(s, i, j) && GapAt(s, j, k)
    ensures GapAt(s, i, k)
  {
    hide IsSpace;
  }

  lemma InsidePiece(piece: string, a: nat, b: nat, more: bool)
    requires a > 0 && GapAt("\n" + piece, a, b)
    ensures HasGap(piece) && HasGap(piece + "\n")
  {
    hide IsSpace;
    var t := "\n" + piece;
    forall k | a - 1 <= k <= b - 1 ensures IsSpace(piece[k]) && IsSpace((piece + "\n")[k]) {
      assert t[k + 1] == piece[k] == (piece + "\n")[k];
    }
    assert GapAt(piece, a - 1, b - 1) && GapAt(piece + "\n", a - 1, b - 1);
  }

  lemma SplitsNext(s: string, i: nat, e: nat, pieces: seq<string>, gaps: seq<string>)
    requires i < e <= |s| && SplitsAt(s[e..], pieces, gaps)
    requires !HasGap(s[..i] + "\n") && IsGap(s[i..e]) && !HasGap("\n" + pieces[0])
    ensures SplitsAt(s, [s[..i]] + pieces, [s[i..e]] + gaps)
  {
    hide HasGap, IsGap;
    var ps, gs := [s[..i]] + pieces, [s[i..e]] + gaps;
    assert ps[1..] == pieces && gs[1..] == gaps;
    assert s == s[..i] + s[i..e] + s[e..];
    forall k | 0 <= k < |gs| ensures !HasGap(ps[k] + "\n") {
      if k > 0 {
        assert ps[k] == pieces[k - 1];
      }
    }
    forall k | 0 < k < |ps| ensures !HasGap("\n" + ps[k]) {
      assert ps[k] == pieces[k - 1];
    }
    assert ps[|gs|] == pieces[|gaps|];
  }

  // ---------------------------------------------------------------- sections

  /** A paragraph as the chunker sees it: not empty, stripped, without a gap. */
  ghost predicate Proper(p: string) {
    p != "" && Trim(p) && !HasGap(p)
  }

  ghost predicate AllProper(ps: seq<string>) {
    forall p | p in ps :: Proper(p)
  }

  lemma NoGapInPart(s: string, i: nat, j: nat)
    requires i <= j <= |s| && !HasGap(s)
    ensures !HasGap(s[i..j])
  {
    hide GapAt;
    var t := s[i..j];
    forall a: nat, b: nat ensures !GapAt(t, a, b) {
      if GapAt(t, a, b) {
        GapPart(s, i, j, a, b);
      }
    }
  }

  lemma PiecesHaveNoGap(s: string)
    ensures forall p | p in Split(s) :: !HasGap(p)
  {
    hide HasGap, Split, Gaps, Woven;
    SplitExact(s);
    var pieces := Split(s);
    forall k | 0 <= k < |pieces| ensures !HasGap(pieces[k]) {
      if k < |pieces| - 1 {
        NoGapInPart(pieces[k] + "\n", 0, |pieces[k]|);
        assert (pieces[k] + "\n")[0..|pieces[k]|] == pieces[k];
      }
    }
  }

  lemma {:induction false} StrippedAreProper(pieces: seq<string>)
    requires forall p | p in pieces :: !HasGap(p)
    ensures AllProper(Paragraphs(pieces))
  {
    hide HasGap, Strip, IsSpace;
    if pieces != [] {
      StrippedAreProper(pieces[1..]);
      StripExact(pieces[0]);
      var a: nat, b: nat :| a <= b <= |pieces[0]| && Blank(pieces[0][..a]) && Strip(pieces[0]) == pieces[0][a..b] && Blank(pieces[0][b..]);
      NoGapInPart(pieces[0], a, b);
    }
  }

  /** The paragraphs the chunker groups are not empty, stripped, and have no gap in them. */
  lemma ParagraphsAreProper(s: string)
    ensures AllProper(Paragraphs(Split(s)))
  {
    hide HasGap, Split, Paragraphs;
    PiecesHaveNoGap(s);
    StrippedAreProper(Split(s));
  }

  lemma {:induction false} JoinLeft(ps: seq<string>)
    requires |ps| >= 2
    ensures JoinParagraphs(ps) == ps[0] + "\n\n" + JoinParagraphs(ps[1..])
  {
    var init, last := ps[..|ps| - 1], ps[|ps| - 1];
    if |ps| == 2 {
      assert ps[1..] == [last] && init == [ps[0]];
    } else {
      JoinLeft(init);
      assert init[1..] == ps[1..][..|ps| - 2] && init[0] == ps[0];
    }
  }

  lemma JoinStarts(ps: seq<string>)
    requires ps != [] && AllProper(ps)
    ensures JoinParagraphs(ps) != "" && !IsSpace(JoinParagraphs(ps)[0])
  {
    hide IsSpace, HasGap;
    assert Proper(ps[0]);
    if |ps| >= 2 {
      JoinLeft(ps);
    }
  }

  /** A proper paragraph and a blank line are split off. */
  lemma SplitHead(p: string, rest: string)
    requires Proper(p) && rest != "" && !IsSpace(rest[0])
    ensures Split(p + "\n\n" + rest) == [p] + Split(rest)
  {
    hide IsSpace, GapAt;
    var s := p + "\n\n" + rest;
    NextGapExact(s, 0);
    HeadGap(p, rest);
    assert s[..|p|] == p && s[|p| + 2..] == rest;
  }

  lemma HeadGap(p: string, rest: string)
    requires Proper(p) && rest != "" && !IsSpace(rest[0])
    ensures var s := p + "\n\n" + rest;
            && GapAt(s, |p|, |p| + 1)
            && (forall a: nat, b: nat | GapAt(s, a, b) :: a >= |p|) && forall b: nat | GapAt(s, |p|, b) :: b == |p| + 1
  {
    LineFeedIsSpace();
    var s := p + "\n\n" + rest;
    assert s[..|p|] == p && s[|p| + 2] == rest[0] && s[|p| - 1] == p[|p| - 1];
    hide IsSpace;
    forall a: nat, b: nat | GapAt(s, a, b) ensures a >= |p| {
      assert !GapAt(p, a, b);
    }
  }

  lemma {:induction false} ProperSplits(p: string)
    requires Proper(p)
    ensures Split(p) == [p]
  {
    hide GapAt;
    NextGapExact(p, 0);
  }

  /** Joining paragraphs by blank lines and splitting again gives the same paragraphs. */
  lemma {:induction false} JoinedSplits(ps: seq<string>)
    requires ps != [] && AllProper(ps)
    ensures Paragraphs(Split(JoinParagraphs(ps))) == ps
  {
    hide HasGap, IsSpace, Split, Strip, NextGap;
    assert Proper(ps[0]);
    BlankStrips(ps[0]);
    if |ps| == 1 {
      ProperSplits(ps[0]);
      assert Paragraphs([ps[0]]) == ps;
    } else {
      JoinLeft(ps);
      JoinStarts(ps[1..]);
      SplitHead(ps[0], JoinParagraphs(ps[1..]));
      JoinedSplits(ps[1..]);
      var rest := Split(JoinParagraphs(ps[1..]));
      assert ([ps[0]] + rest)[1..] == rest;
    }
  }

  /** The paragraphs of all sections, in order. */
  ghost function AllParagraphs(sections: seq<string>): seq<string> {
    if sections == [] then []
    else AllParagraphs(sections[..|sections| - 1]) + Paragraphs(Split(sections[|sections| - 1]))
  }

  /** Only the first paragraph may be a heading, and must be when another section comes before. */
  ghost predicate OneSection(ps: seq<string>, first: bool, heading: string -> bool) {
    ps != [] && (first || heading(ps[0])) && forall i | 0 < i < |ps| :: !heading(ps[i])
  }

  ghost predicate SectionsOk(sections: seq<string>, heading: string -> bool) {
    forall k | 0 <= k < |sections| :: OneSection(Paragraphs(Split(sections[k])), k == 0, heading)
  }

  lemma SectionCloses(sections: seq<string>, current: seq<string>, heading: string -> bool)
    requires AllProper(current) && SectionsOk(sections, heading) && OneSection(current, sections == [], heading)
    ensures var more := sections + [JoinParagraphs(current)];
            SectionsOk(more, heading) && AllParagraphs(more) == AllParagraphs(sections) + current
  {
    hide Paragraphs, Split, JoinParagraphs, Proper;
    JoinedSplits(current);
    var more := sections + [JoinParagraphs(current)];
    assert more[..|more| - 1] == sections;
  }

  lemma {:induction false} GroupedExact(ps: seq<string>, current: seq<string>, sections: seq<string>, heading: string -> bool)
    requires AllProper(ps) && AllProper(current) && SectionsOk(sections, heading)
    requires current == [] ==> sections == []
    requires current != [] ==> OneSection(current, sections == [], heading)
    ensures SectionsOk(Grouped(ps, current, sections, heading), heading)
    ensures AllParagraphs(Grouped(ps, current, sections, heading)) == AllParagraphs(sections) + current + ps
    decreases |ps|
  {
    hide Paragraphs, Split, JoinParagraphs, Proper, AllParagraphs, SectionsOk;
    if current != [] {
      SectionCloses(sections, current, heading);
    }
    if ps == [] {
      assert sections + [] == sections;
    } else {
      var p := ps[0];
      assert p in ps;
      if heading(p) && current != [] {
        GroupedExact(ps[1..], [p], sections + [JoinParagraphs(current)], heading);
        assert current + ps == current + [p] + ps[1..];
      } else {
        GroupedExact(ps[1..], current + [p], sections, heading);
        assert current + [p] + ps[1..] == current + ps;
      }
    }
  }

  /** The sections hold the paragraphs of the text, each once and in order: re-splitting them gives the text's
      own paragraphs. A section begins with a heading, the first one perhaps not, and has no other. */
  lemma SectionsExact(value: string, heading: string -> bool)
    ensures var sections := SectionsOf(value, heading);
            && AllParagraphs(sections) == Paragraphs(Split(value))
            && forall k | 0 <= k < |sections| :: OneSection(Paragraphs(Split(sections[k])), k == 0, heading)
  {
    hide Paragraphs, Split, Grouped, Proper;
    ParagraphsAreProper(value);
    NoSections();
    GroupedExact(Paragraphs(Split(value)), [], [], heading);
  }

  lemma NoSections()
    ensures AllParagraphs([]) == []
  {
  }
}
