/** The deterministic section chunker: tokenizer, sections, and overlapping chunks of a section.

    The heading test is a parameter. */
module Chunker {
  import opened Domain

  // ---------------------------------------------------------------- the tokenizer

  predicate IsWord(c: char) {
    'A' <= c <= 'Z' || 'a' <= c <= 'z' || '0' <= c <= '9'
  }

  predicate IsConnector(c: char) {
    c == '.' || c == '\'' || c == '_' || c == '-'
  }

  /** White space as both the pattern class and strip() understand it. */
  predicate IsSpace(c: char) {
    || '\U{0009}' <= c <= '\U{000D}' || '\U{001C}' <= c <= '\U{0020}' || c == '\U{0085}' || c == '\U{00A0}'
    || c == '\U{1680}' || '\U{2000}' <= c <= '\U{200A}' || c == '\U{2028}' || c == '\U{2029}' || c == '\U{202F}'
    || c == '\U{205F}' || c == '\U{3000}'
  }

  predicate Blank(s: string) {
    forall i | 0 <= i < |s| :: IsSpace(s[i])
  }

  function RunLength(s: string): (n: nat)
    ensures n <= |s|
  {
    if s != "" && IsWord(s[0]) then 1 + RunLength(s[1..]) else 0
  }

  /** After a run of word characters, a connector and another word character carry the token on. */
  predicate Continues(s: string, run: nat) {
    run > 0 && run + 1 < |s| && IsConnector(s[run]) && IsWord(s[run + 1])
  }

  /** A run of word characters, then any number of connector-and-run groups. */
  function WordLength(s: string): (n: nat)
    ensures n <= |s| && (s != "" && IsWord(s[0]) ==> n > 0)
    decreases |s|
  {
    var run := RunLength(s);
    if Continues(s, run) then run + 1 + WordLength(s[run + 1..])
    else run
  }

  /** The length of the token at the start of a text that does not start with white space. */
  function TokenLength(s: string): (n: nat)
    requires s != ""
    ensures 0 < n <= |s|
  {
    if IsWord(s[0]) then WordLength(s) else 1
  }

  function Tokens(s: string): seq<string>
    decreases |s|
  {
    if s == "" then []
    else if IsSpace(s[0]) then Tokens(s[1..])
    else [s[..TokenLength(s)]] + Tokens(s[TokenLength(s)..])
  }

  datatype Span = Span(start: nat, end: nat)

  /** The positions of the tokens of `s`, counted from `offset`. */
  function Spans(s: string, offset: nat): (r: seq<Span>)
    ensures |r| == |Tokens(s)|
    ensures forall i | 0 <= i < |r| :: offset <= r[i].start < r[i].end <= offset + |s|
    ensures forall i, j | 0 <= i < j < |r| :: r[i].end <= r[j].start
    decreases |s|
  {
    if s == "" then []
    else if IsSpace(s[0]) then Spans(s[1..], offset + 1)
    else [Span(offset, offset + TokenLength(s))] + Spans(s[TokenLength(s)..], offset + TokenLength(s))
  }

  // ---------------------------------------------------------------- cutting and joining texts

  lemma {:induction false} RunPrefix(s: string, e: nat)
    requires RunLength(s) <= e <= |s|
    ensures RunLength(s[..e]) == RunLength(s)
  {
    if s != "" && IsWord(s[0]) {
      RunPrefix(s[1..], e - 1);
      assert s[..e][1..] == s[1..][..e - 1];
    }
  }

  /** A token that carries on has at least one more character than the connector. */
  lemma WordReach(s: string)
    ensures Continues(s, RunLength(s)) ==> WordLength(s) > RunLength(s) + 1
    ensures WordLength(s) >= RunLength(s)
  {
  }

  lemma {:induction false} WordPrefix(s: string, e: nat)
    requires WordLength(s) <= e <= |s|
    ensures WordLength(s[..e]) == WordLength(s)
    decreases |s|
  {
    hide IsWord, IsConnector, RunLength;
    var run := RunLength(s);
    RunPrefix(s, e);
    assert Continues(s, run) <==> Continues(s[..e], run) by {
      WordReach(s);
    }
    if Continues(s, run) {
      WordPrefix(s[run + 1..], e - run - 1);
      assert s[..e][run + 1..] == s[run + 1..][..e - run - 1];
    }
  }

  /** Cutting a text behind its first token does not change that token. */
  lemma TokenPrefix(s: string, e: nat)
    requires s != "" && TokenLength(s) <= e <= |s|
    ensures TokenLength(s[..e]) == TokenLength(s)
  {
    if IsWord(s[0]) {
      WordPrefix(s, e);
    }
  }

  lemma {:induction false} RunJoin(a: string, c: string)
    requires c == "" || IsSpace(c[0])
    ensures RunLength(a + c) == RunLength(a)
  {
    if a != "" {
      assert (a + c)[1..] == a[1..] + c;
      RunJoin(a[1..], c);
    }
  }

  lemma SpaceEndsWord(c: char)
    requires IsSpace(c)
    ensures !IsWord(c) && !IsConnector(c)
  {
  }

  lemma {:induction false} WordJoin(a: string, c: string)
    requires c == "" || IsSpace(c[0])
    ensures WordLength(a + c) == WordLength(a)
    decreases |a|
  {
    hide IsSpace, IsWord, IsConnector, RunLength;
    RunJoin(a, c);
    var run := RunLength(a);
    if c != "" {
      SpaceEndsWord(c[0]);
    }
    assert Continues(a + c, run) <==> Continues(a, run);
    if Continues(a, run) {
      WordJoin(a[run + 1..], c);
      assert (a + c)[run + 1..] == a[run + 1..] + c;
    }
  }

  /** Tokens never cross white space: text that continues with white space splits there. */
  lemma {:induction false} TokensJoin(a: string, c: string)
    requires c == "" || IsSpace(c[0])
    ensures Tokens(a + c) == Tokens(a) + Tokens(c)
    decreases |a|
  {
    hide Tokens, IsSpace, TokenLength, Spans;
    if a == "" {
      NoText();
      assert a + c == c;
    } else if IsSpace(a[0]) {
      assert (a + c)[1..] == a[1..] + c;
      TokensJoin(a[1..], c);
      SpaceHead(a, 0);
      SpaceHead(a + c, 0);
    } else {
      TokenJoin(a, c);
      var n := TokenLength(a);
      assert (a + c)[..n] == a[..n] && (a + c)[n..] == a[n..] + c;
      TokensJoin(a[n..], c);
      TokenHead(a, 0);
      TokenHead(a + c, 0);
    }
  }

  lemma TokenJoin(a: string, c: string)
    requires a != "" && (c == "" || IsSpace(c[0]))
    ensures TokenLength(a + c) == TokenLength(a)
  {
    WordJoin(a, c);
  }

  lemma {:induction false} BlankHasNoTokens(w: string)
    requires Blank(w)
    ensures Tokens(w) == []
  {
    if w != "" {
      BlankHasNoTokens(w[1..]);
    }
  }

  /** White space between, before or after texts contributes nothing. */
  lemma TokensAround(a: string, w: string, b: string)
    requires Blank(w) && w != ""
    ensures Tokens(a + w + b) == Tokens(a) + Tokens(b)
  {
    assert a + w + b == a + (w + b);
    TokensJoin(a, w + b);
    TokensAfterBlank(w, b);
  }

  lemma {:induction false} TokensAfterBlank(w: string, b: string)
    requires Blank(w)
    ensures Tokens(w + b) == Tokens(b)
  {
    if w == "" {
      assert w + b == b;
    } else {
      assert (w + b)[1..] == w[1..] + b;
      TokensAfterBlank(w[1..], b);
    }
  }

  lemma SpaceHead(s: string, offset: nat)
    requires s != "" && IsSpace(s[0])
    ensures Tokens(s) == Tokens(s[1..]) && Spans(s, offset) == Spans(s[1..], offset + 1)
  {
  }

  lemma TokenHead(s: string, offset: nat)
    requires s != "" && !IsSpace(s[0])
    ensures var k := TokenLength(s);
            && Tokens(s) == [s[..k]] + Tokens(s[k..])
            && Spans(s, offset) == [Span(offset, offset + k)] + Spans(s[k..], offset + k)
  {
  }

  lemma SomeText(s: string)
    requires Tokens(s) != []
    ensures s != ""
  {
  }

  /** The text up to the end of token `n` has exactly the first `n` tokens. */
  lemma {:induction false} PrefixTokens(s: string, offset: nat, n: nat)
    requires 0 < n <= |Tokens(s)|
    ensures Tokens(s[..Spans(s, offset)[n - 1].end - offset]) == Tokens(s)[..n]
    decreases |s|
  {
    hide Tokens, Spans, TokenLength, IsSpace;
    SomeText(s);
    var e := Spans(s, offset)[n - 1].end - offset;
    if IsSpace(s[0]) {
      SpaceHead(s, offset);
      PrefixTokens(s[1..], offset + 1, n);
      SpaceHead(s[..e], offset);
      assert s[..e][1..] == s[1..][..e - 1];
    } else {
      TokenHead(s, offset);
      PrefixTokensAfterToken(s, offset, n, e);
    }
  }

  lemma {:induction false} PrefixTokensAfterToken(s: string, offset: nat, n: nat, e: nat)
    requires 0 < n <= |Tokens(s)| && s != "" && !IsSpace(s[0])
    requires e == Spans(s, offset)[n - 1].end - offset
    ensures Tokens(s[..e]) == Tokens(s)[..n]
    decreases |s|, 0
  {
    hide Tokens, Spans, TokenLength, IsSpace;
    TokenHead(s, offset);
    var k := TokenLength(s);
    assert k <= e;
    TokenPrefix(s, e);
    TokenHead(s[..e], offset);
    assert s[..e][..k] == s[..k] && s[..e][k..] == s[k..][..e - k];
    if n == 1 {
      assert s[..e][k..] == "";
      NoText();
    } else {
      PrefixTokens(s[k..], offset + k, n - 1);
    }
  }

  lemma NoText()
    ensures Tokens("") == []
  {
  }

  /** Re-tokenizing the text from the start of token `a` to the end of token `b - 1` gives exactly the
      tokens from `a` to `b`. */
  lemma {:induction false} SliceTokens(s: string, offset: nat, a: nat, b: nat)
    requires a < b <= |Tokens(s)|
    ensures Sliced(s, offset, a, b)
    decreases |s|
  {
    hide Tokens, Spans, TokenLength, IsSpace, Sliced;
    SomeText(s);
    if IsSpace(s[0]) {
      SpaceHead(s, offset);
      SliceTokens(s[1..], offset + 1, a, b);
      SlicedAfterSpace(s, offset, a, b);
    } else if a == 0 {
      TokenHead(s, offset);
      PrefixTokens(s, offset, b);
      SlicedFromStart(s, offset, b);
    } else {
      TokenHead(s, offset);
      SliceTokens(s[TokenLength(s)..], offset + TokenLength(s), a - 1, b - 1);
      SlicedAfterToken(s, offset, a, b);
    }
  }

  ghost predicate Sliced(s: string, offset: nat, a: nat, b: nat)
    requires a < b <= |Tokens(s)|
  {
    var spans := Spans(s, offset);
    Tokens(s[spans[a].start - offset..spans[b - 1].end - offset]) == Tokens(s)[a..b]
  }

  lemma SlicedAfterSpace(s: string, offset: nat, a: nat, b: nat)
    requires s != "" && IsSpace(s[0]) && a < b <= |Tokens(s)| == |Tokens(s[1..])| && Sliced(s[1..], offset + 1, a, b)
    ensures Sliced(s, offset, a, b)
  {
    hide Tokens, Spans, IsSpace;
    SpaceHead(s, offset);
    SliceShift(s, 1, Spans(s, offset)[a].start - offset, Spans(s, offset)[b - 1].end - offset);
  }

  lemma SlicedFromStart(s: string, offset: nat, b: nat)
    requires s != "" && !IsSpace(s[0]) && 0 < b <= |Tokens(s)|
    requires Tokens(s[..Spans(s, offset)[b - 1].end - offset]) == Tokens(s)[..b]
    ensures Sliced(s, offset, 0, b)
  {
    hide Tokens, Spans, IsSpace;
    FirstSpan(s, offset);
    TextFromStart(s, Spans(s, offset)[b - 1].end - offset);
    TakeFromStart(Tokens(s), b);
  }

  lemma FirstSpan(s: string, offset: nat)
    requires s != "" && !IsSpace(s[0])
    ensures Spans(s, offset) != [] && Spans(s, offset)[0].start == offset
  {
  }

  lemma TextFromStart(s: string, e: nat)
    requires e <= |s|
    ensures s[0..e] == s[..e]
  {
  }

  lemma TakeFromStart(t: seq<string>, b: nat)
    requires b <= |t|
    ensures t[0..b] == t[..b]
  {
  }

  lemma SlicedAfterToken(s: string, offset: nat, a: nat, b: nat)
    requires s != "" && !IsSpace(s[0]) && 0 < a < b <= |Tokens(s)| == 1 + |Tokens(s[TokenLength(s)..])|
    requires Sliced(s[TokenLength(s)..], offset + TokenLength(s), a - 1, b - 1)
    ensures Sliced(s, offset, a, b)
  {
    hide Tokens, Spans, IsSpace, TokenLength;
    TokenHead(s, offset);
    var k := TokenLength(s);
    SliceShift(s, k, Spans(s, offset)[a].start - offset, Spans(s, offset)[b - 1].end - offset);
    assert ([s[..k]] + Tokens(s[k..]))[a..b] == Tokens(s[k..])[a - 1..b - 1];
  }

  lemma SliceShift(s: string, k: nat, p: nat, e: nat)
    requires k <= p <= e <= |s|
    ensures s[p..e] == s[k..][p - k..e - k]
  {
  }

  // ---------------------------------------------------------------- chunks of one section

  function Min(a: nat, b: nat): nat {
    if a < b then a else b
  }

  /** The text from the first character of token `a` to the last of token `b - 1`. */
  function ChunkText(section: string, a: nat, b: nat): string
    requires a < b <= |Tokens(section)|
  {
    section[Spans(section, 0)[a].start..Spans(section, 0)[b - 1].end]
  }

  /** The chunks from token `start` on. */
  function ChunksFrom(section: string, maximum: nat, overlap: nat, start: nat): seq<string>
    requires overlap < maximum && start < |Tokens(section)|
    decreases |Tokens(section)| - start
  {
    var end := Min(start + maximum, |Tokens(section)|);
    [ChunkText(section, start, end)]
    + if end == |Tokens(section)| then [] else ChunksFrom(section, maximum, overlap, end - overlap)
  }

  lemma ChunksStep(section: string, maximum: nat, overlap: nat, start: nat)
    requires overlap < maximum && start < |Tokens(section)|
    ensures var end := Min(start + maximum, |Tokens(section)|); var chunks := ChunksFrom(section, maximum, overlap, start);
            && chunks != [] && chunks[0] == ChunkText(section, start, end)
            && chunks[1..] == if end == |Tokens(section)| then [] else ChunksFrom(section, maximum, overlap, end - overlap)
  {
    hide Tokens, ChunkText;
  }

  function SectionChunksOf(section: string, maximum: nat, overlap: nat): seq<string>
    requires overlap < maximum
  {
    if Tokens(section) == [] then [] else ChunksFrom(section, maximum, overlap, 0)
  }

  function StripLeft(s: string): string {
    if s != "" && IsSpace(s[0]) then StripLeft(s[1..]) else s
  }

  function StripRight(s: string): string {
    if s != "" && IsSpace(s[|s| - 1]) then StripRight(s[..|s| - 1]) else s
  }

  function Strip(s: string): string {
    StripRight(StripLeft(s))
  }

  /** The loop over one section; it ends because `start` strictly advances. */
  method SectionChunks(section: string, maximum: nat, overlap: nat) returns (chunks: seq<string>)
    requires overlap < maximum
    ensures chunks == SectionChunksOf(section, maximum, overlap)
  {
    hide Tokens, Spans, Strip, ChunksFrom;
    var matches := Spans(section, 0);
    if |matches| == 0 {
      return [];
    }
    chunks := [];
    var start := 0;
    ghost var all := ChunksFrom(section, maximum, overlap, 0);
    while start < |matches|
      invariant 0 <= start < |matches|
      invariant |chunks| <= |all| && chunks == all[..|chunks|]
      invariant all[|chunks|..] == ChunksFrom(section, maximum, overlap, start)
      decreases |matches| - start
    {
      var end := Min(start + maximum, |matches|);
      ChunkNotPadded(section, start, end);
      ChunksStep(section, maximum, overlap, start);
      var chunk := Strip(section[matches[start].start..matches[end - 1].end]);
      assert all[|chunks|] == chunk && all[|chunks|..][1..] == all[|chunks| + 1..];
      chunks := chunks + [chunk];
      if end == |matches| {
        break;
      }
      start := end - overlap;
    }
  }

  /** A chunk starts and ends with a token character, so stripping it changes nothing. */
  lemma ChunkNotPadded(section: string, a: nat, b: nat)
    requires a < b <= |Tokens(section)|
    ensures Strip(ChunkText(section, a, b)) == ChunkText(section, a, b)
  {
    hide Tokens, Spans, IsSpace;
    SpanEdges(section, 0, a);
    SpanEdges(section, 0, b - 1);
  }

  lemma {:induction false} SpanEdges(s: string, offset: nat, i: nat)
    requires i < |Tokens(s)|
    ensures var span := Spans(s, offset)[i]; !IsSpace(s[span.start - offset]) && !IsSpace(s[span.end - offset - 1])
    decreases |s|
  {
    hide Tokens, Spans, TokenLength, IsSpace;
    SomeText(s);
    if IsSpace(s[0]) {
      SpaceHead(s, offset);
      SpanEdges(s[1..], offset + 1, i);
    } else {
      TokenHead(s, offset);
      var k := TokenLength(s);
      if i == 0 {
        TokenEdge(s);
      } else {
        SpanEdges(s[k..], offset + k, i - 1);
      }
    }
  }

  lemma TokenEdge(s: string)
    requires s != "" && !IsSpace(s[0])
    ensures !IsSpace(s[TokenLength(s) - 1])
  {
    if IsWord(s[0]) {
      WordEdge(s);
    }
  }

  lemma {:induction false} RunEdge(s: string)
    requires RunLength(s) > 0
    ensures IsWord(s[RunLength(s) - 1])
  {
    if RunLength(s) > 1 {
      RunEdge(s[1..]);
    }
  }

  lemma {:induction false} WordEdge(s: string)
    requires WordLength(s) > 0
    ensures IsWord(s[WordLength(s) - 1])
    decreases |s|
  {
    var run := RunLength(s);
    if Continues(s, run) {
      WordEdge(s[run + 1..]);
    } else {
      RunEdge(s);
    }
  }

  /** The tokens of chunks after the first, without the overlap each shares with its predecessor. */
  function Fresh(chunks: seq<string>, overlap: nat): seq<string> {
    if chunks == [] then []
    else Tokens(chunks[0])[Min(overlap, |Tokens(chunks[0])|)..] + Fresh(chunks[1..], overlap)
  }

  function Restored(chunks: seq<string>, overlap: nat): seq<string> {
    if chunks == [] then [] else Tokens(chunks[0]) + Fresh(chunks[1..], overlap)
  }

  /** Neighbouring chunks share exactly `overlap` tokens, the earlier one being full. */
  ghost predicate Adjacent(a: string, b: string, maximum: nat, overlap: nat)
    requires overlap < maximum
  {
    && |Tokens(a)| == maximum && |Tokens(b)| > overlap
    && Tokens(a)[maximum - overlap..] == Tokens(b)[..overlap]
  }

  ghost predicate Chunked(chunks: seq<string>, maximum: nat, overlap: nat)
    requires overlap < maximum
  {
    && (forall k | 0 <= k < |chunks| :: chunks[k] != "" && 0 < |Tokens(chunks[k])| <= maximum)
    && (forall k, n | 0 <= k < n < |chunks| && n == k + 1 :: Adjacent(chunks[k], chunks[n], maximum, overlap))
  }

  /** What is proved of the chunks from token `start` on. */
  ghost predicate Right(tokens: seq<string>, chunks: seq<string>, maximum: nat, overlap: nat, start: nat)
    requires overlap < maximum && start < |tokens|
  {
    && Chunked(chunks, maximum, overlap) && chunks != []
    && Tokens(chunks[0]) == tokens[start..Min(start + maximum, |tokens|)]
    && Restored(chunks, overlap) == tokens[start..]
    && (start + overlap < |tokens| ==> Fresh(chunks, overlap) == tokens[start + overlap..])
  }

  lemma {:induction false} ChunksCorrect(section: string, maximum: nat, overlap: nat, start: nat)
    requires overlap < maximum && start < |Tokens(section)|
    ensures Right(Tokens(section), ChunksFrom(section, maximum, overlap, start), maximum, overlap, start)
    decreases |Tokens(section)| - start
  {
    hide Tokens, Spans, ChunkText, ChunksFrom, Right;
    var tokens := Tokens(section);
    var end := Min(start + maximum, |tokens|);
    var chunks := ChunksFrom(section, maximum, overlap, start);
    ChunkTokens(section, start, end);
    ChunksStep(section, maximum, overlap, start);
    if end == |tokens| {
      LastChunkRight(tokens, chunks, maximum, overlap, start);
    } else {
      ChunksCorrect(section, maximum, overlap, end - overlap);
      FirstChunkRight(tokens, chunks, maximum, overlap, start);
    }
  }

  lemma LastChunkRight(tokens: seq<string>, chunks: seq<string>, maximum: nat, overlap: nat, start: nat)
    requires overlap < maximum && start < |tokens| <= start + maximum
    requires chunks != [] && chunks[1..] == [] && chunks[0] != "" && Tokens(chunks[0]) == tokens[start..]
    ensures Right(tokens, chunks, maximum, overlap, start)
  {
    hide Tokens;
    assert |chunks| == 1;
    assert Fresh(chunks[1..], overlap) == [];
  }

  lemma FirstChunkRight(tokens: seq<string>, chunks: seq<string>, maximum: nat, overlap: nat, start: nat)
    requires overlap < maximum && start + maximum < |tokens|
    requires chunks != [] && chunks[0] != "" && Tokens(chunks[0]) == tokens[start..start + maximum]
    requires Right(tokens, chunks[1..], maximum, overlap, start + maximum - overlap)
    ensures Right(tokens, chunks, maximum, overlap, start)
  {
    hide Tokens, Adjacent;
    var rest := chunks[1..];
    FirstAdjacent(tokens, chunks[0], rest[0], maximum, overlap, start);
    forall k, n | 0 <= k < n < |chunks| && n == k + 1 ensures Adjacent(chunks[k], chunks[n], maximum, overlap) {
      if k > 0 {
        assert chunks[k] == rest[k - 1] && chunks[n] == rest[n - 1];
      }
    }
    forall k | 0 <= k < |chunks| ensures chunks[k] != "" && 0 < |Tokens(chunks[k])| <= maximum {
      if k > 0 {
        assert chunks[k] == rest[k - 1];
      }
    }
    hide Chunked;
    assert Fresh(rest, overlap) == tokens[start + maximum..];
    assert tokens[start..start + maximum] + tokens[start + maximum..] == tokens[start..];
    assert tokens[start..start + maximum][overlap..] + tokens[start + maximum..] == tokens[start + overlap..];
  }

  lemma FirstAdjacent(tokens: seq<string>, a: string, b: string, maximum: nat, overlap: nat, start: nat)
    requires overlap < maximum && start + maximum < |tokens|
    requires Tokens(a) == tokens[start..start + maximum]
    requires var from := start + maximum - overlap; Tokens(b) == tokens[from..Min(from + maximum, |tokens|)]
    ensures Adjacent(a, b, maximum, overlap)
  {
    hide Tokens;
    var from, ta, tb := start + maximum - overlap, Tokens(a), Tokens(b);
    forall i | 0 <= i < overlap ensures ta[maximum - overlap..][i] == tb[..overlap][i] {
      assert ta[maximum - overlap + i] == tokens[from + i] == tb[i];
    }
  }

  lemma ChunkTokens(section: string, a: nat, b: nat)
    requires a < b <= |Tokens(section)|
    ensures Tokens(ChunkText(section, a, b)) == Tokens(section)[a..b] && ChunkText(section, a, b) != ""
  {
    hide Tokens, Spans;
    SliceTokens(section, 0, a, b);
    NoText();
  }

  /** One section: at most `maximum` tokens a chunk, exact overlaps, and dropping them restores the
      section's tokens. */
  lemma SectionRoundTrip(section: string, maximum: nat, overlap: nat)
    requires overlap < maximum
    ensures var chunks := SectionChunksOf(section, maximum, overlap);
            Chunked(chunks, maximum, overlap) && Restored(chunks, overlap) == Tokens(section)
  {
    hide Tokens;
    if Tokens(section) != [] {
      ChunksCorrect(section, maximum, overlap, 0);
    }
  }

  // ---------------------------------------------------------------- paragraphs and sections

  /** The end of the white space that starts at `i`. */
  function SpaceEnd(s: string, i: nat): (e: nat)
    requires i <= |s|
    ensures i <= e <= |s| && Blank(s[i..e])
    decreases |s| - i
  {
    if i < |s| && IsSpace(s[i]) then SpaceEnd(s, i + 1) else i
  }

  /** The last line feed in `s[i..e]`. */
  function LastLineFeed(s: string, i: nat, e: nat): (r: Option<nat>)
    requires i <= e <= |s|
    ensures r.Some? ==> i <= r.value < e && s[r.value] == '\n'
  {
    if i == e then None else if s[e - 1] == '\n' then Some(e - 1) else LastLineFeed(s, i, e - 1)
  }

  /** The end of the longest paragraph gap that starts at `i`: a line feed, white space, a line feed. */
  function GapEnd(s: string, i: nat): (r: Option<nat>)
    requires i < |s|
    ensures r.Some? ==> i + 1 < r.value <= |s| && Blank(s[i..r.value])
  {
    if s[i] != '\n' then None
    else
      var e := SpaceEnd(s, i + 1);
      var last := LastLineFeed(s, i + 1, e);
      if last.None? then None
      else
        assert forall j | i < j < e :: s[i + 1..e][j - i - 1] == s[j];
        Some(last.value + 1)
  }

  /** The first paragraph gap at or after `i`. */
  function NextGap(s: string, i: nat): (r: Option<(nat, nat)>)
    requires i <= |s|
    ensures r.Some? ==> i <= r.value.0 < r.value.1 <= |s| && Blank(s[r.value.0..r.value.1])
    decreases |s| - i
  {
    if i == |s| then None
    else if GapEnd(s, i).Some? then Some((i, GapEnd(s, i).value))
    else NextGap(s, i + 1)
  }

  /** The pieces between the gaps. */
  function Split(s: string): seq<string>
    decreases |s|
  {
    var gap := NextGap(s, 0);
    if gap.None? then [s] else [s[..gap.value.0]] + Split(s[gap.value.1..])
  }

  function Paragraphs(pieces: seq<string>): seq<string> {
    if pieces == [] then []
    else (if Strip(pieces[0]) != "" then [Strip(pieces[0])] else []) + Paragraphs(pieces[1..])
  }

  function JoinParagraphs(paragraphs: seq<string>): string {
    if paragraphs == [] then ""
    else if |paragraphs| == 1 then paragraphs[0]
    else JoinParagraphs(paragraphs[..|paragraphs| - 1]) + "\n\n" + paragraphs[|paragraphs| - 1]
  }

  /** The tokens of several texts, in order. */
  function AllTokens(texts: seq<string>): seq<string> {
    if texts == [] then [] else AllTokens(texts[..|texts| - 1]) + Tokens(texts[|texts| - 1])
  }

  lemma {:induction false} AllTokensJoin(a: seq<string>, b: seq<string>)
    ensures AllTokens(a + b) == AllTokens(a) + AllTokens(b)
    decreases |b|
  {
    if b == [] {
      assert a + b == a;
    } else {
      AllTokensJoin(a, b[..|b| - 1]);
      assert (a + b)[..|a + b| - 1] == a + b[..|b| - 1];
    }
  }

  lemma OneText(t: string)
    ensures AllTokens([t]) == Tokens(t)
  {
    hide Tokens;
    assert [t][..0] == [];
  }

  lemma {:induction false} StripTokens(s: string)
    ensures Tokens(Strip(s)) == Tokens(s)
  {
    hide Tokens;
    StripLeftTokens(s);
    StripRightTokens(StripLeft(s));
  }

  lemma {:induction false} StripLeftTokens(s: string)
    ensures Tokens(StripLeft(s)) == Tokens(s)
  {
    if s != "" && IsSpace(s[0]) {
      StripLeftTokens(s[1..]);
    }
  }

  lemma {:induction false} StripRightTokens(s: string)
    ensures Tokens(StripRight(s)) == Tokens(s)
  {
    hide Tokens;
    if s != "" && IsSpace(s[|s| - 1]) {
      StripRightTokens(s[..|s| - 1]);
      var w := [s[|s| - 1]];
      assert s == s[..|s| - 1] + w;
      TokensJoin(s[..|s| - 1], w);
      BlankHasNoTokens(w);
    }
  }

  lemma {:induction false} SplitTokens(s: string)
    ensures AllTokens(Split(s)) == Tokens(s)
    decreases |s|
  {
    hide Tokens, Blank, NextGap;
    var gap := NextGap(s, 0);
    if gap.None? {
      OneText(s);
    } else {
      var first, w, rest := s[..gap.value.0], s[gap.value.0..gap.value.1], s[gap.value.1..];
      SplitTokens(rest);
      AllTokensJoin([first], Split(rest));
      OneText(first);
      assert s == first + w + rest;
      TokensAround(first, w, rest);
    }
  }

  lemma {:induction false} ParagraphTokens(pieces: seq<string>)
    ensures AllTokens(Paragraphs(pieces)) == AllTokens(pieces)
  {
    hide Tokens, Strip;
    if pieces != [] {
      ParagraphTokens(pieces[1..]);
      StripTokens(pieces[0]);
      OneText(pieces[0]);
      AllTokensJoin([pieces[0]], pieces[1..]);
      assert [pieces[0]] + pieces[1..] == pieces;
      if Strip(pieces[0]) != "" {
        OneText(Strip(pieces[0]));
        AllTokensJoin([Strip(pieces[0])], Paragraphs(pieces[1..]));
      } else {
        NoText();
        assert Paragraphs(pieces) == Paragraphs(pieces[1..]);
      }
    }
  }

  lemma {:induction false} JoinedTokens(paragraphs: seq<string>)
    ensures Tokens(JoinParagraphs(paragraphs)) == AllTokens(paragraphs)
  {
    hide Tokens;
    if paragraphs == [] {
      NoText();
    } else if |paragraphs| == 1 {
      OneText(paragraphs[0]);
      assert paragraphs == [paragraphs[0]];
    } else {
      var before := paragraphs[..|paragraphs| - 1];
      JoinedTokens(before);
      assert Blank("\n\n");
      TokensAround(JoinParagraphs(before), "\n\n", paragraphs[|paragraphs| - 1]);
    }
  }

  /** Groups paragraphs into sections; a heading closes the section before it. */
  method Sections(value: string, heading: string -> bool) returns (sections: seq<string>)
    ensures sections == SectionsOf(value, heading)
  {
    hide Split, Paragraphs, JoinParagraphs;
    var paragraphs := Paragraphs(Split(value));
    var current: seq<string>, i := [], 0;
    sections := [];
    assert paragraphs[0..] == paragraphs;
    while i < |paragraphs|
      invariant 0 <= i <= |paragraphs|
      invariant Grouped(paragraphs[i..], current, sections, heading) == SectionsOf(value, heading)
    {
      var p := paragraphs[i];
      assert paragraphs[i..][0] == p && paragraphs[i..][1..] == paragraphs[i + 1..];
      if heading(p) && current != [] {
        sections := sections + [JoinParagraphs(current)];
        current := [p];
      } else {
        current := current + [p];
      }
      i := i + 1;
    }
    if current != [] {
      sections := sections + [JoinParagraphs(current)];
    }
  }

  function Grouped(paragraphs: seq<string>, current: seq<string>, sections: seq<string>, heading: string -> bool): seq<string>
    decreases |paragraphs|
  {
    if paragraphs == [] then sections + if current == [] then [] else [JoinParagraphs(current)]
    else if heading(paragraphs[0]) && current != []
    then Grouped(paragraphs[1..], [paragraphs[0]], sections + [JoinParagraphs(current)], heading)
    else Grouped(paragraphs[1..], current + [paragraphs[0]], sections, heading)
  }

  function SectionsOf(value: string, heading: string -> bool): seq<string> {
    Grouped(Paragraphs(Split(value)), [], [], heading)
  }

  // ---------------------------------------------------------------- the document

  /** The chunks of every section, in order. */
  function ChunksOf(sections: seq<string>, maximum: nat, overlap: nat): seq<string>
    requires overlap < maximum
  {
    if sections == [] then []
    else ChunksOf(sections[..|sections| - 1], maximum, overlap) + SectionChunksOf(sections[|sections| - 1], maximum, overlap)
  }

  /** Restoring section by section. */
  function RestoredAll(sections: seq<string>, maximum: nat, overlap: nat): seq<string>
    requires overlap < maximum
  {
    if sections == [] then []
    else RestoredAll(sections[..|sections| - 1], maximum, overlap)
         + Restored(SectionChunksOf(sections[|sections| - 1], maximum, overlap), overlap)
  }

  /** None stands for the error: too many chunks, or none usable. */
  method Chunk(value: string, heading: string -> bool, maximum: nat, overlap: nat, maxChunks: nat)
    returns (chunks: Option<seq<string>>)
    requires overlap < maximum && maxChunks > 0
    ensures var all := ChunksOf(SectionsOf(value, heading), maximum, overlap);
            && (chunks.Some? <==> 0 < |all| <= maxChunks)
            && (chunks.Some? ==> chunks.value == all)
  {
    hide SectionsOf, SectionChunksOf;
    var sections := Sections(value, heading);
    var all: seq<string>, i := [], 0;
    while i < |sections|
      invariant 0 <= i <= |sections| && all == ChunksOf(sections[..i], maximum, overlap) && |all| <= maxChunks
    {
      var more := SectionChunks(sections[i], maximum, overlap);
      assert sections[..i + 1][..i] == sections[..i];
      all := all + more;
      if |all| > maxChunks {
        ChunksGrow(sections, i + 1, maximum, overlap);
        return None;
      }
      i := i + 1;
    }
    assert sections[..i] == sections;
    return if all == [] then None else Some(all);
  }

  lemma {:induction false} ChunksGrow(sections: seq<string>, i: nat, maximum: nat, overlap: nat)
    requires overlap < maximum && i <= |sections|
    ensures |ChunksOf(sections[..i], maximum, overlap)| <= |ChunksOf(sections, maximum, overlap)|
    decreases |sections| - i
  {
    if i == |sections| {
      assert sections[..i] == sections;
    } else {
      ChunksGrow(sections, i + 1, maximum, overlap);
      assert sections[..i + 1][..i] == sections[..i];
    }
  }

  /** Every chunk has at most `maximum` tokens and neighbours in a section overlap exactly; dropping the
      overlaps and concatenating restores the document's own token sequence. */
  lemma {:induction false} DocumentRoundTrip(value: string, heading: string -> bool, maximum: nat, overlap: nat)
    requires overlap < maximum
    ensures var sections := SectionsOf(value, heading);
            && RestoredAll(sections, maximum, overlap) == Tokens(value)
            && forall s | s in sections :: Chunked(SectionChunksOf(s, maximum, overlap), maximum, overlap)
  {
    hide Tokens, Split, Paragraphs, Chunked, SectionChunksOf, Restored;
    var paragraphs := Paragraphs(Split(value));
    SplitTokens(value);
    ParagraphTokens(Split(value));
    GroupedTokens(paragraphs, [], [], heading);
    RestoresSections(SectionsOf(value, heading), maximum, overlap);
    forall s | s in SectionsOf(value, heading) ensures Chunked(SectionChunksOf(s, maximum, overlap), maximum, overlap) {
      SectionRoundTrip(s, maximum, overlap);
    }
  }

  lemma {:induction false} GroupedTokens(paragraphs: seq<string>, current: seq<string>, sections: seq<string>, heading: string -> bool)
    ensures AllTokens(Grouped(paragraphs, current, sections, heading))
              == AllTokens(sections) + AllTokens(current) + AllTokens(paragraphs)
    decreases |paragraphs|
  {
    hide Tokens, JoinParagraphs, AllTokens;
    NoTexts();
    ClosedSection(sections, current);
    if paragraphs == [] {
      assert sections + [] == sections;
    } else {
      var p := paragraphs[0];
      OneText(p);
      AllTokensJoin([p], paragraphs[1..]);
      AllTokensJoin(current, [p]);
      assert [p] + paragraphs[1..] == paragraphs;
      if heading(p) && current != [] {
        GroupedTokens(paragraphs[1..], [p], sections + [JoinParagraphs(current)], heading);
      } else {
        GroupedTokens(paragraphs[1..], current + [p], sections, heading);
      }
    }
  }

  lemma NoTexts()
    ensures AllTokens([]) == []
  {
  }

  lemma ClosedSection(sections: seq<string>, current: seq<string>)
    ensures AllTokens(sections + [JoinParagraphs(current)]) == AllTokens(sections) + AllTokens(current)
  {
    hide Tokens, JoinParagraphs, AllTokens;
    JoinedTokens(current);
    OneText(JoinParagraphs(current));
    AllTokensJoin(sections, [JoinParagraphs(current)]);
  }

  lemma {:induction false} RestoresSections(sections: seq<string>, maximum: nat, overlap: nat)
    requires overlap < maximum
    ensures RestoredAll(sections, maximum, overlap) == AllTokens(sections)
  {
    hide Tokens, SectionChunksOf, Restored, Chunked;
    if sections != [] {
      RestoresSections(sections[..|sections| - 1], maximum, overlap);
      SectionRoundTrip(sections[|sections| - 1], maximum, overlap);
    }
  }
}
