/** The two-character prefix index over a symbol directory, and its agreement with a full ranked scan.

    Text is upper case ASCII where it is matched; a record carries its name as upper-cased by
    the platform. A directory has one record per symbol, so ranking orders by rank and symbol. */
module SymbolIndex {
  import opened Domain

  datatype SymbolRecord = SymbolRecord(symbol: string, name: string, upperName: string, exchange: string) {
    /** The symbol pattern of the record model. */
    predicate Valid() {
      1 <= |symbol| <= 32 && IsAlnum(symbol[0]) && forall i | 0 <= i < |symbol| :: IsSymbolChar(symbol[i])
    }
  }

  predicate IsAlnum(c: char) {
    'A' <= c <= 'Z' || '0' <= c <= '9'
  }

  predicate IsSymbolChar(c: char) {
    IsAlnum(c) || c == '.' || c == '-'
  }

  /** A validated query: 2 to 32 letters, digits, dots, hyphens and spaces. */
  predicate ValidQuery(q: string) {
    2 <= |q| <= 32 && forall i | 0 <= i < |q| :: IsSymbolChar(q[i]) || q[i] == ' '
  }

  predicate StartsWith(s: string, prefix: string) {
    prefix <= s
  }

  // ---------------------------------------------------------------- tokens and prefixes

  /** The length of the run of letters and digits at the start of `s`. */
  function RunLength(s: string): (n: nat)
    ensures n <= |s| && (forall i | 0 <= i < n :: IsAlnum(s[i])) && (n < |s| ==> !IsAlnum(s[n]))
  {
    if s != "" && IsAlnum(s[0]) then 1 + RunLength(s[1..]) else 0
  }

  /** The maximal runs of letters and digits, in order. */
  function Tokens(s: string): (r: seq<string>)
    ensures forall t | t in r :: t != "" && forall i | 0 <= i < |t| :: IsAlnum(t[i])
    decreases |s|
  {
    if s == "" then []
    else if !IsAlnum(s[0]) then Tokens(s[1..])
    else [s[..RunLength(s)]] + Tokens(s[RunLength(s)..])
  }

  predicate BucketPattern(p: string) {
    |p| == 2 && IsAlnum(p[0]) && IsSymbolChar(p[1])
  }

  function LongPrefixes(tokens: seq<string>): set<string> {
    set t | t in tokens && |t| >= 2 :: t[..2]
  }

  function FirstTwo(s: string): set<string> {
    if |s| >= 2 then {s[..2]} else {}
  }

  function RecordPrefixes(r: SymbolRecord): set<string> {
    set p | p in FirstTwo(r.symbol) + LongPrefixes(Tokens(r.upperName)) && BucketPattern(p)
  }

  function QueryPrefixes(q: string): set<string> {
    set p | p in FirstTwo(q) + LongPrefixes(Tokens(q)) && BucketPattern(p)
  }

  // ---------------------------------------------------------------- ranking

  predicate TokenMatched(t: string, nameTokens: seq<string>) {
    exists n | n in nameTokens :: StartsWith(n, t)
  }

  function Score(r: SymbolRecord, q: string): nat {
    var tokens := Tokens(q);
    if StartsWith(r.symbol, q) then 0
    else if tokens != [] && forall t | t in tokens :: TokenMatched(t, Tokens(r.upperName)) then 1
    else 9
  }

  predicate Matches(r: SymbolRecord, q: string) {
    Score(r, q) < 9
  }

  /** Code-point order. */
  predicate TextLess(a: string, b: string) {
    if b == "" then false
    else if a == "" then true
    else a[0] < b[0] || (a[0] == b[0] && TextLess(a[1..], b[1..]))
  }

  lemma {:induction false} TextLessTotal(a: string, b: string)
    ensures a == b || TextLess(a, b) || TextLess(b, a)
    ensures !(TextLess(a, b) && TextLess(b, a)) && !TextLess(a, a)
  {
    if a != "" && b != "" {
      TextLessTotal(a[1..], b[1..]);
      TextLessTotal(a[1..], a[1..]);
      assert a == [a[0]] + a[1..] && b == [b[0]] + b[1..];
    } else if a != "" {
      TextLessTotal(a[1..], a[1..]);
    }
  }

  lemma {:induction false} TextLessTransitive(a: string, b: string, c: string)
    requires TextLess(a, b) && TextLess(b, c)
    ensures TextLess(a, c)
  {
    if a != "" && a[0] == b[0] && b[0] == c[0] {
      TextLessTransitive(a[1..], b[1..], c[1..]);
    }
  }

  /** Before in the ranking of query `q`: by rank, then by symbol. */
  predicate RankedBefore(a: SymbolRecord, b: SymbolRecord, q: string) {
    Score(a, q) < Score(b, q) || (Score(a, q) == Score(b, q) && TextLess(a.symbol, b.symbol))
  }

  predicate DistinctSymbols(s: seq<SymbolRecord>) {
    forall i, j | 0 <= i < j < |s| :: s[i].symbol != s[j].symbol
  }

  function Insert(r: SymbolRecord, s: seq<SymbolRecord>, q: string): seq<SymbolRecord> {
    if s == [] || RankedBefore(r, s[0], q) then [r] + s else [s[0]] + Insert(r, s[1..], q)
  }

  /** The matching records in ranking order. */
  function Rank(records: seq<SymbolRecord>, q: string): seq<SymbolRecord> {
    if records == [] then []
    else if Matches(records[0], q) then Insert(records[0], Rank(records[1..], q), q)
    else Rank(records[1..], q)
  }

  ghost predicate InOrder(s: seq<SymbolRecord>, q: string) {
    forall i, j | 0 <= i < j < |s| :: RankedBefore(s[i], s[j], q)
  }

  lemma BeforeTotal(a: SymbolRecord, b: SymbolRecord, q: string)
    requires a.symbol != b.symbol
    ensures RankedBefore(a, b, q) <==> !RankedBefore(b, a, q)
  {
    TextLessTotal(a.symbol, b.symbol);
  }

  lemma BeforeTransitive(a: SymbolRecord, b: SymbolRecord, c: SymbolRecord, q: string)
    requires RankedBefore(a, b, q) && RankedBefore(b, c, q)
    ensures RankedBefore(a, c, q)
  {
    if TextLess(a.symbol, b.symbol) && TextLess(b.symbol, c.symbol) {
      TextLessTransitive(a.symbol, b.symbol, c.symbol);
    }
  }

  lemma {:induction false} InsertInOrder(r: SymbolRecord, s: seq<SymbolRecord>, q: string)
    requires InOrder(s, q) && forall x | x in s :: x.symbol != r.symbol
    ensures InOrder(Insert(r, s, q), q) && forall x :: x in Insert(r, s, q) <==> x == r || x in s
  {
    hide RankedBefore;
    if s == [] {
    } else if RankedBefore(r, s[0], q) {
      forall j | 0 <= j < |s| ensures RankedBefore(r, s[j], q) {
        if j > 0 {
          BeforeTransitive(r, s[0], s[j], q);
        }
      }
    } else {
      InsertInOrder(r, s[1..], q);
      BeforeTotal(r, s[0], q);
      var rest := Insert(r, s[1..], q);
      forall j | 0 <= j < |rest| ensures RankedBefore(s[0], rest[j], q) {
        assert rest[j] in rest;
        if rest[j] != r {
          var i :| 0 <= i < |s[1..]| && s[1..][i] == rest[j];
          assert s[i + 1] == rest[j];
        }
      }
    }
  }

  /** The ranking lists exactly the matching records, each before every later one. */
  lemma {:induction false} RankCorrect(records: seq<SymbolRecord>, q: string)
    requires DistinctSymbols(records)
    ensures InOrder(Rank(records, q), q)
    ensures forall x :: x in Rank(records, q) <==> x in records && Matches(x, q)
  {
    hide Matches;
    if records != [] {
      RankCorrect(records[1..], q);
      assert forall x :: x in records <==> x == records[0] || x in records[1..];
      if Matches(records[0], q) {
        forall x | x in Rank(records[1..], q) ensures x.symbol != records[0].symbol {
          var i :| 0 <= i < |records[1..]| && records[1..][i] == x;
          assert records[i + 1] == x;
        }
        InsertInOrder(records[0], Rank(records[1..], q), q);
      }
    }
  }

  /** An ordered list is determined by its elements. */
  lemma {:induction false} OrderUnique(a: seq<SymbolRecord>, b: seq<SymbolRecord>, q: string)
    requires InOrder(a, q) && InOrder(b, q) && forall x :: x in a <==> x in b
    ensures a == b
  {
    assert (a != [] ==> a[0] in a) && (b != [] ==> b[0] in b);
    if a != [] && b != [] {
      FirstUnique(a, b, q);
      forall x ensures x in a[1..] <==> x in b[1..] {
        TailElements(a, x, q);
        TailElements(b, x, q);
      }
      OrderUnique(a[1..], b[1..], q);
      assert a == [a[0]] + a[1..] && b == [b[0]] + b[1..];
    }
  }

  lemma TailElements(a: seq<SymbolRecord>, x: SymbolRecord, q: string)
    requires a != [] && InOrder(a, q)
    ensures x in a[1..] <==> x in a && x != a[0]
  {
    TextLessTotal(a[0].symbol, a[0].symbol);
    if x in a[1..] {
      var i :| 0 <= i < |a[1..]| && a[1..][i] == x;
      assert a[i + 1] == x && RankedBefore(a[0], a[i + 1], q);
    }
  }

  lemma FirstUnique(a: seq<SymbolRecord>, b: seq<SymbolRecord>, q: string)
    requires a != [] && b != [] && InOrder(a, q) && InOrder(b, q) && forall x :: x in a <==> x in b
    ensures a[0] == b[0]
  {
    if a[0] != b[0] {
      assert b[0] in a && a[0] in b;
      var i :| 0 <= i < |a| && a[i] == b[0];
      var j :| 0 <= j < |b| && b[j] == a[0];
      assert RankedBefore(a[0], a[i], q) && RankedBefore(b[0], b[j], q);
      TextLessTotal(a[0].symbol, b[0].symbol);
    }
  }

  // ---------------------------------------------------------------- the index

  /** A moment; only one with a time zone is accepted. */
  datatype Moment = Moment(utc: real, aware: bool)

  datatype Directory = Directory(records: seq<SymbolRecord>, source: string, asOf: Moment)

  /** The records listed under prefix `p`, in directory order. */
  function Bucket(records: seq<SymbolRecord>, p: string): (b: seq<SymbolRecord>)
    ensures forall r :: r in b <==> r in records && p in RecordPrefixes(r)
  {
    if records == [] then []
    else (if p in RecordPrefixes(records[0]) then [records[0]] else []) + Bucket(records[1..], p)
  }

  function AllPrefixes(records: seq<SymbolRecord>): set<string> {
    set r, p | r in records && p in RecordPrefixes(r) :: p
  }

  /** Adds the records of a bucket to what was collected: one record per symbol, the last one read. */
  function Collect(collected: seq<SymbolRecord>, bucket: seq<SymbolRecord>): seq<SymbolRecord>
    decreases |bucket|
  {
    if bucket == [] then collected else Collect(Put(collected, bucket[0]), bucket[1..])
  }

  function Put(collected: seq<SymbolRecord>, r: SymbolRecord): seq<SymbolRecord> {
    if collected == [] then [r]
    else if collected[0].symbol == r.symbol then [r] + collected[1..]
    else [collected[0]] + Put(collected[1..], r)
  }

  predicate Consistent(records: seq<SymbolRecord>) {
    forall r, s | r in records && s in records && r.symbol == s.symbol :: r == s
  }

  lemma {:induction false} PutElements(records: seq<SymbolRecord>, collected: seq<SymbolRecord>, r: SymbolRecord)
    requires Consistent(records) && DistinctSymbols(collected) && r in records && forall x | x in collected :: x in records
    ensures DistinctSymbols(Put(collected, r)) && forall x :: x in Put(collected, r) <==> x == r || x in collected
  {
    if collected != [] {
      var first, others := collected[0], collected[1..];
      assert first in collected && collected == [first] + others;
      if first.symbol == r.symbol {
        assert first == r;
      } else {
        PutElements(records, others, r);
        var rest := Put(others, r);
        forall x | x in rest ensures x.symbol != first.symbol {
          if x in others {
            var i :| 0 <= i < |others| && others[i] == x;
            assert collected[i + 1] == x;
          }
        }
        DistinctHead(first, rest);
      }
    }
  }

  lemma DistinctHead(first: SymbolRecord, rest: seq<SymbolRecord>)
    requires DistinctSymbols(rest) && forall x | x in rest :: x.symbol != first.symbol
    ensures DistinctSymbols([first] + rest)
  {
  }

  lemma {:induction false} CollectElements(records: seq<SymbolRecord>, collected: seq<SymbolRecord>, bucket: seq<SymbolRecord>)
    requires Consistent(records) && DistinctSymbols(collected)
    requires (forall x | x in collected :: x in records) && (forall x | x in bucket :: x in records)
    ensures DistinctSymbols(Collect(collected, bucket))
    ensures forall x :: x in Collect(collected, bucket) <==> x in collected || x in bucket
    decreases |bucket|
  {
    if bucket != [] {
      PutElements(records, collected, bucket[0]);
      assert forall x :: x in bucket <==> x == bucket[0] || x in bucket[1..];
      CollectElements(records, Put(collected, bucket[0]), bucket[1..]);
    }
  }

  lemma DistinctIsConsistent(records: seq<SymbolRecord>)
    requires DistinctSymbols(records)
    ensures Consistent(records)
  {
  }

  /** The records a query's buckets hold. */
  ghost predicate Indexed(records: seq<SymbolRecord>, q: string, r: SymbolRecord) {
    r in records && exists p :: p in QueryPrefixes(q) && p in RecordPrefixes(r)
  }

  predicate HasLongToken(q: string) {
    exists t | t in Tokens(q) :: |t| >= 2
  }

  /** A matching record is in a bucket of the query when the query has a token of two characters or
      more, or when its symbol matches. */
  lemma MatchIsIndexed(records: seq<SymbolRecord>, q: string, r: SymbolRecord)
    requires ValidQuery(q) && r in records && r.Valid() && Matches(r, q) && (HasLongToken(q) || StartsWith(r.symbol, q))
    ensures Indexed(records, q, r)
  {
    if StartsWith(r.symbol, q) {
      assert r.symbol[..2] == q[..2] && BucketPattern(q[..2]);
      assert q[..2] in QueryPrefixes(q) && q[..2] in RecordPrefixes(r);
    } else {
      var t :| t in Tokens(q) && |t| >= 2;
      assert TokenMatched(t, Tokens(r.upperName));
      var n :| n in Tokens(r.upperName) && StartsWith(n, t);
      assert n[..2] == t[..2] && BucketPattern(t[..2]);
      assert t[..2] in QueryPrefixes(q) && n[..2] in RecordPrefixes(r);
    }
  }

  function Cut(s: seq<SymbolRecord>, limit: nat): seq<SymbolRecord> {
    if |s| <= limit then s else s[..limit]
  }

  /** The simple specification: rank the whole directory and cut. */
  function FullScan(records: seq<SymbolRecord>, q: string, limit: nat): seq<SymbolRecord> {
    Cut(Rank(records, q), limit)
  }

  /** Ranking any duplicate-free list of exactly the indexed records gives the full scan's answer when
      the query has a token of two characters or more; for every query it returns only records the
      full scan matches too. */
  lemma IndexAgrees(records: seq<SymbolRecord>, q: string, collected: seq<SymbolRecord>, limit: nat)
    requires ValidQuery(q) && DistinctSymbols(records) && (forall r | r in records :: r.Valid())
    requires DistinctSymbols(collected) && forall r :: r in collected <==> Indexed(records, q, r)
    ensures HasLongToken(q) ==> Cut(Rank(collected, q), limit) == FullScan(records, q, limit)
    ensures forall r | r in Cut(Rank(collected, q), limit) :: r in Rank(records, q)
  {
    RankCorrect(records, q);
    RankCorrect(collected, q);
    hide Rank, Matches, Indexed, InOrder, HasLongToken;
    forall x | x in Rank(collected, q) ensures x in Rank(records, q) {
      IndexedInDirectory(records, q, x);
    }
    if HasLongToken(q) {
      forall x | x in Rank(records, q) ensures x in Rank(collected, q) {
        MatchIsIndexed(records, q, x);
      }
      OrderUnique(Rank(collected, q), Rank(records, q), q);
    }
  }

  lemma IndexedInDirectory(records: seq<SymbolRecord>, q: string, r: SymbolRecord)
    requires Indexed(records, q, r)
    ensures r in records
  {
  }

  // ---------------------------------------------------------------- exactly which queries agree

  /** `collected` lists exactly the records of the query's buckets. */
  ghost predicate Collected(records: seq<SymbolRecord>, q: string, collected: seq<SymbolRecord>) {
    DistinctSymbols(collected) && forall r :: r in collected <==> Indexed(records, q, r)
  }

  ghost predicate Searchable(records: seq<SymbolRecord>) {
    DistinctSymbols(records) && forall r | r in records :: r.Valid()
  }

  ghost predicate AlwaysAgrees(q: string) {
    forall records, collected, limit: nat | Searchable(records) && Collected(records, q, collected) ::
      Cut(Rank(collected, q), limit) == FullScan(records, q, limit)
  }

  /** The index answers as the full scan on every directory exactly for the queries that have a token
      of two characters or more, or no token at all. */
  lemma AgreementExact(q: string)
    requires ValidQuery(q)
    ensures AlwaysAgrees(q) <==> HasLongToken(q) || Tokens(q) == []
  {
    if HasLongToken(q) || Tokens(q) == [] {
      forall records, collected, limit: nat | Searchable(records) && Collected(records, q, collected)
        ensures Cut(Rank(collected, q), limit) == FullScan(records, q, limit)
      {
        if HasLongToken(q) {
          IndexAgrees(records, q, collected, limit);
        } else {
          NoTokenNoMatch(records, q);
          CollectedValid(records, q, collected);
          NoTokenNoMatch(collected, q);
        }
      }
    } else {
      ShortTokensMiss(q);
    }
  }

  lemma CollectedValid(records: seq<SymbolRecord>, q: string, collected: seq<SymbolRecord>)
    requires Searchable(records) && Collected(records, q, collected)
    ensures Searchable(collected)
  {
    forall r | r in collected ensures r.Valid() {
      assert Indexed(records, q, r);
    }
  }

  lemma {:induction false} NoTokenNoMatch(records: seq<SymbolRecord>, q: string)
    requires ValidQuery(q) && (forall r | r in records :: r.Valid()) && Tokens(q) == []
    ensures Rank(records, q) == []
  {
    hide Matches;
    if records != [] {
      NoTokenNotMatched(records[0], q);
      NoTokenNoMatch(records[1..], q);
    }
  }

  lemma NoTokenNotMatched(r: SymbolRecord, q: string)
    requires ValidQuery(q) && r.Valid() && Tokens(q) == []
    ensures !Matches(r, q)
  {
    assert !IsAlnum(q[0]);
    PrefixFirst(r.symbol, q);
  }

  lemma PrefixFirst(s: string, prefix: string)
    ensures prefix != "" && StartsWith(s, prefix) ==> s != "" && s[0] == prefix[0]
  {
  }

  lemma LettersMakeLongToken(q: string)
    requires |q| >= 2
    ensures IsAlnum(q[0]) && IsAlnum(q[1]) ==> HasLongToken(q)
  {
    if IsAlnum(q[0]) && IsAlnum(q[1]) {
      assert RunLength(q) == 1 + RunLength(q[1..]) && RunLength(q[1..]) >= 1;
      assert q[..RunLength(q)] in Tokens(q);
    }
  }

  /** A directory whose only record is named by one-letter words: the scan finds it, the index not. */
  lemma ShortTokensMiss(q: string)
    requires ValidQuery(q) && Tokens(q) != [] && !HasLongToken(q)
    ensures !AlwaysAgrees(q)
  {
    var r := SymbolRecord("ZZ", q, q, "X");
    LettersMakeLongToken(q);
    assert q[..2][0] == q[0] && q[..2][1] == q[1];
    assert r.symbol[..2] == "ZZ";
    assert !Indexed([r], q, r);
    forall t | t in Tokens(q) ensures TokenMatched(t, Tokens(r.upperName)) {
      assert StartsWith(t, t);
    }
    assert Matches(r, q);
    assert Searchable([r]) && Collected([r], q, []);
    assert Rank([r], q) == [r];
    assert Cut(Rank([], q), 1) != FullScan([r], q, 1);
  }
}
