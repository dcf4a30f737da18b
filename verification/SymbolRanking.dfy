/** What a page of a symbol search lists and in which order, in terms of the characters of the query and of the
    records alone. */
module SymbolRanking {
  import opened Domain
  import opened SymbolIndex
  import S = SymbolSearch

  // ---------------------------------------------------------------- what matches

  /** `t` is a maximal run of letters and digits of `s`, from `i` to `j`. */
  ghost predicate RunAt(s: string, i: nat, j: nat) {
    && i < j <= |s| && (forall k | i <= k < j :: IsAlnum(s[k]))
    && (i > 0 ==> !IsAlnum(s[i - 1])) && (j < |s| ==> !IsAlnum(s[j]))
  }

  ghost predicate IsWord(s: string, t: string) {
    exists i: nat, j: nat :: RunAt(s, i, j) && s[i..j] == t
  }

  /** Runs do not cross a position next to which there is no letter or digit. */
  lemma ShiftedRun(s: string, n: nat, i: nat, j: nat)
    requires 0 < n <= |s| && (!IsAlnum(s[n - 1]) || n == |s| || !IsAlnum(s[n])) && i < j <= |s| - n
    ensures RunAt(s[n..], i, j) <==> RunAt(s, n + i, n + j)
  {
    if RunAt(s, n + i, n + j) {
      forall k | i <= k < j ensures IsAlnum(s[n..][k]) {
        assert s[n..][k] == s[n + k];
      }
    }
    if RunAt(s[n..], i, j) {
      assert IsAlnum(s[n..][i]);
      forall k | n + i <= k < n + j ensures IsAlnum(s[k]) {
        assert s[n..][k - n] == s[k];
      }
    }
  }

  /** The words behind such a position are the words of the text, but for those that end before it. */
  lemma WordsBehind(s: string, n: nat, t: string)
    requires 0 < n <= |s| && (!IsAlnum(s[n - 1]) || n == |s| || !IsAlnum(s[n]))
    ensures IsWord(s, t) <==> IsWord(s[n..], t) || exists i: nat, j: nat :: i < n && RunAt(s, i, j) && s[i..j] == t
  {
    if i: nat, j: nat :| RunAt(s, i, j) && s[i..j] == t && i >= n {
      RunBounds(s, i, j);
      ShiftedRun(s, n, i - n, j - n);
      assert s[n..][i - n..j - n] == t;
    }
    if i: nat, j: nat :| RunAt(s[n..], i, j) && s[n..][i..j] == t {
      RunBounds(s[n..], i, j);
      ShiftedRun(s, n, i, j);
      assert s[n + i..n + j] == t;
    }
  }

  lemma RunBounds(s: string, i: nat, j: nat)
    requires RunAt(s, i, j)
    ensures i < j <= |s|
  {
  }

  /** The tokens of a text are exactly its maximal runs of letters and digits. */
  lemma {:induction false} TokensAreWords(s: string, t: string)
    ensures t in Tokens(s) <==> IsWord(s, t)
    decreases |s|
  {
    if s != "" {
      if !IsAlnum(s[0]) {
        TokensAreWords(s[1..], t);
        WordsBehind(s, 1, t);
      } else {
        var n := RunLength(s);
        TokensAreWords(s[n..], t);
        WordsBehind(s, n, t);
        assert RunAt(s, 0, n);
        forall i: nat, j: nat | i < n && RunAt(s, i, j) ensures i == 0 && j == n {
        }
        assert s[0..n] == s[..n];
      }
    }
  }

  /** The symbol starts with the query. */
  ghost predicate Begins(r: SymbolRecord, q: string) {
    |q| <= |r.symbol| && forall i | 0 <= i < |q| :: r.symbol[i] == q[i]
  }

  /** The query has a word, and each of its words begins some word of the name. */
  ghost predicate Names(r: SymbolRecord, q: string) {
    (exists t :: IsWord(q, t)) && forall t | IsWord(q, t) :: BeginsWord(r.upperName, t)
  }

  ghost predicate BeginsWord(name: string, t: string) {
    exists n :: IsWord(name, n) && |t| <= |n| && n[..|t|] == t
  }

  lemma BeginsMeans(r: SymbolRecord, q: string)
    ensures StartsWith(r.symbol, q) <==> Begins(r, q)
  {
  }

  lemma NamesMeans(r: SymbolRecord, q: string)
    ensures Names(r, q) <==> Tokens(q) != [] && forall t | t in Tokens(q) :: TokenMatched(t, Tokens(r.upperName))
  {
    hide IsWord;
    assert Tokens(q) != [] ==> Tokens(q)[0] in Tokens(q);
    forall t ensures t in Tokens(q) <==> IsWord(q, t) {
      TokensAreWords(q, t);
    }
    forall n ensures n in Tokens(r.upperName) <==> IsWord(r.upperName, n) {
      TokensAreWords(r.upperName, n);
    }
    forall t ensures TokenMatched(t, Tokens(r.upperName)) <==> BeginsWord(r.upperName, t) {
    }
  }

  // ---------------------------------------------------------------- the order

  /** At the first difference `a` ends or has the smaller character. */
  ghost predicate Precedes(a: string, b: string) {
    exists k: nat :: Differs(a, b, k) && (k == |a| || (k < |b| && a[k] < b[k]))
  }

  ghost predicate Differs(a: string, b: string, k: nat) {
    && k <= |a| && k <= |b| && a[..k] == b[..k]
    && !(k == |a| == |b|) && (k < |a| && k < |b| ==> a[k] != b[k])
  }

  lemma {:induction false} PrecedesMeans(a: string, b: string)
    ensures TextLess(a, b) <==> Precedes(a, b)
  {
    if a != "" && b != "" && a[0] == b[0] {
      PrecedesMeans(a[1..], b[1..]);
      if Precedes(a[1..], b[1..]) {
        var k: nat :| Differs(a[1..], b[1..], k) && (k == |a| - 1 || (k < |b| - 1 && a[1..][k] < b[1..][k]));
        assert a[..k + 1] == [a[0]] + a[1..][..k] && b[..k + 1] == [b[0]] + b[1..][..k];
        assert Differs(a, b, k + 1);
      }
      if Precedes(a, b) {
        var k: nat :| Differs(a, b, k) && (k == |a| || (k < |b| && a[k] < b[k]));
        assert k > 0;
        assert a[1..][..k - 1] == a[..k][1..] && b[1..][..k - 1] == b[..k][1..];
        assert Differs(a[1..], b[1..], k - 1);
      }
    } else if b != "" {
      assert Differs(a, b, 0);
    }
  }

  /** Records whose symbol starts with the query come first; otherwise symbols ascend. */
  ghost predicate Stands(a: SymbolRecord, b: SymbolRecord, q: string) {
    if Begins(a, q) == Begins(b, q) then Precedes(a.symbol, b.symbol) else Begins(a, q)
  }

  ghost predicate Listed(r: SymbolRecord, q: string) {
    Begins(r, q) || Names(r, q)
  }

  lemma MatchMeans(r: SymbolRecord, q: string)
    ensures Matches(r, q) <==> Listed(r, q)
  {
    hide Begins, Names, Tokens, StartsWith, TokenMatched;
    BeginsMeans(r, q);
    NamesMeans(r, q);
  }

  lemma OrderMeans(a: SymbolRecord, b: SymbolRecord, q: string)
    requires Matches(a, q) && Matches(b, q)
    ensures RankedBefore(a, b, q) <==> Stands(a, b, q)
  {
    hide Begins, Names, Tokens, StartsWith, TokenMatched, Precedes, TextLess;
    BeginsMeans(a, q);
    BeginsMeans(b, q);
    PrecedesMeans(a.symbol, b.symbol);
  }

  ghost predicate InStanding(items: seq<SymbolRecord>, q: string) {
    forall i, j | 0 <= i < j < |items| :: Stands(items[i], items[j], q)
  }

  /** The ranking lists exactly the records whose symbol starts with the query or whose name has, for each word of
      the query, a word beginning with it. Those whose symbol starts with the query stand before all others, and
      among each of the two kinds symbols ascend by their first difference. */
  lemma RankMeans(records: seq<SymbolRecord>, q: string)
    requires DistinctSymbols(records)
    ensures forall r :: r in Rank(records, q) <==> r in records && Listed(r, q)
    ensures InStanding(Rank(records, q), q)
  {
    hide Rank, Matches, Listed, RankedBefore, Stands;
    RankCorrect(records, q);
    forall r ensures Matches(r, q) <==> Listed(r, q) {
      MatchMeans(r, q);
    }
    var ranked := Rank(records, q);
    forall i, j | 0 <= i < j < |ranked| ensures Stands(ranked[i], ranked[j], q) {
      assert ranked[i] in ranked && ranked[j] in ranked;
      OrderMeans(ranked[i], ranked[j], q);
    }
  }

  // ---------------------------------------------------------------- pages

  /** `items` are the first ones, within the limit: a record of `candidates` that should be listed and is not has
      a full page of records standing before it. */
  ghost predicate First(items: seq<SymbolRecord>, candidates: set<SymbolRecord>, q: string, limit: nat) {
    && |items| <= limit && InStanding(items, q)
    && forall r | r in candidates && Listed(r, q) && r !in items :: |items| == limit && forall p | p in items :: Stands(p, r, q)
  }

  lemma CutIsFirst(records: seq<SymbolRecord>, q: string, limit: nat)
    requires DistinctSymbols(records)
    ensures First(Cut(Rank(records, q), limit), Elements(records), q, limit)
    ensures forall r | r in Cut(Rank(records, q), limit) :: r in records && Listed(r, q)
  {
    hide Rank, Listed, Stands;
    RankMeans(records, q);
    var ranked := Rank(records, q);
    var items := Cut(ranked, limit);
    forall r | r in items ensures r in ranked {
    }
    forall r | r in Elements(records) && Listed(r, q) && r !in items
      ensures |items| == limit && forall p | p in items :: Stands(p, r, q)
    {
      var j :| 0 <= j < |ranked| && ranked[j] == r;
      assert j >= |items|;
      forall p | p in items ensures Stands(p, r, q) {
        var i :| 0 <= i < |items| && items[i] == p;
        assert ranked[i] == p;
      }
    }
  }

  /** The full scan answers the first listed records of the directory. */
  lemma FullScanMeans(records: seq<SymbolRecord>, q: string, limit: nat)
    requires DistinctSymbols(records)
    ensures First(FullScan(records, q, limit), Elements(records), q, limit)
    ensures forall r | r in FullScan(records, q, limit) :: r in records && Listed(r, q)
  {
    hide Listed, First, Rank, Cut;
    CutIsFirst(records, q, limit);
  }

  ghost predicate HasLongWord(q: string) {
    exists t :: IsWord(q, t) && |t| >= 2
  }

  /** The records the index finds if they are listed. */
  ghost function Findable(records: seq<SymbolRecord>, q: string): set<SymbolRecord> {
    set r | r in records && (HasLongWord(q) || Begins(r, q))
  }

  /** What a search answers: only listed records of its directory, in their standing, within the limit. If the
      query has a word of two characters or more they are the first of all listed records; for every query
      they are the first with respect to the records whose symbol starts with it. */
  lemma PageMeans(d: Directory, q: string, limit: nat, items: seq<SymbolRecord>)
    requires S.Validated(d) && ValidQuery(q) && S.AnswersFrom(d, q, limit, items)
    ensures forall r | r in items :: r in d.records && Listed(r, q)
    ensures First(items, Findable(d.records, q), q, limit)
  {
    hide Listed, Rank, Cut, HasLongToken, Begins, IsWord, Indexed, Stands;
    S.ValidatedIsSearchable(d);
    var collected :| Collected(d.records, q, collected) && items == Cut(Rank(collected, q), limit);
    CutIsFirst(collected, q, limit);
    forall r | r in collected ensures r in d.records {
      IndexedInDirectory(d.records, q, r);
    }
    LongWordMeans(q);
    forall r | r in d.records && (HasLongWord(q) || Begins(r, q)) && Listed(r, q) && r !in items
      ensures |items| == limit && forall p | p in items :: Stands(p, r, q)
    {
      MatchMeans(r, q);
      BeginsMeans(r, q);
      MatchIsIndexed(d.records, q, r);
      assert r in Elements(collected);
    }
  }

  lemma LongWordMeans(q: string)
    ensures HasLongToken(q) <==> HasLongWord(q)
  {
    hide IsWord;
    forall t ensures t in Tokens(q) <==> IsWord(q, t) {
      TokensAreWords(q, t);
    }
  }

  /** So does every answered search of every run, with concurrent refreshes and expiry: it answers from the one
      directory whose manifest it read. */
  lemma AnsweredPageMeans(states: seq<S.System>, events: seq<S.Event>, i: nat, id: nat)
    requires S.Run(false, states, events) && i < |states| && id in states[i].searches && states[i].searches[id].phase.Answered?
    ensures var s := states[i].searches[id]; var d := s.phase.from;
            && (forall r | r in s.phase.items :: r in d.records && Listed(r, s.query))
            && First(s.phase.items, Findable(d.records, s.query), s.query, s.limit)
  {
    hide Listed, First, HasLongWord, Begins, S.Run;
    S.RunKeeps(states, events, i);
    assert S.SearchOk(states[i].searches[id]);
    var s := states[i].searches[id];
    PageMeans(s.phase.from, s.query, s.limit, s.phase.items);
  }
}
