/** From raw search hits to a grounded answer: which hits are accepted, how every candidate is counted,
    and what an answered question rests on.

    The generator's output is arbitrary; the prompt-injection, personal-advice, conflict and lexical
    tests are parameters. Scores are only compared. */
module Grounding {
  import opened Domain

  datatype Evidence = Evidence(
    chunkId: string, text: string, scope: Scope, filingType: string, number: string, gen: string, contentHash: string)

  datatype Hit = Hit(evidence: Evidence, score: real, embedding: string, activeGen: string)

  /** What the hits of one query are checked against. */
  datatype Filter = Filter(
    scope: Scope, embedding: string, active: seq<Manifest>, filingType: Option<string>, minimum: real, maxResults: nat,
    injected: string -> bool)

  datatype Verdict =
    InactiveManifest | DuplicateChunk | MetadataIntegrity | BelowThreshold | PromptInjection | ResultLimit | Accepted

  /** Place `i` is the last one in the list with this generation. */
  ghost predicate LastWith(active: seq<Manifest>, i: nat, gen: string) {
    i < |active| && active[i].gen == gen && forall j | i < j < |active| :: active[j].gen != gen
  }

  /** The manifest of a generation; a later one replaces an earlier one. */
  function ManifestOf(active: seq<Manifest>, gen: string): (r: Option<Manifest>)
    ensures r.Some? ==> exists i: nat :: LastWith(active, i, gen) && active[i] == r.value
    ensures r.None? <==> forall m | m in active :: m.gen != gen
  {
    if active == [] then None
    else
      var rest, last := active[..|active| - 1], active[|active| - 1];
      assert LastWith(active, |rest|, gen) <==> last.gen == gen;
      assert last.gen != gen ==> forall i: nat | LastWith(rest, i, gen) :: LastWith(active, i, gen) && active[i] == rest[i];
      if last.gen == gen then Some(last) else ManifestOf(rest, gen)
  }

  predicate MetadataMatches(f: Filter, m: Manifest, h: Hit) {
    var e := h.evidence;
    && e.scope == f.scope && (f.filingType.Some? ==> e.filingType == f.filingType.value)
    && h.embedding == f.embedding && h.activeGen == e.gen
    && m.accession.number == e.number && m.contentHash == e.contentHash && e.chunkId in m.chunkIds
  }

  /** A hit that belongs to an active manifest, passes the threshold and carries no injected prompt. */
  predicate Eligible(f: Filter, h: Hit) {
    var m := ManifestOf(f.active, h.activeGen);
    m.Some? && MetadataMatches(f, m.value, h) && h.score >= f.minimum && !f.injected(h.evidence.text)
  }

  /** The eligible hits whose chunk no earlier eligible hit shows, in order. */
  function FirstEligible(f: Filter, hits: seq<Hit>): (r: seq<Hit>)
    ensures |r| <= |hits|
  {
    if hits == [] then []
    else
      var before, last := FirstEligible(f, hits[..|hits| - 1]), hits[|hits| - 1];
      if Eligible(f, last) && last.evidence.chunkId !in ChunksOf(before) then before + [last] else before
  }

  function ChunksOf(hits: seq<Hit>): set<string> {
    set h | h in hits :: h.evidence.chunkId
  }

  /** The simple specification of the accepted hits. */
  function AcceptedHits(f: Filter, hits: seq<Hit>): seq<Hit> {
    var eligible := FirstEligible(f, hits);
    if |eligible| <= f.maxResults then eligible else eligible[..f.maxResults]
  }

  /** How the next candidate is classified, given the candidates before it. */
  function VerdictOf(f: Filter, before: seq<Hit>, h: Hit): Verdict {
    var accepted := AcceptedHits(f, before);
    var m := ManifestOf(f.active, h.activeGen);
    if m.None? then InactiveManifest
    else if h.evidence.chunkId in ChunksOf(accepted) then DuplicateChunk
    else if !MetadataMatches(f, m.value, h) then MetadataIntegrity
    else if h.score < f.minimum then BelowThreshold
    else if f.injected(h.evidence.text) then PromptInjection
    else if |accepted| >= f.maxResults then ResultLimit
    else Accepted
  }

  /** How many candidates receive a verdict. */
  function Tally(f: Filter, hits: seq<Hit>, v: Verdict): nat {
    if hits == [] then 0
    else
      var before := hits[..|hits| - 1];
      Tally(f, before, v) + if VerdictOf(f, before, hits[|hits| - 1]) == v then 1 else 0
  }

  datatype Counts = Counts(
    inactive: nat, duplicate: nat, metadata: nat, below: nat, injection: nat, limit: nat)
  {
    function Total(): nat {
      inactive + duplicate + metadata + below + injection + limit
    }
  }

  datatype Classification = Classification(accepted: seq<Hit>, counts: Counts, candidates: nat) {
    /** What the classification constructor accepts, score ranges aside. */
    predicate Valid() {
      |accepted| + counts.Total() == candidates
    }
  }

  /** An accepted candidate extends the accepted hits; any other verdict leaves them. */
  lemma AcceptedNext(f: Filter, before: seq<Hit>, h: Hit)
    ensures AcceptedHits(f, before + [h]) == AcceptedHits(f, before) + if VerdictOf(f, before, h) == Accepted then [h] else []
  {
    assert (before + [h])[..|before|] == before;
    var eligible := FirstEligible(f, before);
    if |eligible| > f.maxResults {
      assert (eligible + [h])[..f.maxResults] == eligible[..f.maxResults];
    }
  }

  // ---------------------------------------------------------------- what is accepted

  /** The hit belongs to the last active manifest of the generation it was found under, is of this scope,
      filing type and embedding, passes the threshold and carries no injected prompt. */
  ghost predicate Acceptable(f: Filter, h: Hit) {
    && (exists i: nat :: LastWith(f.active, i, h.activeGen) && BelongsTo(h, f.active[i]))
    && h.evidence.scope == f.scope && (f.filingType == None || f.filingType == Some(h.evidence.filingType))
    && h.embedding == f.embedding && h.score >= f.minimum && !f.injected(h.evidence.text)
  }

  ghost predicate BelongsTo(h: Hit, m: Manifest) {
    && h.evidence.gen == m.gen && h.evidence.number == m.accession.number && h.evidence.contentHash == m.contentHash
    && exists k :: 0 <= k < |m.chunkIds| && m.chunkIds[k] == h.evidence.chunkId
  }

  lemma AcceptableMeans(f: Filter, h: Hit)
    ensures Eligible(f, h) <==> Acceptable(f, h)
  {
    var m := ManifestOf(f.active, h.activeGen);
    if m.Some? {
      var i: nat :| LastWith(f.active, i, h.activeGen) && f.active[i] == m.value;
      forall j: nat | LastWith(f.active, j, h.activeGen) ensures j == i {
      }
    }
  }

  /** Candidate `i` is acceptable and shows its chunk for the first time among the acceptable ones. */
  ghost predicate Newly(f: Filter, hits: seq<Hit>, i: nat)
    requires i < |hits|
  {
    && Acceptable(f, hits[i])
    && forall j | 0 <= j < i && Acceptable(f, hits[j]) :: hits[j].evidence.chunkId != hits[i].evidence.chunkId
  }

  /** How many of the first `n` candidates are newly acceptable. */
  ghost function NewAmong(f: Filter, hits: seq<Hit>, n: nat): (count: nat)
    requires n <= |hits|
    ensures count <= n
  {
    if n == 0 then 0 else NewAmong(f, hits, n - 1) + if Newly(f, hits, n - 1) then 1 else 0
  }

  ghost predicate Ranked(f: Filter, hits: seq<Hit>, n: nat, found: seq<Hit>)
    requires n <= |hits|
  {
    && |found| == NewAmong(f, hits, n)
    && (forall i: nat | i < n && Newly(f, hits, i) :: NewAmong(f, hits, i) < |found| && found[NewAmong(f, hits, i)] == hits[i])
    && (forall i: nat | i < n && Acceptable(f, hits[i]) :: hits[i].evidence.chunkId in ChunksOf(found))
    && (forall c | c in ChunksOf(found) :: exists i: nat :: i < n && Acceptable(f, hits[i]) && hits[i].evidence.chunkId == c)
  }

  lemma {:induction false} EligibleRanked(f: Filter, hits: seq<Hit>, n: nat)
    requires n <= |hits|
    ensures Ranked(f, hits, n, FirstEligible(f, hits[..n]))
  {
    hide Eligible, Acceptable;
    if n > 0 {
      EligibleRanked(f, hits, n - 1);
      assert hits[..n][..n - 1] == hits[..n - 1];
      AcceptableMeans(f, hits[n - 1]);
      RankedNext(f, hits, n - 1, FirstEligible(f, hits[..n - 1]), FirstEligible(f, hits[..n]));
    }
  }

  lemma NewIsUnseen(f: Filter, hits: seq<Hit>, n: nat, before: seq<Hit>)
    requires n < |hits| && Ranked(f, hits, n, before)
    ensures Newly(f, hits, n) <==> Acceptable(f, hits[n]) && hits[n].evidence.chunkId !in ChunksOf(before)
  {
    hide Acceptable, ChunksOf, NewAmong;
  }

  lemma NewCounted(f: Filter, hits: seq<Hit>, n: nat)
    requires n < |hits|
    ensures NewAmong(f, hits, n + 1) == NewAmong(f, hits, n) + if Newly(f, hits, n) then 1 else 0
  {
    hide Newly;
  }

  lemma RankedNext(f: Filter, hits: seq<Hit>, n: nat, before: seq<Hit>, after: seq<Hit>)
    requires n < |hits| && Ranked(f, hits, n, before)
    requires var isNew := Acceptable(f, hits[n]) && hits[n].evidence.chunkId !in ChunksOf(before);
             after == if isNew then before + [hits[n]] else before
    ensures Ranked(f, hits, n + 1, after)
  {
    hide Acceptable, ChunksOf, Newly, NewAmong;
    NewIsUnseen(f, hits, n, before);
    ChunksNext(before, hits[n]);
    NewCounted(f, hits, n);
    forall c | c in ChunksOf(after) ensures exists i: nat :: i < n + 1 && Acceptable(f, hits[i]) && hits[i].evidence.chunkId == c {
      if c in ChunksOf(before) {
        var i: nat :| i < n && Acceptable(f, hits[i]) && hits[i].evidence.chunkId == c;
        assert i < n + 1;
      }
    }
  }

  /** The accepted hits are the newly acceptable candidates, in their order, up to the result limit: the one
      with `k` newly acceptable candidates before it is accepted as number `k`, and there are no others. */
  lemma AcceptedExactly(f: Filter, hits: seq<Hit>)
    ensures var all, r := NewAmong(f, hits, |hits|), AcceptedHits(f, hits);
            && |r| == (if all <= f.maxResults then all else f.maxResults)
            && forall i: nat | i < |hits| && Newly(f, hits, i) && NewAmong(f, hits, i) < f.maxResults ::
                 NewAmong(f, hits, i) < |r| && r[NewAmong(f, hits, i)] == hits[i]
  {
    hide Newly, FirstEligible, NewAmong, Acceptable;
    EligibleRanked(f, hits, |hits|);
    assert hits[..|hits|] == hits;
  }

  // ---------------------------------------------------------------- every candidate is counted

  lemma TallyNext(f: Filter, hits: seq<Hit>, i: nat, v: Verdict)
    requires i < |hits|
    ensures Tally(f, hits[..i + 1], v) == Tally(f, hits[..i], v) + if VerdictOf(f, hits[..i], hits[i]) == v then 1 else 0
  {
    assert hits[..i + 1][..i] == hits[..i];
  }

  lemma AllTalliesNext(f: Filter, hits: seq<Hit>, i: nat)
    requires i < |hits|
    ensures forall v :: Tally(f, hits[..i + 1], v) == Tally(f, hits[..i], v) + if VerdictOf(f, hits[..i], hits[i]) == v then 1 else 0
  {
    hide Tally;
    forall v ensures Tally(f, hits[..i + 1], v) == Tally(f, hits[..i], v) + if VerdictOf(f, hits[..i], hits[i]) == v then 1 else 0 {
      TallyNext(f, hits, i, v);
    }
  }

  ghost predicate Tallied(f: Filter, hits: seq<Hit>, c: Counts) {
    && c.inactive == Tally(f, hits, InactiveManifest) && c.duplicate == Tally(f, hits, DuplicateChunk)
    && c.metadata == Tally(f, hits, MetadataIntegrity) && c.below == Tally(f, hits, BelowThreshold)
    && c.injection == Tally(f, hits, PromptInjection) && c.limit == Tally(f, hits, ResultLimit)
  }

  /** The classifier's loop: the accepted hits are the first `maxResults` first-occurrence eligible
      candidates, and every candidate is counted in exactly one class. */
  method Classify(f: Filter, hits: seq<Hit>) returns (c: Classification)
    ensures c.accepted == AcceptedHits(f, hits) && c.candidates == |hits| && c.Valid()
    ensures Tallied(f, hits, c.counts) && |c.accepted| == Tally(f, hits, Accepted)
  {
    hide MetadataMatches, ManifestOf, Tally, AcceptedHits;
    var accepted: seq<Hit>, seen: set<string>, i := [], {}, 0;
    var inactive: nat, duplicate: nat, metadata: nat, below: nat, injection: nat, limit: nat := 0, 0, 0, 0, 0, 0;
    NothingClassified(f, hits);
    while i < |hits|
      invariant 0 <= i <= |hits| && accepted == AcceptedHits(f, hits[..i]) && seen == ChunksOf(accepted)
      invariant Tallied(f, hits[..i], Counts(inactive, duplicate, metadata, below, injection, limit))
      invariant |accepted| == Tally(f, hits[..i], Accepted)
      invariant |accepted| + inactive + duplicate + metadata + below + injection + limit == i
    {
      var h := hits[i];
      AllTalliesNext(f, hits, i);
      AcceptedNext(f, hits[..i], h);
      assert hits[..i + 1] == hits[..i] + [h];
      var m := ManifestOf(f.active, h.activeGen);
      if m.None? {
        inactive := inactive + 1;
      } else if h.evidence.chunkId in seen {
        duplicate := duplicate + 1;
      } else if !MetadataMatches(f, m.value, h) {
        metadata := metadata + 1;
      } else if h.score < f.minimum {
        below := below + 1;
      } else if f.injected(h.evidence.text) {
        injection := injection + 1;
      } else if |accepted| >= f.maxResults {
        limit := limit + 1;
      } else {
        ChunksNext(accepted, h);
        accepted, seen := accepted + [h], seen + {h.evidence.chunkId};
      }
      i := i + 1;
    }
    assert hits[..i] == hits;
    c := Classification(accepted, Counts(inactive, duplicate, metadata, below, injection, limit), |hits|);
  }

  lemma ChunksNext(hits: seq<Hit>, h: Hit)
    ensures ChunksOf(hits + [h]) == ChunksOf(hits) + {h.evidence.chunkId}
  {
    assert forall x :: x in hits + [h] <==> x in hits || x == h;
  }

  lemma NothingClassified(f: Filter, hits: seq<Hit>)
    ensures AcceptedHits(f, hits[..0]) == [] && ChunksOf([]) == {} && forall v :: Tally(f, hits[..0], v) == 0
  {
  }

  // ---------------------------------------------------------------- active manifests of the question

  /** Same filing number or same generation. */
  predicate Clashes(a: Manifest, b: Manifest) {
    a.accession.number == b.accession.number || a.gen == b.gen
  }

  /** The manifests of the scope that clash with no manifest kept before them. */
  function SafeOf(scope: Scope, manifests: seq<Manifest>): seq<Manifest> {
    if manifests == [] then []
    else
      var before, last := SafeOf(scope, manifests[..|manifests| - 1]), manifests[|manifests| - 1];
      if last.accession.scope == scope && !exists s | s in before :: Clashes(s, last) then before + [last] else before
  }

  method SafeManifests(scope: Scope, manifests: seq<Manifest>) returns (safe: seq<Manifest>)
    ensures safe == SafeOf(scope, manifests)
  {
    safe := [];
    var numbers: set<string>, gens: set<string>, i := {}, {}, 0;
    while i < |manifests|
      invariant 0 <= i <= |manifests| && safe == SafeOf(scope, manifests[..i])
      invariant forall n :: n in numbers <==> exists s | s in safe :: s.accession.number == n
      invariant forall g :: g in gens <==> exists s | s in safe :: s.gen == g
    {
      var m := manifests[i];
      assert manifests[..i + 1][..i] == manifests[..i];
      assert (exists s | s in safe :: Clashes(s, m)) <==> m.accession.number in numbers || m.gen in gens;
      if !(m.accession.scope != scope || m.accession.number in numbers || m.gen in gens) {
        assert forall s :: s in safe + [m] <==> s in safe || s == m;
        safe, numbers, gens := safe + [m], numbers + {m.accession.number}, gens + {m.gen};
      }
      i := i + 1;
    }
    assert manifests[..i] == manifests;
  }

  predicate ClashFree(manifests: seq<Manifest>) {
    forall i, j | 0 <= i < j < |manifests| :: !Clashes(manifests[i], manifests[j])
  }

  /** The kept manifests are in scope, clash with none of each other, and clash with whatever in scope
      was dropped; a clash-free list in scope is kept whole. */
  lemma SafeOfCorrect(scope: Scope, manifests: seq<Manifest>)
    ensures var safe := SafeOf(scope, manifests);
            && (forall m | m in safe :: m in manifests && m.accession.scope == scope)
            && ClashFree(safe)
            && (forall m | m in manifests && m.accession.scope == scope :: exists s :: s in safe && Clashes(s, m))
            && ((forall m | m in manifests :: m.accession.scope == scope) && ClashFree(manifests) ==> safe == manifests)
  {
    SafeOfSound(scope, manifests);
    SafeOfCovers(scope, manifests);
    SafeOfWhole(scope, manifests);
  }

  lemma SafeNext(scope: Scope, manifests: seq<Manifest>)
    requires manifests != []
    ensures var before, last := SafeOf(scope, manifests[..|manifests| - 1]), manifests[|manifests| - 1];
            && manifests == manifests[..|manifests| - 1] + [last]
            && (var kept := last.accession.scope == scope && forall s | s in before :: !Clashes(s, last);
                SafeOf(scope, manifests) == if kept then before + [last] else before)
  {
  }

  lemma {:induction false} SafeOfSound(scope: Scope, manifests: seq<Manifest>)
    ensures var safe := SafeOf(scope, manifests);
            (forall m | m in safe :: m in manifests && m.accession.scope == scope) && ClashFree(safe)
  {
    if manifests != [] {
      SafeOfSound(scope, manifests[..|manifests| - 1]);
      SafeNext(scope, manifests);
      hide SafeOf, Clashes;
      var before, last, safe := SafeOf(scope, manifests[..|manifests| - 1]), manifests[|manifests| - 1], SafeOf(scope, manifests);
      forall i, j | 0 <= i < j < |safe| ensures !Clashes(safe[i], safe[j]) {
        if j == |before| {
          assert safe[i] in before;
        }
      }
    }
  }

  lemma {:induction false} SafeOfCovers(scope: Scope, manifests: seq<Manifest>)
    ensures forall m | m in manifests && m.accession.scope == scope :: exists s :: s in SafeOf(scope, manifests) && Clashes(s, m)
  {
    if manifests != [] {
      var rest, last, safe := manifests[..|manifests| - 1], manifests[|manifests| - 1], SafeOf(scope, manifests);
      SafeOfCovers(scope, rest);
      SafeNext(scope, manifests);
      ClashesSelf(last);
      hide SafeOf, Clashes;
      forall m | m in manifests && m.accession.scope == scope ensures exists s :: s in safe && Clashes(s, m) {
        if m in rest {
          var s :| s in SafeOf(scope, rest) && Clashes(s, m);
          assert s in safe;
        } else {
          assert m == last;
        }
      }
    }
  }

  lemma ClashesSelf(m: Manifest)
    ensures Clashes(m, m)
  {
  }

  lemma NothingSafe(scope: Scope)
    ensures SafeOf(scope, []) == []
  {
  }

  lemma {:induction false} SafeOfWhole(scope: Scope, manifests: seq<Manifest>)
    ensures (forall m | m in manifests :: m.accession.scope == scope) && ClashFree(manifests) ==> SafeOf(scope, manifests) == manifests
  {
    hide SafeOf, Clashes;
    if manifests == [] {
      NothingSafe(scope);
    } else if (forall m | m in manifests :: m.accession.scope == scope) && ClashFree(manifests) {
      var rest, last := manifests[..|manifests| - 1], manifests[|manifests| - 1];
      SafeOfWhole(scope, rest);
      SafeNext(scope, manifests);
      assert last in manifests && SafeOf(scope, rest) == rest;
      forall s | s in rest ensures !Clashes(s, last) {
        var i :| 0 <= i < |rest| && rest[i] == s;
        assert manifests[i] == s;
      }
    }
  }

  // ---------------------------------------------------------------- grounded claims

  datatype Quote = Quote(chunkId: string, text: string)

  datatype Claim = Claim(text: string, supporting: seq<string>, quotes: seq<Quote>) {
    /** What the claim constructor accepts. */
    predicate Valid() {
      && supporting != [] && Distinct(supporting)
      && (quotes != [] ==> (set q | q in quotes :: q.chunkId) == (set id | id in supporting))
    }
  }

  predicate Contains(text: string, part: string) {
    exists i | 0 <= i <= |text| :: part <= text[i..]
  }

  /** `part` stands somewhere in `text`, character by character. */
  ghost predicate Verbatim(text: string, part: string) {
    exists i: nat, j: nat :: i <= j <= |text| && text[i..j] == part
  }

  lemma ContainsMeans(text: string, part: string)
    ensures Contains(text, part) <==> Verbatim(text, part)
  {
    if i :| 0 <= i <= |text| && part <= text[i..] {
      assert text[i..i + |part|] == text[i..][..|part|];
    }
    if i: nat, j: nat :| i <= j <= |text| && text[i..j] == part {
      assert text[i..][..j - i] == text[i..j];
    }
  }

  /** The tests that the service makes on text with patterns. */
  datatype TextTests = TextTests(personal: string -> bool, conflict: seq<Evidence> -> bool, lexical: (string, seq<string>) -> bool)

  function Selected(evidence: seq<Evidence>): map<string, Evidence> {
    if evidence == [] then map[]
    else Selected(evidence[..|evidence| - 1])[evidence[|evidence| - 1].chunkId := evidence[|evidence| - 1]]
  }

  lemma {:induction false} SelectedCorrect(evidence: seq<Evidence>)
    ensures forall id | id in Selected(evidence) :: Selected(evidence)[id] in evidence && Selected(evidence)[id].chunkId == id
    ensures forall e | e in evidence :: e.chunkId in Selected(evidence)
  {
    if evidence != [] {
      SelectedCorrect(evidence[..|evidence| - 1]);
      assert evidence == evidence[..|evidence| - 1] + [evidence[|evidence| - 1]];
    }
  }

  function QuoteTexts(quotes: seq<Quote>): seq<string> {
    if quotes == [] then [] else QuoteTexts(quotes[..|quotes| - 1]) + [quotes[|quotes| - 1].text]
  }

  /** The claim quotes selected chunks verbatim, cites only selected chunks, and passes the text tests. */
  predicate Grounded(c: Claim, selected: map<string, Evidence>, tests: TextTests) {
    && c.quotes != [] && !tests.personal(c.text)
    && (forall q | q in c.quotes :: q.chunkId in selected && Contains(selected[q.chunkId].text, q.text))
    && (forall id | id in c.supporting :: id in selected)
    && tests.lexical(c.text, QuoteTexts(c.quotes))
  }

  method ClaimsAreGrounded(claims: seq<Claim>, evidence: seq<Evidence>, tests: TextTests) returns (ok: bool)
    ensures ok <==> claims != [] && forall c | c in claims :: Grounded(c, Selected(evidence), tests)
  {
    hide Selected, Contains, QuoteTexts;
    if claims == [] {
      return false;
    }
    var selected, i := Selected(evidence), 0;
    while i < |claims|
      invariant 0 <= i <= |claims| && forall c | c in claims[..i] :: Grounded(c, selected, tests)
    {
      var c := claims[i];
      assert c in claims && claims[..i + 1] == claims[..i] + [c];
      if c.quotes == [] || tests.personal(c.text) {
        return false;
      }
      var quoted: seq<string>, j := [], 0;
      NoQuotes(c.quotes);
      while j < |c.quotes|
        invariant 0 <= j <= |c.quotes| && quoted == QuoteTexts(c.quotes[..j])
        invariant forall q | q in c.quotes[..j] :: q.chunkId in selected && Contains(selected[q.chunkId].text, q.text)
      {
        var q := c.quotes[j];
        assert q in c.quotes && c.quotes[..j + 1] == c.quotes[..j] + [q];
        if q.chunkId !in selected || !Contains(selected[q.chunkId].text, q.text) {
          return false;
        }
        QuotesNext(c.quotes, j);
        quoted := quoted + [q.text];
        j := j + 1;
      }
      assert c.quotes[..j] == c.quotes;
      if exists id | id in c.supporting :: id !in selected {
        return false;
      }
      if !tests.lexical(c.text, quoted) {
        return false;
      }
      i := i + 1;
    }
    assert claims[..i] == claims;
    return true;
  }

  lemma NoQuotes(quotes: seq<Quote>)
    ensures QuoteTexts(quotes[..0]) == []
  {
  }

  lemma QuotesNext(quotes: seq<Quote>, j: nat)
    requires j < |quotes|
    ensures QuoteTexts(quotes[..j + 1]) == QuoteTexts(quotes[..j]) + [quotes[j].text]
  {
    assert quotes[..j + 1][..j] == quotes[..j];
  }

  // ---------------------------------------------------------------- the answer

  /** Every chunk ID the claims support themselves with, in order. */
  function Referenced(claims: seq<Claim>): seq<string> {
    if claims == [] then [] else claims[0].supporting + Referenced(claims[1..])
  }

  /** Each ID once, at its first place. */
  function Unique(ids: seq<string>): (r: seq<string>)
    ensures Distinct(r) && forall id :: id in r <==> id in ids
  {
    if ids == [] then []
    else
      var before := Unique(ids[..|ids| - 1]);
      assert ids == ids[..|ids| - 1] + [ids[|ids| - 1]];
      if ids[|ids| - 1] in before then before else before + [ids[|ids| - 1]]
  }

  lemma {:induction false} ReferencedIds(claims: seq<Claim>)
    ensures forall id :: id in Referenced(claims) <==> exists c :: c in claims && id in c.supporting
  {
    if claims != [] {
      ReferencedIds(claims[1..]);
      forall id ensures id in Referenced(claims) <==> exists c :: c in claims && id in c.supporting {
        if id in claims[0].supporting {
          assert claims[0] in claims;
        } else if id in Referenced(claims[1..]) {
          var c :| c in claims[1..] && id in c.supporting;
          assert c in claims;
        }
      }
    }
  }

  datatype Generated = Answers(claims: seq<Claim>) | Insufficient | Refusal

  datatype Answer = Answered(claims: seq<Claim>, citations: seq<Evidence>) | InsufficientEvidence | Refused | CorpusUnavailable

  /** The evidence is a chunk of a listed active manifest of exactly this symbol and corpus. */
  predicate FromActive(scope: Scope, listed: seq<Manifest>, e: Evidence) {
    && e.scope == scope
    && exists m | m in listed :: && m.accession.scope == scope && m.gen == e.gen && m.accession.number == e.number
                                 && m.contentHash == e.contentHash && e.chunkId in m.chunkIds
  }

  /** What an answered question rests on: every claim quotes verbatim from, and cites only, accepted
      chunks of listed active manifests, and the citations are exactly the cited chunks, in the order of their first references. */
  ghost predicate RestsOn(scope: Scope, listed: seq<Manifest>, accepted: seq<Hit>, claims: seq<Claim>, citations: seq<Evidence>) {
    && claims != [] && citations != []
    && (forall h | h in accepted :: FromActive(scope, listed, h.evidence))
    && (forall c | c in claims :: QuotesAccepted(accepted, c))
    && CitesExactly(accepted, claims, citations)
    && CitesInOrder(claims, citations)
  }

  /** The claim has quotes, each found verbatim in an accepted chunk. */
  ghost predicate QuotesAccepted(accepted: seq<Hit>, c: Claim) {
    && c.quotes != []
    && forall q | q in c.quotes ::
         exists h :: h in accepted && h.evidence.chunkId == q.chunkId && Verbatim(h.evidence.text, q.text)
  }

  /** The citations are accepted chunks, each once, and exactly those the claims refer to. */
  ghost predicate CitesExactly(accepted: seq<Hit>, claims: seq<Claim>, citations: seq<Evidence>) {
    && (forall c, id | c in claims && id in c.supporting :: exists e :: e in citations && e.chunkId == id)
    && (forall e | e in citations :: (exists h :: h in accepted && h.evidence == e) && exists c :: c in claims && e.chunkId in c.supporting)
    && (forall i, j | 0 <= i < j < |citations| :: citations[i].chunkId != citations[j].chunkId)
  }

  /** Claim `a` refers to this chunk at place `k`. */
  ghost predicate RefersAt(claims: seq<Claim>, a: nat, k: nat, id: string) {
    a < |claims| && k < |claims[a].supporting| && claims[a].supporting[k] == id
  }

  /** Claim by claim and place by place, the first reference to a citation comes before any reference to a
      later one. */
  ghost predicate CitesInOrder(claims: seq<Claim>, citations: seq<Evidence>) {
    forall i, j | 0 <= i < j < |citations| :: ReferredFirst(claims, citations[i].chunkId, citations[j].chunkId)
  }

  ghost predicate ReferredFirst(claims: seq<Claim>, earlier: string, later: string) {
    exists a: nat, k: nat :: RefersAt(claims, a, k, earlier) && BeforeAll(claims, a, k, later)
  }

  ghost predicate BeforeAll(claims: seq<Claim>, a: nat, k: nat, id: string) {
    forall b: nat, l: nat | RefersAt(claims, b, l, id) :: a < b || (a == b && k < l)
  }

  /** The number of references made by the first `a` claims. */
  ghost function Offset(claims: seq<Claim>, a: nat): nat
    requires a <= |claims|
  {
    if a == 0 then 0 else Offset(claims, a - 1) + |claims[a - 1].supporting|
  }

  lemma {:induction false} OffsetTail(claims: seq<Claim>, a: nat)
    requires claims != [] && a < |claims|
    ensures Offset(claims, a + 1) == |claims[0].supporting| + Offset(claims[1..], a)
  {
    if a > 0 {
      OffsetTail(claims, a - 1);
    }
  }

  /** Each reference has its place in the list of all references. */
  lemma {:induction false} ReferenceAt(claims: seq<Claim>, a: nat, k: nat)
    requires a < |claims| && k < |claims[a].supporting|
    ensures Offset(claims, a) + k < |Referenced(claims)|
    ensures Referenced(claims)[Offset(claims, a) + k] == claims[a].supporting[k]
  {
    if a > 0 {
      ReferenceAt(claims[1..], a - 1, k);
      OffsetTail(claims, a - 1);
    }
  }

  lemma {:induction false} ReferenceOf(claims: seq<Claim>, p: nat) returns (a: nat, k: nat)
    requires p < |Referenced(claims)|
    ensures a < |claims| && k < |claims[a].supporting| && p == Offset(claims, a) + k
  {
    if p < |claims[0].supporting| {
      a, k := 0, p;
    } else {
      a, k := ReferenceOf(claims[1..], p - |claims[0].supporting|);
      OffsetTail(claims, a);
      a := a + 1;
    }
  }

  lemma {:induction false} OffsetGrows(claims: seq<Claim>, a: nat, b: nat)
    requires a < b <= |claims|
    ensures Offset(claims, a) + |claims[a].supporting| <= Offset(claims, b)
  {
    if a < b - 1 {
      OffsetGrows(claims, a, b - 1);
    }
  }

  /** Of the IDs kept once, an earlier one stands before every occurrence of a later one. */
  lemma {:induction false} UniqueInOrder(ids: seq<string>, i: nat, j: nat) returns (p: nat)
    requires i < j < |Unique(ids)|
    ensures p < |ids| && ids[p] == Unique(ids)[i] && forall q | 0 <= q < |ids| && ids[q] == Unique(ids)[j] :: p < q
  {
    var rest, last := ids[..|ids| - 1], ids[|ids| - 1];
    assert ids == rest + [last];
    if j < |Unique(rest)| {
      p := UniqueInOrder(rest, i, j);
    } else {
      assert Unique(ids) == Unique(rest) + [last] && Unique(ids)[i] in Unique(rest);
      p :| 0 <= p < |rest| && rest[p] == Unique(ids)[i];
      assert forall q | 0 <= q < |rest| :: rest[q] in Unique(rest);
    }
  }

  lemma CitationsInOrder(claims: seq<Claim>, citations: seq<Evidence>)
    requires var ids := Unique(Referenced(claims));
             |citations| == |ids| && forall i | 0 <= i < |ids| :: citations[i].chunkId == ids[i]
    ensures CitesInOrder(claims, citations)
  {
    hide Unique, Referenced, Offset;
    forall i, j | 0 <= i < j < |citations| ensures ReferredFirst(claims, citations[i].chunkId, citations[j].chunkId) {
      var p := UniqueInOrder(Referenced(claims), i, j);
      var a, k := ReferenceOf(claims, p);
      ReferenceAt(claims, a, k);
      forall b: nat, l: nat | RefersAt(claims, b, l, citations[j].chunkId) ensures a < b || (a == b && k < l) {
        ReferenceAt(claims, b, l);
        if b < a {
          OffsetGrows(claims, b, a);
        }
      }
      assert RefersAt(claims, a, k, citations[i].chunkId) && BeforeAll(claims, a, k, citations[j].chunkId);
    }
  }

  function EvidenceOf(hits: seq<Hit>): (r: seq<Evidence>)
    ensures |r| == |hits| && forall i | 0 <= i < |hits| :: r[i] == hits[i].evidence
  {
    if hits == [] then [] else EvidenceOf(hits[..|hits| - 1]) + [hits[|hits| - 1].evidence]
  }

  function Cited(ids: seq<string>, selected: map<string, Evidence>): (r: seq<Evidence>)
    requires forall id | id in ids :: id in selected
    ensures |r| == |ids| && forall i | 0 <= i < |ids| :: r[i] == selected[ids[i]]
  {
    if ids == [] then [] else Cited(ids[..|ids| - 1], selected) + [selected[ids[|ids| - 1]]]
  }

  lemma {:induction false} AcceptedEligible(f: Filter, hits: seq<Hit>)
    ensures forall h | h in FirstEligible(f, hits) :: h in hits && Eligible(f, h)
    ensures forall i, j | 0 <= i < j < |FirstEligible(f, hits)| ::
      FirstEligible(f, hits)[i].evidence.chunkId != FirstEligible(f, hits)[j].evidence.chunkId
  {
    hide Eligible;
    if hits != [] {
      AcceptedEligible(f, hits[..|hits| - 1]);
      assert hits == hits[..|hits| - 1] + [hits[|hits| - 1]];
    }
  }

  /** Accepted hits come from the kept active manifests. */
  lemma AcceptedFromActive(f: Filter, listed: seq<Manifest>, hits: seq<Hit>)
    requires f.active == SafeOf(f.scope, listed)
    ensures forall h | h in AcceptedHits(f, hits) :: FromActive(f.scope, listed, h.evidence)
  {
    AcceptedEligible(f, hits);
    SafeOfCorrect(f.scope, listed);
    hide FirstEligible, SafeOf, ClashFree;
    forall h | h in AcceptedHits(f, hits) ensures FromActive(f.scope, listed, h.evidence) {
      assert h in FirstEligible(f, hits);
    }
  }

  /** There is something to answer from: a kept manifest, a matching embedding, and accepted hits whose
      evidence is free of conflict. */
  predicate EvidenceStands(f: Filter, hits: seq<Hit>, embeddingMatches: bool, tests: TextTests) {
    && f.active != [] && embeddingMatches
    && AcceptedHits(f, hits) != [] && !tests.conflict(EvidenceOf(AcceptedHits(f, hits)))
  }

  /** The question pipeline after its arguments were checked: what was listed as active, what the
      search returned, and what the generator said are inputs. */
  method QueryResearch(question: string, f: Filter, listed: seq<Manifest>, hits: seq<Hit>, embeddingMatches: bool,
                       generated: Generated, tests: TextTests) returns (answer: Answer)
    requires f.active == SafeOf(f.scope, listed)
    requires generated.Answers? ==> generated.claims != [] && forall c | c in generated.claims :: c.Valid()
    ensures answer.Answered? ==>
              generated == Answers(answer.claims)
              && RestsOn(f.scope, listed, AcceptedHits(f, hits), answer.claims, answer.citations)
    ensures answer == CorpusUnavailable <==> !tests.personal(question) && f.active == []
    ensures answer == Refused <==>
              || tests.personal(question)
              || (EvidenceStands(f, hits, embeddingMatches, tests) && generated == Refusal)
    ensures answer.Answered? <==>
              && !tests.personal(question) && EvidenceStands(f, hits, embeddingMatches, tests)
              && generated.Answers? && forall c | c in generated.claims :: Grounded(c, Selected(EvidenceOf(AcceptedHits(f, hits))), tests)
  {
    hide AcceptedHits, SafeOf, Selected, Contains, FromActive, Unique, Referenced, Tallied, Distinct;
    if tests.personal(question) {
      return Refused;
    }
    if f.active == [] {
      return CorpusUnavailable;
    }
    if !embeddingMatches {
      return InsufficientEvidence;
    }
    var classified := Classify(f, hits);
    var evidence := EvidenceOf(classified.accepted);
    if evidence == [] || tests.conflict(evidence) {
      return InsufficientEvidence;
    }
    match generated
    case Refusal => return Refused;
    case Insufficient => return InsufficientEvidence;
    case Answers(claims) =>
      var grounded := ClaimsAreGrounded(claims, evidence, tests);
      if !grounded {
        return InsufficientEvidence;
      }
      var ids := Unique(Referenced(claims));
      ReferencedIds(claims);
      var citations := Cited(ids, Selected(evidence));
      AcceptedFromActive(f, listed, hits);
      AnswerRests(f.scope, listed, classified.accepted, claims, citations, tests);
      return Answered(claims, citations);
  }

  lemma AnswerRests(scope: Scope, listed: seq<Manifest>, accepted: seq<Hit>, claims: seq<Claim>, citations: seq<Evidence>, tests: TextTests)
    requires claims != [] && forall h | h in accepted :: FromActive(scope, listed, h.evidence)
    requires var selected := Selected(EvidenceOf(accepted));
             && (forall c | c in claims :: c.Valid() && Grounded(c, selected, tests))
             && (forall id | id in Unique(Referenced(claims)) :: id in selected)
             && citations == Cited(Unique(Referenced(claims)), selected)
    ensures RestsOn(scope, listed, accepted, claims, citations)
  {
    hide Selected, EvidenceOf, Contains, FromActive, Unique, Referenced, Distinct, Grounded, Cited;
    forall c | c in claims ensures QuotesAccepted(accepted, c) {
      GroundedQuotes(accepted, c, tests);
    }
    CitationsExact(accepted, claims, citations);
    CitationIds(accepted, claims, citations);
    CitationsInOrder(claims, citations);
    SomethingCited(claims);
  }

  lemma CitationIds(accepted: seq<Hit>, claims: seq<Claim>, citations: seq<Evidence>)
    requires var selected := Selected(EvidenceOf(accepted));
             && (forall id | id in Unique(Referenced(claims)) :: id in selected)
             && citations == Cited(Unique(Referenced(claims)), selected)
    ensures var ids := Unique(Referenced(claims));
            |citations| == |ids| && forall i | 0 <= i < |ids| :: citations[i].chunkId == ids[i]
  {
    hide Selected, EvidenceOf, Unique, Referenced, Cited;
    SelectedCorrect(EvidenceOf(accepted));
  }

  lemma SomethingCited(claims: seq<Claim>)
    requires claims != [] && claims[0].Valid()
    ensures Unique(Referenced(claims)) != []
  {
    hide Unique;
    assert claims[0].supporting[0] in Referenced(claims);
  }

  lemma GroundedQuotes(accepted: seq<Hit>, c: Claim, tests: TextTests)
    requires Grounded(c, Selected(EvidenceOf(accepted)), tests)
    ensures QuotesAccepted(accepted, c)
  {
    hide Selected, EvidenceOf, Contains, Verbatim;
    var selected := Selected(EvidenceOf(accepted));
    SelectedCorrect(EvidenceOf(accepted));
    forall q | q in c.quotes
      ensures exists h :: h in accepted && h.evidence.chunkId == q.chunkId && Verbatim(h.evidence.text, q.text)
    {
      EvidenceHasHit(accepted, selected[q.chunkId]);
      ContainsMeans(selected[q.chunkId].text, q.text);
    }
  }

  lemma CitationsExact(accepted: seq<Hit>, claims: seq<Claim>, citations: seq<Evidence>)
    requires var selected := Selected(EvidenceOf(accepted));
             && (forall id | id in Unique(Referenced(claims)) :: id in selected)
             && citations == Cited(Unique(Referenced(claims)), selected)
    ensures CitesExactly(accepted, claims, citations)
  {
    hide Selected, EvidenceOf, Unique, Referenced, Cited;
    var selected, ids := Selected(EvidenceOf(accepted)), Unique(Referenced(claims));
    SelectedCorrect(EvidenceOf(accepted));
    ReferencedIds(claims);
    forall c, id | c in claims && id in c.supporting ensures exists e :: e in citations && e.chunkId == id {
      assert id in ids;
      var i :| 0 <= i < |ids| && ids[i] == id;
      assert citations[i] in citations && citations[i].chunkId == id;
    }
    forall e | e in citations
      ensures (exists h :: h in accepted && h.evidence == e) && exists c :: c in claims && e.chunkId in c.supporting
    {
      var i :| 0 <= i < |citations| && citations[i] == e;
      assert ids[i] in ids && ids[i] in Referenced(claims) && e.chunkId == ids[i];
      EvidenceHasHit(accepted, e);
    }
    forall i, j | 0 <= i < j < |citations| ensures citations[i].chunkId != citations[j].chunkId {
      assert ids[i] in ids && ids[j] in ids;
    }
  }

  lemma EvidenceHasHit(hits: seq<Hit>, e: Evidence)
    requires e in EvidenceOf(hits)
    ensures exists h :: h in hits && h.evidence == e
  {
    var i :| 0 <= i < |EvidenceOf(hits)| && EvidenceOf(hits)[i] == e;
    assert hits[i] in hits;
  }
}
