/** The symbol search service over its cache, alone and under concurrent refreshes.

    A generation is the digest of a directory, so a bucket key is the directory and a prefix. Any cache
    entry may expire at any moment. The order in which a query's buckets are read is left open. */
module SymbolSearch {
  import opened Domain
  import opened SymbolIndex

  const MAX_RECORDS := 100_000
  const MAX_BUCKETS := 2_000

  datatype DirectoryManifest = DirectoryManifest(directory: Directory, prefixes: set<string>)

  datatype BucketKey = BucketKey(directory: Directory, prefix: string)

  datatype Cache = Cache(manifest: Option<DirectoryManifest>, buckets: map<BucketKey, seq<SymbolRecord>>)

  predicate SortedBySymbol(records: seq<SymbolRecord>) {
    forall i, j | 0 <= i < j < |records| :: TextLess(records[i].symbol, records[j].symbol)
  }

  predicate IsSourceChar(c: char) {
    'a' <= c <= 'z' || '0' <= c <= '9'
  }

  /** A source name: up to eighty lower-case letters, digits and hyphens, not starting with a hyphen. */
  predicate SourcePattern(s: string) {
    0 < |s| <= 80 && IsSourceChar(s[0]) && forall c | c in s :: IsSourceChar(c) || c == '-'
  }

  /** The checks made on a manifest read from the cache. */
  predicate ManifestAccepted(m: DirectoryManifest) {
    && 0 < |m.prefixes| <= MAX_BUCKETS && (forall p | p in m.prefixes :: BucketPattern(p))
    && SourcePattern(m.directory.source) && m.directory.asOf.aware
  }

  /** A directory that passed validation, normalization and the bucket limits. */
  predicate Validated(d: Directory) {
    && 0 < |d.records| <= MAX_RECORDS && SortedBySymbol(d.records)
    && (forall r | r in d.records :: r.Valid())
    && SourcePattern(d.source) && d.asOf.aware
    && 0 < |AllPrefixes(d.records)| <= MAX_BUCKETS
  }

  lemma ValidatedIsSearchable(d: Directory)
    requires Validated(d)
    ensures Searchable(d.records) && SymbolIndex.Consistent(d.records)
  {
    forall i, j | 0 <= i < j < |d.records| ensures d.records[i].symbol != d.records[j].symbol {
      TextLessTotal(d.records[i].symbol, d.records[j].symbol);
    }
    DistinctIsConsistent(d.records);
  }

  /** The checks made on a bucket read from the cache. */
  predicate BucketAccepted(bucket: seq<SymbolRecord>, prefix: string) {
    && 0 < |bucket| <= MAX_RECORDS && DistinctSymbols(bucket)
    && forall r | r in bucket :: r.Valid() && prefix in RecordPrefixes(r)
  }

  function Relevant(m: DirectoryManifest, q: string): set<string> {
    QueryPrefixes(q) * m.prefixes
  }

  /** What the index answers from one directory: the ranking of exactly the query's buckets, cut. */
  ghost predicate AnswersFrom(d: Directory, q: string, limit: nat, items: seq<SymbolRecord>) {
    exists collected :: Collected(d.records, q, collected) && items == Cut(Rank(collected, q), limit)
  }

  /** Such an answer is the full scan's whenever the query has a token of two characters or more, and
      never returns what the full scan would not match. */
  lemma AnswerMeansFullScan(d: Directory, q: string, limit: nat, items: seq<SymbolRecord>)
    requires Validated(d) && ValidQuery(q) && AnswersFrom(d, q, limit, items)
    ensures HasLongToken(q) ==> items == FullScan(d.records, q, limit)
    ensures forall r | r in items :: r in d.records && Matches(r, q)
  {
    ValidatedIsSearchable(d);
    var collected :| Collected(d.records, q, collected) && items == Cut(Rank(collected, q), limit);
    IndexAgrees(d.records, q, collected, limit);
    RankCorrect(d.records, q);
  }

  // ---------------------------------------------------------------- reading buckets

  /** What was collected from the buckets of `read`. */
  ghost predicate CollectedFrom(d: Directory, read: set<string>, collected: seq<SymbolRecord>) {
    && DistinctSymbols(collected)
    && forall r :: r in collected <==> r in d.records && exists p :: p in read && p in RecordPrefixes(r)
  }

  lemma CollectNext(d: Directory, read: set<string>, collected: seq<SymbolRecord>, p: string)
    requires Validated(d) && CollectedFrom(d, read, collected)
    ensures CollectedFrom(d, read + {p}, Collect(collected, Bucket(d.records, p)))
  {
    ValidatedIsSearchable(d);
    CollectElements(d.records, collected, Bucket(d.records, p));
    var after := Collect(collected, Bucket(d.records, p));
    forall r ensures r in after <==> r in d.records && exists o :: o in read + {p} && o in RecordPrefixes(r) {
      if r in Bucket(d.records, p) {
        assert p in read + {p} && p in RecordPrefixes(r);
      } else if r in collected {
        var o :| o in read && o in RecordPrefixes(r);
        assert o in read + {p};
      }
    }
  }

  lemma CollectedAll(d: Directory, q: string, collected: seq<SymbolRecord>)
    requires CollectedFrom(d, QueryPrefixes(q) * AllPrefixes(d.records), collected)
    ensures Collected(d.records, q, collected)
  {
    forall r ensures r in collected <==> Indexed(d.records, q, r) {
      if Indexed(d.records, q, r) {
        var p :| p in QueryPrefixes(q) && p in RecordPrefixes(r);
        assert p in QueryPrefixes(q) * AllPrefixes(d.records);
      }
    }
  }

  lemma {:induction false} BucketLength(records: seq<SymbolRecord>, p: string)
    ensures |Bucket(records, p)| <= |records|
    ensures SortedBySymbol(records) ==> SortedBySymbol(Bucket(records, p))
  {
    hide RecordPrefixes, TextLess;
    if records != [] {
      BucketLength(records[1..], p);
      if SortedBySymbol(records) {
        assert SortedBySymbol(records[1..]);
        var rest := Bucket(records[1..], p);
        forall i | 0 <= i < |rest| ensures TextLess(records[0].symbol, rest[i].symbol) {
          assert rest[i] in rest;
          var j :| 0 <= j < |records[1..]| && records[1..][j] == rest[i];
          assert records[j + 1] == rest[i];
        }
      }
    }
  }

  /** A bucket written by a refresh passes the checks of a search. */
  lemma WrittenBucketAccepted(d: Directory, p: string)
    requires Validated(d) && p in AllPrefixes(d.records)
    ensures BucketAccepted(Bucket(d.records, p), p)
  {
    var bucket := Bucket(d.records, p);
    BucketLength(d.records, p);
    var r :| r in d.records && p in RecordPrefixes(r);
    assert r in bucket;
    forall i, j | 0 <= i < j < |bucket| ensures bucket[i].symbol != bucket[j].symbol {
      TextLessTotal(bucket[i].symbol, bucket[j].symbol);
    }
  }

  /** So does the manifest it writes last. */
  lemma WrittenManifestAccepted(d: Directory)
    requires Validated(d)
    ensures ManifestAccepted(DirectoryManifest(d, AllPrefixes(d.records)))
  {
  }

  // ---------------------------------------------------------------- the service alone

  datatype Answer =
    | Unavailable
    | Page(items: seq<SymbolRecord>, total: nat, limit: nat, source: string, asOf: Moment, stale: bool)

  class SymbolSearchService {
    var manifest: Option<DirectoryManifest>
    var buckets: map<BucketKey, seq<SymbolRecord>>

    constructor ()
      ensures manifest == None && buckets == map[]
    {
      manifest, buckets := None, map[];
    }

    /** Writes every bucket of the generation, then the manifest; an invalid directory writes nothing. */
    method RefreshDirectory(d: Directory) returns (ok: bool)
      modifies this
      ensures ok <==> Validated(d)
      ensures !ok ==> manifest == old(manifest) && buckets == old(buckets)
      ensures ok ==>
                && manifest == Some(DirectoryManifest(d, AllPrefixes(d.records)))
                && (forall p | p in AllPrefixes(d.records) ::
                      BucketKey(d, p) in buckets && buckets[BucketKey(d, p)] == Bucket(d.records, p))
                && (forall k | k in old(buckets) && k.directory != d :: k in buckets && buckets[k] == old(buckets)[k])
    {
      hide Validated, AllPrefixes, Bucket, RecordPrefixes;
      if !Validated(d) {
        return false;
      }
      var todo := AllPrefixes(d.records);
      while todo != {}
        invariant todo <= AllPrefixes(d.records) && manifest == old(manifest)
        invariant forall p | p in AllPrefixes(d.records) - todo ::
          BucketKey(d, p) in buckets && buckets[BucketKey(d, p)] == Bucket(d.records, p)
        invariant forall k | k in old(buckets) && k.directory != d :: k in buckets && buckets[k] == old(buckets)[k]
        decreases todo
      {
        var p :| p in todo;
        buckets := buckets[BucketKey(d, p) := Bucket(d.records, p)];
        todo := todo - {p};
      }
      manifest := Some(DirectoryManifest(d, AllPrefixes(d.records)));
      return true;
    }

    /** Every bucket in the cache is the one its generation's refresh writes. */
    ghost predicate Coherent()
      reads this
    {
      && (manifest.Some? ==> Validated(manifest.value.directory) && manifest.value.prefixes == AllPrefixes(manifest.value.directory.records))
      && forall k | k in buckets :: buckets[k] == Bucket(k.directory.records, k.prefix)
    }

    /** Reads the manifest and the query's buckets; a missing entry fails closed. `staleManifest` and
        `staleBuckets` say which entries the cache calls stale when they are read. */
    method SearchSymbols(q: string, limit: nat, staleManifest: bool, staleBuckets: set<BucketKey>) returns (answer: Answer)
      requires ValidQuery(q) && Coherent()
      ensures answer.Unavailable? <==>
                manifest.None? || exists p :: p in Relevant(manifest.value, q) && BucketKey(manifest.value.directory, p) !in buckets
      ensures answer.Page? ==>
                var d := manifest.value.directory;
                && AnswersFrom(d, q, limit, answer.items)
                && answer.total == |answer.items| <= limit && answer.limit == limit
                && answer.source == d.source && answer.asOf == d.asOf
                && (answer.stale <==> staleManifest || exists p :: p in Relevant(manifest.value, q) && BucketKey(d, p) in staleBuckets)
    {
      hide Validated, AllPrefixes, Bucket, RecordPrefixes, QueryPrefixes, BucketAccepted, Rank, CollectedFrom, Collect,
           Collected, ValidQuery, ManifestAccepted;
      if manifest.None? {
        return Unavailable;
      }
      var m := manifest.value;
      ghost var d := m.directory;
      WrittenManifestAccepted(d);
      if !ManifestAccepted(m) {
        return Unavailable;
      }
      var todo, collected, stale := Relevant(m, q), [], false;
      assert Relevant(m, q) - todo == {};
      NothingCollected(d);
      while todo != {}
        invariant todo <= Relevant(m, q) && CollectedFrom(d, Relevant(m, q) - todo, collected)
        invariant forall p | p in Relevant(m, q) - todo :: BucketKey(d, p) in buckets
        invariant stale <==> exists p :: p in Relevant(m, q) - todo && BucketKey(d, p) in staleBuckets
        decreases todo
      {
        var p :| p in todo;
        var key := BucketKey(m.directory, p);
        if key !in buckets {
          return Unavailable;
        }
        WrittenBucketAccepted(d, p);
        if !BucketAccepted(buckets[key], p) {
          return Unavailable;
        }
        CollectNext(d, Relevant(m, q) - todo, collected, p);
        assert Relevant(m, q) - (todo - {p}) == Relevant(m, q) - todo + {p};
        collected := Collect(collected, buckets[key]);
        stale := stale || key in staleBuckets;
        todo := todo - {p};
      }
      assert Relevant(m, q) - todo == QueryPrefixes(q) * AllPrefixes(d.records);
      assert Relevant(m, q) - todo == Relevant(m, q);
      CollectedAll(d, q, collected);
      var items := Cut(Rank(collected, q), limit);
      return Page(items, |items|, limit, m.directory.source, m.directory.asOf, staleManifest || stale);
    }
  }

  // ---------------------------------------------------------------- concurrent refreshes and searches

  /** A refresh between two cache writes: the buckets still to write, then the manifest. */
  datatype Refresh = Writing(directory: Directory, todo: set<string>) | Written(directory: Directory)

  datatype Failure = NoManifest | BadManifest | NoBucket | BadBucket

  datatype Phase =
    | Start
    | Reading(read: DirectoryManifest, todo: set<string>, collected: seq<SymbolRecord>)
    | Answered(from: Directory, items: seq<SymbolRecord>)
    | Failed(why: Failure)

  datatype Search = Search(query: string, limit: nat, phase: Phase)

  datatype System = System(cache: Cache, refreshes: map<nat, Refresh>, searches: map<nat, Search>)

  datatype Event =
    | BeginRefresh(id: nat, directory: Directory)
    | RefreshStep(id: nat, prefix: string)
    | BeginSearch(id: nat, query: string, limit: nat)
    | SearchStep(id: nat, prefix: string)
    | BucketExpires(key: BucketKey)
    | ManifestExpires

  /** `durable` excludes the expiry of cache entries. */
  predicate Enabled(durable: bool, s: System, e: Event) {
    match e
    case BeginRefresh(id, d) => id !in s.refreshes && Validated(d)
    case RefreshStep(id, p) =>
      id in s.refreshes && s.refreshes[id].Writing? && (s.refreshes[id].todo == {} || p in s.refreshes[id].todo)
    case BeginSearch(id, q, _) => id !in s.searches && ValidQuery(q)
    case SearchStep(id, p) =>
      && id in s.searches
      && (s.searches[id].phase.Reading? ==> s.searches[id].phase.todo == {} || p in s.searches[id].phase.todo)
    case BucketExpires(k) => !durable && k in s.cache.buckets
    case ManifestExpires => !durable
  }

  function Next(s: System, e: Event): System
    requires Enabled(false, s, e)
  {
    match e
    case BeginRefresh(id, d) => s.(refreshes := s.refreshes[id := Writing(d, AllPrefixes(d.records))])
    case RefreshStep(id, p) =>
      var r := s.refreshes[id];
      var d := r.directory;
      if r.todo == {} then
        s.(cache := s.cache.(manifest := Some(DirectoryManifest(d, AllPrefixes(d.records)))),
           refreshes := s.refreshes[id := Written(d)])
      else
        s.(cache := s.cache.(buckets := s.cache.buckets[BucketKey(d, p) := Bucket(d.records, p)]),
           refreshes := s.refreshes[id := Writing(d, r.todo - {p})])
    case BeginSearch(id, q, limit) => s.(searches := s.searches[id := Search(q, limit, Start)])
    case SearchStep(id, p) => s.(searches := s.searches[id := SearchNext(s.cache, s.searches[id], p)])
    case BucketExpires(k) => s.(cache := s.cache.(buckets := s.cache.buckets - {k}))
    case ManifestExpires => s.(cache := s.cache.(manifest := None))
  }

  /** One cache read of a search. */
  function SearchNext(cache: Cache, search: Search, p: string): Search {
    match search.phase
    case Start =>
      search.(phase := if cache.manifest.None? then Failed(NoManifest)
                       else if !ManifestAccepted(cache.manifest.value) then Failed(BadManifest)
                       else Reading(cache.manifest.value, Relevant(cache.manifest.value, search.query), []))
    case Reading(m, todo, collected) =>
      var key := BucketKey(m.directory, p);
      search.(phase := if todo == {} then Answered(m.directory, Cut(Rank(collected, search.query), search.limit))
                       else if key !in cache.buckets then Failed(NoBucket)
                       else if !BucketAccepted(cache.buckets[key], p) then Failed(BadBucket)
                       else Reading(m, todo - {p}, Collect(collected, cache.buckets[key])))
    case Answered(_, _) => search
    case Failed(_) => search
  }

  predicate Initial(s: System) {
    s == System(Cache(None, map[]), map[], map[])
  }

  predicate Run(durable: bool, states: seq<System>, events: seq<Event>) {
    && |states| == |events| + 1
    && Initial(states[0])
    && forall i | 0 <= i < |events| :: Enabled(durable, states[i], events[i]) && states[i + 1] == Next(states[i], events[i])
  }

  ghost predicate Named(m: DirectoryManifest) {
    Validated(m.directory) && m.prefixes == AllPrefixes(m.directory.records)
  }

  ghost predicate CacheOk(c: Cache) {
    && (c.manifest.Some? ==> Named(c.manifest.value))
    && forall k | k in c.buckets :: c.buckets[k] == Bucket(k.directory.records, k.prefix)
  }

  ghost predicate RefreshOk(r: Refresh) {
    Validated(r.directory) && (r.Writing? ==> r.todo <= AllPrefixes(r.directory.records))
  }

  ghost predicate SearchOk(s: Search) {
    && ValidQuery(s.query)
    && match s.phase
       case Start => true
       case Reading(m, todo, collected) =>
         Named(m) && todo <= Relevant(m, s.query) && CollectedFrom(m.directory, Relevant(m, s.query) - todo, collected)
       case Answered(d, items) => Validated(d) && AnswersFrom(d, s.query, s.limit, items)
       case Failed(why) => why != BadBucket && why != BadManifest
  }

  ghost predicate SystemOk(s: System) {
    && CacheOk(s.cache)
    && (forall id | id in s.refreshes :: RefreshOk(s.refreshes[id]))
    && (forall id | id in s.searches :: SearchOk(s.searches[id]))
  }

  lemma SearchNextOk(cache: Cache, s: Search, p: string)
    requires CacheOk(cache) && SearchOk(s)
    requires s.phase.Reading? ==> s.phase.todo == {} || p in s.phase.todo
    ensures SearchOk(SearchNext(cache, s, p))
  {
    hide Validated, RecordPrefixes, QueryPrefixes, AllPrefixes, BucketAccepted, CollectedFrom, Bucket, Rank, ValidQuery,
         ManifestAccepted;
    match s.phase
    case Start =>
      if cache.manifest.Some? {
        var m := cache.manifest.value;
        assert Relevant(m, s.query) - Relevant(m, s.query) == {};
        NothingCollected(m.directory);
        WrittenManifestAccepted(m.directory);
      }
    case Reading(m, todo, collected) =>
      var d := m.directory;
      if todo == {} {
        assert Relevant(m, s.query) - todo == QueryPrefixes(s.query) * AllPrefixes(d.records);
        CollectedAll(d, s.query, collected);
        assert AnswersFrom(d, s.query, s.limit, Cut(Rank(collected, s.query), s.limit));
      } else {
        WrittenBucketAccepted(d, p);
        CollectNext(d, Relevant(m, s.query) - todo, collected, p);
        assert Relevant(m, s.query) - (todo - {p}) == Relevant(m, s.query) - todo + {p};
      }
    case _ =>
  }

  lemma NothingCollected(d: Directory)
    ensures CollectedFrom(d, {}, [])
  {
  }

  lemma EventKeeps(s: System, e: Event)
    requires SystemOk(s) && Enabled(false, s, e)
    ensures SystemOk(Next(s, e))
  {
    hide Validated, SearchOk, SearchNext, AllPrefixes, Bucket;
    match e
    case SearchStep(id, p) => SearchStepKeeps(s, id, p);
    case BeginSearch(id, q, limit) => FreshSearchOk(q, limit);
    case _ =>
  }

  lemma SearchStepKeeps(s: System, id: nat, p: string)
    requires SystemOk(s) && Enabled(false, s, SearchStep(id, p))
    ensures SystemOk(Next(s, SearchStep(id, p)))
  {
    hide SearchOk, SearchNext, CacheOk, RefreshOk;
    SearchNextOk(s.cache, s.searches[id], p);
  }

  lemma FreshSearchOk(q: string, limit: nat)
    requires ValidQuery(q)
    ensures SearchOk(Search(q, limit, Start))
  {
  }

  lemma {:induction false} RunKeeps(states: seq<System>, events: seq<Event>, i: nat)
    requires Run(false, states, events) && i < |states|
    ensures SystemOk(states[i])
  {
    if i > 0 {
      RunKeeps(states, events, i - 1);
      hide SystemOk, Next;
      EventKeeps(states[i - 1], events[i - 1]);
    }
  }

  /** In step `j` search `id` read a manifest naming `d`. */
  ghost predicate ReadManifest(states: seq<System>, events: seq<Event>, j: nat, id: nat, d: Directory) {
    && j < |events| < |states| && events[j].SearchStep? && events[j].id == id
    && id in states[j].searches && states[j].searches[id].phase == Start
    && states[j].cache.manifest.Some? && states[j].cache.manifest.value.directory == d
  }

  /** An answered search answers from exactly the directory its manifest read named, whatever was
      refreshed or expired meanwhile: the full scan of that directory when the query has a token of two
      characters or more, never a mixture. No search fails on a malformed manifest or bucket. */
  lemma SearchIsSnapshot(states: seq<System>, events: seq<Event>, i: nat, id: nat)
    requires Run(false, states, events) && i < |states| && id in states[i].searches
    ensures var s := states[i].searches[id];
            s.phase.Answered? ==>
              && (exists j :: 0 <= j < i && ReadManifest(states, events, j, id, s.phase.from))
              && AnswersFrom(s.phase.from, s.query, s.limit, s.phase.items)
              && (HasLongToken(s.query) ==> s.phase.items == FullScan(s.phase.from.records, s.query, s.limit))
              && forall r | r in s.phase.items :: r in s.phase.from.records && Matches(r, s.query)
    ensures states[i].searches[id].phase != Failed(BadBucket) && states[i].searches[id].phase != Failed(BadManifest)
  {
    RunKeeps(states, events, i);
    var s := states[i].searches[id];
    assert SearchOk(s);
    if s.phase.Answered? {
      hide SystemOk, SearchOk, Run;
      AnswerMeansFullScan(s.phase.from, s.query, s.limit, s.phase.items);
      FromManifest(states, events, i, id, s.phase.from);
    }
  }

  ghost predicate Uses(s: Search, d: Directory) {
    (s.phase.Reading? && s.phase.read.directory == d) || (s.phase.Answered? && s.phase.from == d)
  }

  lemma {:induction false} FromManifest(states: seq<System>, events: seq<Event>, i: nat, id: nat, d: Directory)
    requires Run(false, states, events) && i < |states| && id in states[i].searches && Uses(states[i].searches[id], d)
    ensures exists j :: 0 <= j < i && ReadManifest(states, events, j, id, d)
  {
    hide Validated, Relevant, BucketAccepted, ManifestAccepted;
    assert i > 0;
    assert Enabled(false, states[i - 1], events[i - 1]) && states[i] == Next(states[i - 1], events[i - 1]);
    if ReadManifest(states, events, i - 1, id, d) {
    } else {
      FromManifest(states, events, i - 1, id, d);
    }
  }

  // ---------------------------------------------------------------- without expiry

  ghost predicate Present(c: Cache, d: Directory, prefixes: set<string>) {
    forall p | p in prefixes :: BucketKey(d, p) in c.buckets
  }

  /** The manifest is written last: whatever it names is in the cache. */
  ghost predicate DurableOk(s: System) {
    && (s.cache.manifest.Some? ==>
          && Named(s.cache.manifest.value)
          && Present(s.cache, s.cache.manifest.value.directory, s.cache.manifest.value.prefixes))
    && (forall id | id in s.refreshes && s.refreshes[id].Writing? ::
          Present(s.cache, s.refreshes[id].directory, AllPrefixes(s.refreshes[id].directory.records) - s.refreshes[id].todo)
          && Validated(s.refreshes[id].directory))
    && (forall id | id in s.searches ::
          && (s.searches[id].phase.Reading? ==> Present(s.cache, s.searches[id].phase.read.directory, s.searches[id].phase.todo))
          && s.searches[id].phase != Failed(NoBucket))
  }

  lemma DurableKeeps(s: System, e: Event)
    requires DurableOk(s) && Enabled(true, s, e)
    ensures DurableOk(Next(s, e))
  {
    hide Validated, AllPrefixes, Bucket, BucketAccepted, Rank, QueryPrefixes, Collect, ManifestAccepted;
    match e
    case BeginRefresh(id, d) => assert AllPrefixes(d.records) - AllPrefixes(d.records) == {};
    case RefreshStep(id, p) =>
      var r := s.refreshes[id];
      if r.todo == {} {
        assert AllPrefixes(r.directory.records) - r.todo == AllPrefixes(r.directory.records);
      }
    case _ =>
  }

  /** When no cache entry expires, a search fails only because no manifest was there to read. */
  lemma {:induction false} DurableSearchSucceeds(states: seq<System>, events: seq<Event>, i: nat, id: nat)
    requires Run(true, states, events) && i < |states| && id in states[i].searches && states[i].searches[id].phase.Failed?
    ensures states[i].searches[id].phase == Failed(NoManifest)
  {
    DurableRun(states, events, i);
    RunKeeps(states, events, i);
    assert SearchOk(states[i].searches[id]);
  }

  lemma {:induction false} DurableRun(states: seq<System>, events: seq<Event>, i: nat)
    requires Run(true, states, events) && i < |states|
    ensures DurableOk(states[i]) && Run(false, states, events)
  {
    hide DurableOk, Next;
    if i == 0 {
      EmptyDurable(states[0]);
    } else {
      DurableRun(states, events, i - 1);
      DurableKeeps(states[i - 1], events[i - 1]);
    }
  }

  // ---------------------------------------------------------------- searches end

  ghost function ReadsLeft(p: Phase): nat {
    match p
    case Start => MAX_BUCKETS + 2
    case Reading(_, todo, _) => |todo| + 1
    case _ => 0
  }

  /** Every step of an unfinished search decides: it fails exactly when there is no manifest to read or the bucket
      it reads is missing, it answers exactly when every bucket it needs was read, and otherwise one bucket
      fewer is left. */
  lemma SearchDecides(states: seq<System>, events: seq<Event>, i: nat, id: nat, p: string)
    requires Run(false, states, events) && i < |states| && Enabled(false, states[i], SearchStep(id, p))
    requires states[i].searches[id].phase.Start? || states[i].searches[id].phase.Reading?
    ensures var c := states[i].cache; var s := states[i].searches[id]; var t := Next(states[i], SearchStep(id, p)).searches[id];
            && t.query == s.query && t.limit == s.limit
            && (t.phase == Failed(NoManifest) <==> s.phase.Start? && c.manifest.None?)
            && (t.phase == Failed(NoBucket) <==>
                  s.phase.Reading? && s.phase.todo != {} && BucketKey(s.phase.read.directory, p) !in c.buckets)
            && (t.phase.Answered? <==> s.phase.Reading? && s.phase.todo == {})
            && (!t.phase.Answered? && !t.phase.Failed? ==> ReadsLeft(t.phase) < ReadsLeft(s.phase))
            && (s.phase.Start? && t.phase.Reading? ==> t.phase.read == c.manifest.value && t.phase.todo == Relevant(c.manifest.value, s.query))
  {
    hide Run, Validated, AllPrefixes, Bucket, BucketAccepted, Rank, QueryPrefixes, Collect, ManifestAccepted, RecordPrefixes, CollectedFrom;
    RunKeeps(states, events, i);
    var c, s := states[i].cache, states[i].searches[id];
    assert SearchOk(s);
    SearchNextOk(c, s, p);
    if s.phase.Start? && c.manifest.Some? {
      NamedIsAccepted(c.manifest.value, s.query);
    } else if s.phase.Reading? && s.phase.todo != {} && BucketKey(s.phase.read.directory, p) in c.buckets {
      assert p in AllPrefixes(s.phase.read.directory.records);
      WrittenBucketAccepted(s.phase.read.directory, p);
    }
  }

  lemma NamedIsAccepted(m: DirectoryManifest, q: string)
    requires Named(m)
    ensures ManifestAccepted(m) && |Relevant(m, q)| <= MAX_BUCKETS
  {
    hide AllPrefixes, QueryPrefixes;
    WrittenManifestAccepted(m.directory);
    SubsetSize(Relevant(m, q), m.prefixes);
  }

  lemma EmptyDurable(s: System)
    requires Initial(s)
    ensures DurableOk(s)
  {
  }
}
