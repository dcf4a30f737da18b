/** What the scripts alone guarantee, with no timing assumption: any number of workers, any lease
    expiring at any moment, any interleaving, crashes and lost replies. */
module Fencing {
  import opened Domain
  import opened RedisKeys
  import opened Lifecycle

  // ---------------------------------------------------------------- invariants of the keys

  /** `r` follows `g` immediately in the publication history `h`. */
  ghost predicate Follows(h: seq<string>, g: string, r: string) {
    exists i, j :: 0 <= i < j < |h| && j == i + 1 && h[i] == g && h[j] == r
  }

  type Records = map<GenerationKey, Kept<Record>>
  type Histories = map<Accession, seq<string>>
  type Cleaned = map<Accession, set<string>>
  type Cleanups = map<CleanupKey, Kept<CleanupRecord>>

  ghost predicate RecordsOk(gens: Records) {
    forall k | k in gens ::
      && gens[k].value.Canonical()
      && KeyOf(gens[k].value.manifest) == k
      && (gens[k].volatile ==> gens[k].value.state == Cleaned)
  }

  /** The history of a filing is a duplicate-free list of exactly its PUBLISHED generations, and
      its last entry is the active one. */
  ghost predicate HistoryOk(gens: Records, active: map<Accession, string>, history: Histories) {
    && history.Keys == active.Keys
    && (forall a | a in history ::
          && |history[a]| > 0 && Distinct(history[a])
          && history[a][|history[a]| - 1] == active[a])
    && (forall a, g | a in history && g in history[a] :: PublishedAt(gens, GenerationKey(a, g)))
    && (forall k | PublishedAt(gens, k) :: k.accession in history && k.gen in history[k.accession])
  }

  ghost predicate IndexOk(index: map<Scope, set<Accession>>, active: map<Accession, string>) {
    && (forall sc, a | a in Members(index, sc) :: a.scope == sc && a in active)
    && (forall a | a in active :: a in Members(index, a.scope))
  }

  /** A cleanup record names a published generation and its successor, and is PENDING until that
      generation's cleanup is completed. */
  ghost predicate CleanupOk(gens: Records, history: Histories, cleaned: Cleaned, k: CleanupKey, kept: Kept<CleanupRecord>) {
    var c := kept.value;
    && c.Key() == k && PublishedAs(gens, c.superseded)
    && Follows(HistoryOf(history, k.accession), k.superseded, k.replacement)
    && (c.state == Pending <==> k.superseded !in CleanedOf(cleaned, k.accession))
    && (kept.volatile ==> c.state == Done)
  }

  ghost predicate CleanupsOk(gens: Records, history: Histories, cleaned: Cleaned, cleanups: Cleanups) {
    forall k | k in cleanups :: CleanupOk(gens, history, cleaned, k, cleanups[k])
  }

  /** Every superseded generation is cleaned or still has its record; only superseded ones are cleaned. */
  ghost predicate CleanupsComplete(history: Histories, cleaned: Cleaned, cleanups: Cleanups) {
    && (forall a, g, r | Follows(HistoryOf(history, a), g, r) ::
          g in CleanedOf(cleaned, a) || CleanupKey(a, g, r) in cleanups)
    && (forall a, g | g in CleanedOf(cleaned, a) :: exists r :: Follows(HistoryOf(history, a), g, r))
  }

  ghost predicate CleanupIndexOk(cleanupIndex: map<Scope, set<CleanupKey>>, cleanups: Cleanups) {
    && (forall sc, k | k in Members(cleanupIndex, sc) ::
          k.accession.scope == sc && k in cleanups && cleanups[k].value.state == Pending)
    && (forall k | k in cleanups && cleanups[k].value.state == Pending ::
          k in Members(cleanupIndex, k.accession.scope))
  }

  ghost predicate KeysOk(s: World) {
    && RecordsOk(s.keys.gens)
    && HistoryOk(s.keys.gens, s.keys.active, s.history)
    && IndexOk(s.keys.index, s.keys.active)
    && CleanupsOk(s.keys.gens, s.history, s.cleaned, s.keys.cleanups)
    && CleanupsComplete(s.history, s.cleaned, s.keys.cleanups)
    && CleanupIndexOk(s.keys.cleanupIndex, s.keys.cleanups)
  }

  /** What every later state keeps of an earlier one: PUBLISHED records never change and histories
      only grow at the end. */
  ghost predicate Evolves(s: World, t: World) {
    && (forall k | PublishedAt(s.keys.gens, k) :: k in t.keys.gens && t.keys.gens[k] == s.keys.gens[k])
    && (forall a | a in s.history :: a in t.history && s.history[a] <= t.history[a])
  }

  lemma EvolvesTransitive(s: World, t: World, u: World)
    requires Evolves(s, t) && Evolves(t, u)
    ensures Evolves(s, u)
  {
  }

  lemma FollowsPrefix(h: seq<string>, longer: seq<string>, g: string, r: string)
    requires h <= longer && Follows(h, g, r)
    ensures Follows(longer, g, r)
  {
    var i, j :| 0 <= i < j < |h| && j == i + 1 && h[i] == g && h[j] == r;
    assert longer[i] == g && longer[j] == r;
  }

  /** A superseded generation is not the last one of a duplicate-free history. */
  lemma FollowsNotLast(h: seq<string>, g: string, r: string)
    requires Distinct(h) && Follows(h, g, r)
    ensures g in h && r in h && g != h[|h| - 1]
  {
  }

  /** Each generation has one successor. */
  lemma FollowsFunctional(h: seq<string>, g: string, r: string, r': string)
    requires Distinct(h) && Follows(h, g, r) && Follows(h, g, r')
    ensures r == r'
  {
  }

  /** Publishing `n` adds exactly one pair: the old last generation is followed by `n`. */
  lemma FollowsAppend(h: seq<string>, n: string, g: string, r: string)
    ensures Follows(h + [n], g, r) <==> Follows(h, g, r) || (|h| > 0 && g == h[|h| - 1] && r == n)
  {
    var longer := h + [n];
    if Follows(h, g, r) {
      FollowsPrefix(h, longer, g, r);
    }
    if |h| > 0 && g == h[|h| - 1] && r == n {
      assert longer[|h| - 1] == g && longer[|h|] == n;
    }
    if Follows(longer, g, r) {
      var i, j :| 0 <= i < j < |longer| && j == i + 1 && longer[i] == g && longer[j] == r;
      if j < |h| {
        assert h[i] == g && h[j] == r;
      }
    }
  }

  // ---------------------------------------------------------------- what a worker knows

  ghost predicate CleanupKnown(s: World, a: Accession, c: CleanupRecord) {
    && c.state == Pending && c.superseded.accession == a
    && PublishedAs(s.keys.gens, c.superseded)
    && Follows(HistoryOf(s.history, a), c.superseded.gen, c.replacement)
  }

  ghost predicate AllCleanupsKnown(s: World, a: Accession, todo: seq<CleanupRecord>) {
    forall c | c in todo :: CleanupKnown(s, a, c)
  }

  ghost predicate StageIs(w: Worker, r: Record) {
    w.stage == Some(r)
  }

  ghost predicate PhaseOk(s: World, w: Worker) {
    match w.phase
    case ReadActiveRecord(gen) => PublishedAt(s.keys.gens, GenerationKey(w.Filing(), gen))
    case ConfirmRecord(gen) => PublishedAt(s.keys.gens, GenerationKey(w.Filing(), gen)) && StageIs(w, VerifiedRecord(w.manifest))
    case Embed => StageIs(w, StagedRecord(w.manifest))
    case Upsert(done) => StageIs(w, StagedRecord(w.manifest)) && done < |w.manifest.chunkIds|
    case Verify(done) => StageIs(w, StagedRecord(w.manifest)) && done < |w.manifest.chunkIds|
    case MarkVerified => StageIs(w, StagedRecord(w.manifest))
    case Publish => StageIs(w, VerifiedRecord(w.manifest))
    case ConfirmActive => StageIs(w, VerifiedRecord(w.manifest))
    case AbortStage => w.stage.Some?
    case AbortDelete(r) => w.stage.Some? && r == w.stage.value.WithState(Aborted)
    case AbortClean(r) => w.stage.Some? && r == w.stage.value.WithState(Aborted)
    case CleanupDelete(todo) => todo != [] && AllCleanupsKnown(s, w.Filing(), todo)
    case CleanupMark(todo) => todo != [] && AllCleanupsKnown(s, w.Filing(), todo)
    case _ => true
  }

  ghost predicate BeforeStaging(p: Phase) {
    || p.Acquire? || p.ReadActive? || p.ReadActiveRecord? || p.RecoveryList? || p.RecoveryLoad?
    || p.RecoveryStage? || p.RecoveryInspect? || p.Stage?
  }

  ghost predicate WorkerOk(s: World, w: Worker) {
    && w.manifest.Valid()
    && (w.current.Some? ==> PublishedAs(s.keys.gens, w.current.value) && w.current.value.accession == w.Filing())
    && (w.stage.Some? ==> w.stage.value == StagedRecord(w.manifest) || w.stage.value == VerifiedRecord(w.manifest))
    && (w.stage.Some? && w.current.Some? ==> w.current.value.gen != w.manifest.gen)
    && (BeforeStaging(w.phase) ==> w.stage.None?)
    && PhaseOk(s, w)
  }

  ghost predicate SystemOk(s: System) {
    KeysOk(s.world) && forall id | id in s.workers :: WorkerOk(s.world, s.workers[id])
  }

  /** A worker's knowledge is stable: no other worker can invalidate it. */
  lemma WorkerKnowledgeStable(s: World, t: World, w: Worker)
    requires WorkerOk(s, w) && Evolves(s, t)
    ensures WorkerOk(t, w)
  {
    match w.phase
    case CleanupDelete(todo) => AllCleanupsKnownStable(s, t, w.Filing(), todo);
    case CleanupMark(todo) => AllCleanupsKnownStable(s, t, w.Filing(), todo);
    case _ =>
  }

  lemma AllCleanupsKnownStable(s: World, t: World, a: Accession, todo: seq<CleanupRecord>)
    requires AllCleanupsKnown(s, a, todo) && Evolves(s, t)
    ensures AllCleanupsKnown(t, a, todo)
  {
    forall c | c in todo ensures CleanupKnown(t, a, c) {
      CleanupKnownStable(s, t, a, c);
    }
  }

  lemma CleanupKnownStable(s: World, t: World, a: Accession, c: CleanupRecord)
    requires CleanupKnown(s, a, c) && Evolves(s, t)
    ensures CleanupKnown(t, a, c)
  {
    FollowsPrefix(HistoryOf(s.history, a), HistoryOf(t.history, a), c.superseded.gen, c.replacement);
  }

  // ---------------------------------------------------------------- the scripts keep the invariants

  /** Records that agree on what is PUBLISHED support the same history and cleanups. */
  lemma SamePublicationsKeep(gens: Records, gens': Records, active: map<Accession, string>,
                             history: Histories, cleaned: Cleaned, cleanups: Cleanups)
    requires HistoryOk(gens, active, history) && CleanupsOk(gens, history, cleaned, cleanups)
    requires forall k :: PublishedAt(gens, k) <==> PublishedAt(gens', k)
    requires forall k | PublishedAt(gens, k) :: k in gens' && gens'[k] == gens[k]
    ensures HistoryOk(gens', active, history) && CleanupsOk(gens', history, cleaned, cleanups)
  {
    forall k | k in cleanups ensures CleanupOk(gens', history, cleaned, k, cleanups[k]) {
      assert CleanupOk(gens, history, cleaned, k, cleanups[k]);
      assert PublishedAt(gens, KeyOf(cleanups[k].value.superseded));
    }
  }

  /** Writing a canonical unpublished record over anything but a PUBLISHED one. */
  lemma WriteRecordKeeps(s: World, k: GenerationKey, kept: Kept<Record>)
    requires KeysOk(s) && !PublishedAt(s.keys.gens, k)
    requires kept.value.Canonical() && kept.value.state != Published && KeyOf(kept.value.manifest) == k
    requires kept.volatile ==> kept.value.state == Cleaned
    ensures var t := s.(keys := s.keys.(gens := s.keys.gens[k := kept])); KeysOk(t) && Evolves(s, t)
  {
    SamePublicationsKeep(s.keys.gens, s.keys.gens[k := kept], s.keys.active, s.history, s.cleaned, s.keys.cleanups);
  }

  lemma StageKeeps(s: World, owner: string, m: Manifest)
    requires KeysOk(s) && m.Valid()
    ensures var t := s.(keys := StageScript(s.keys, m.accession, owner, m).keys); KeysOk(t) && Evolves(s, t)
  {
    var key := KeyOf(m);
    if s.keys.Owns(m.accession, owner) && (key !in s.keys.gens || s.keys.gens[key].value in RecoverableRecords(m)) {
      if key in s.keys.gens {
        RecoverableExactly(m, s.keys.gens[key].value);
      }
      WriteRecordKeeps(s, key, Kept(StagedRecord(m), false));
    }
  }

  lemma SwapKeeps(s: World, owner: string, from: Record, to: Record, volatile: bool)
    requires KeysOk(s) && from.state != Published && to.state != Published
    requires to.Canonical() && to.manifest == from.manifest && (volatile ==> to.state == Cleaned)
    ensures var t := s.(keys := SwapScript(s.keys, from.manifest.accession, owner, from, to, volatile).keys);
            KeysOk(t) && Evolves(s, t)
  {
    var key := KeyOf(from.manifest);
    if s.keys.Owns(from.manifest.accession, owner) && s.keys.Holds(key, from) {
      WriteRecordKeeps(s, key, Kept(to, volatile));
    }
  }

  /** The world after a publish script that answered 1. */
  ghost function PublishedWorld(s: World, w: Worker): World {
    s.(keys := PublishReply(s, w).keys,
       history := s.history[w.Filing() := HistoryOf(s.history, w.Filing()) + [w.manifest.gen]])
  }

  ghost predicate CanPublish(s: World, w: Worker) {
    && KeysOk(s) && w.manifest.Valid()
    && (w.current.Some? ==> PublishedAs(s.keys.gens, w.current.value) && w.current.value.accession == w.Filing())
    && PublishReply(s, w).code == 1
  }

  /** What the script wrote, given that it answered 1. */
  lemma PublishWrites(s: World, w: Worker)
    requires PublishReply(s, w).code == 1
    ensures var k := PublishReply(s, w).keys; var a := w.Filing();
            && s.keys.Holds(KeyOf(w.manifest), VerifiedRecord(w.manifest))
            && k.gens == s.keys.gens[KeyOf(w.manifest) := Kept(PublishedRecord(w.manifest), false)]
            && k.active == s.keys.active[a := w.manifest.gen]
            && k.index == Added(s.keys.index, a.scope, a)
            && k.leases == s.keys.leases
    ensures w.current.None? ==>
              var k := PublishReply(s, w).keys;
              w.Filing() !in s.keys.active && k.cleanups == s.keys.cleanups && k.cleanupIndex == s.keys.cleanupIndex
    ensures w.current.Some? ==>
              var k := PublishReply(s, w).keys; var c := CleanupRecord(w.current.value, w.manifest.gen, Pending);
              && w.Filing() in s.keys.active && s.keys.active[w.Filing()] == w.current.value.gen
              && k.cleanups == s.keys.cleanups[c.Key() := Kept(c, false)]
              && k.cleanupIndex == Added(s.keys.cleanupIndex, c.superseded.accession.scope, c.Key())
  {
  }

  lemma PublishRefusedWritesNothing(s: World, w: Worker)
    requires PublishReply(s, w).code != 1
    ensures PublishReply(s, w).keys == s.keys
  {
  }

  /** A generation not yet PUBLISHED extends its filing's history. */
  lemma HistoryExtends(gens: Records, active: map<Accession, string>, history: Histories, m: Manifest)
    requires HistoryOk(gens, active, history) && !PublishedAt(gens, KeyOf(m))
    ensures var a := m.accession; var h := HistoryOf(history, a);
            && m.gen !in h
            && HistoryOk(gens[KeyOf(m) := Kept(PublishedRecord(m), false)], active[a := m.gen], history[a := h + [m.gen]])
  {
    var a := m.accession;
    var h := HistoryOf(history, a);
    var gens' := gens[KeyOf(m) := Kept(PublishedRecord(m), false)];
    var history' := history[a := h + [m.gen]];
    DistinctAppend(h, m.gen);
    assert forall k | k != KeyOf(m) :: PublishedAt(gens', k) <==> PublishedAt(gens, k);
    forall b, g | b in history' && g in history'[b] ensures PublishedAt(gens', GenerationKey(b, g)) {
      if b != a || g != m.gen {
        assert PublishedAt(gens, GenerationKey(b, g));
      }
    }
  }

  /** Earlier cleanup records survive the extension of a history. */
  lemma CleanupsExtend(gens: Records, history: Histories, cleaned: Cleaned, cleanups: Cleanups, m: Manifest)
    requires CleanupsOk(gens, history, cleaned, cleanups) && !PublishedAt(gens, KeyOf(m))
    ensures var a := m.accession;
            CleanupsOk(gens[KeyOf(m) := Kept(PublishedRecord(m), false)],
                       history[a := HistoryOf(history, a) + [m.gen]], cleaned, cleanups)
  {
    var a := m.accession;
    var gens' := gens[KeyOf(m) := Kept(PublishedRecord(m), false)];
    var history' := history[a := HistoryOf(history, a) + [m.gen]];
    forall k | k in cleanups ensures CleanupOk(gens', history', cleaned, k, cleanups[k]) {
      assert CleanupOk(gens, history, cleaned, k, cleanups[k]);
      assert PublishedAt(gens, KeyOf(cleanups[k].value.superseded));
      FollowsPrefix(HistoryOf(history, k.accession), HistoryOf(history', k.accession), k.superseded, k.replacement);
    }
  }

  /** The last generation of a history was never cleaned. */
  lemma LastNeverCleaned(history: Histories, cleaned: Cleaned, cleanups: Cleanups, a: Accession)
    requires CleanupsComplete(history, cleaned, cleanups)
    requires a in history && |history[a]| > 0 && Distinct(history[a])
    ensures history[a][|history[a]| - 1] !in CleanedOf(cleaned, a)
  {
  }

  /** Extending the history of a filing with no active generation leaves no pair to account for. */
  lemma CompletenessFirst(history: Histories, cleaned: Cleaned, cleanups: Cleanups, a: Accession, n: string)
    requires CleanupsComplete(history, cleaned, cleanups) && a !in history
    ensures CleanupsComplete(history[a := HistoryOf(history, a) + [n]], cleaned, cleanups)
  {
    var history' := history[a := HistoryOf(history, a) + [n]];
    forall b, g, r | Follows(HistoryOf(history', b), g, r)
      ensures g in CleanedOf(cleaned, b) || CleanupKey(b, g, r) in cleanups
    {
      assert b != a;
      assert Follows(HistoryOf(history, b), g, r);
    }
    forall b, g | g in CleanedOf(cleaned, b) ensures exists r :: Follows(HistoryOf(history', b), g, r) {
      var r :| Follows(HistoryOf(history, b), g, r);
      FollowsPrefix(HistoryOf(history, b), HistoryOf(history', b), g, r);
    }
  }

  /** Extending a nonempty history is accounted for by the record of its new pair. */
  lemma CompletenessNext(history: Histories, cleaned: Cleaned, cleanups: Cleanups,
                         a: Accession, n: string, kept: Kept<CleanupRecord>)
    requires CleanupsComplete(history, cleaned, cleanups) && a in history && |history[a]| > 0
    ensures var h := HistoryOf(history, a);
            CleanupsComplete(history[a := h + [n]], cleaned, cleanups[CleanupKey(a, h[|h| - 1], n) := kept])
  {
    var h := HistoryOf(history, a);
    var history' := history[a := h + [n]];
    var cleanups' := cleanups[CleanupKey(a, h[|h| - 1], n) := kept];
    forall b, g, r | Follows(HistoryOf(history', b), g, r)
      ensures g in CleanedOf(cleaned, b) || CleanupKey(b, g, r) in cleanups'
    {
      if b == a {
        FollowsAppend(h, n, g, r);
      }
      assert Follows(HistoryOf(history, b), g, r) || CleanupKey(b, g, r) in cleanups';
    }
    forall b, g | g in CleanedOf(cleaned, b) ensures exists r :: Follows(HistoryOf(history', b), g, r) {
      var r :| Follows(HistoryOf(history, b), g, r);
      FollowsPrefix(HistoryOf(history, b), HistoryOf(history', b), g, r);
    }
  }

  lemma PublishKeepsCleanups(s: World, w: Worker)
    requires CanPublish(s, w)
    ensures var t := PublishedWorld(s, w);
            && CleanupsOk(t.keys.gens, t.history, t.cleaned, t.keys.cleanups)
            && CleanupsComplete(t.history, t.cleaned, t.keys.cleanups)
  {
    PublishWrites(s, w);
    var a, n, t := w.Filing(), w.manifest.gen, PublishedWorld(s, w);
    CleanupsExtend(s.keys.gens, s.history, s.cleaned, s.keys.cleanups, w.manifest);
    if w.current.None? {
      CompletenessFirst(s.history, s.cleaned, s.keys.cleanups, a, n);
    } else {
      var h := HistoryOf(s.history, a);
      var c := CleanupRecord(w.current.value, n, Pending);
      CompletenessNext(s.history, s.cleaned, s.keys.cleanups, a, n, Kept(c, false));
      LastNeverCleaned(s.history, s.cleaned, s.keys.cleanups, a);
      FollowsAppend(h, n, w.current.value.gen, n);
      assert CleanupOk(t.keys.gens, t.history, t.cleaned, c.Key(), Kept(c, false));
    }
  }

  lemma PublishKeeps(s: World, w: Worker)
    requires CanPublish(s, w)
    ensures KeysOk(PublishedWorld(s, w)) && Evolves(s, PublishedWorld(s, w))
  {
    hide HistoryOk, IndexOk, CleanupsOk, CleanupsComplete, Distinct, PublishReply;
    PublishWrites(s, w);
    HistoryExtends(s.keys.gens, s.keys.active, s.history, w.manifest);
    IndexExtends(s.keys.index, s.keys.active, w.Filing(), w.manifest.gen);
    PublishKeepsCleanups(s, w);
    if w.current.Some? {
      CleanupIndexExtends(s.keys.cleanupIndex, s.keys.cleanups, CleanupRecord(w.current.value, w.manifest.gen, Pending));
    }
  }

  lemma CleanupIndexExtends(cleanupIndex: map<Scope, set<CleanupKey>>, cleanups: Cleanups, c: CleanupRecord)
    requires CleanupIndexOk(cleanupIndex, cleanups) && c.state == Pending
    ensures CleanupIndexOk(Added(cleanupIndex, c.superseded.accession.scope, c.Key()), cleanups[c.Key() := Kept(c, false)])
  {
    var sc := c.superseded.accession.scope;
    var cleanupIndex' := Added(cleanupIndex, sc, c.Key());
    assert Members(cleanupIndex', sc) == Members(cleanupIndex, sc) + {c.Key()};
    assert forall other | other != sc :: Members(cleanupIndex', other) == Members(cleanupIndex, other);
  }

  lemma IndexExtends(index: map<Scope, set<Accession>>, active: map<Accession, string>, a: Accession, gen: string)
    requires IndexOk(index, active)
    ensures IndexOk(Added(index, a.scope, a), active[a := gen])
  {
    var index' := Added(index, a.scope, a);
    assert Members(index', a.scope) == Members(index, a.scope) + {a};
    assert forall other | other != a.scope :: Members(index', other) == Members(index, other);
  }

  ghost function CleanedWorld(s: World, owner: string, c: CleanupRecord): World {
    var a := c.superseded.accession;
    s.(keys := CleanSupersededScript(s.keys, a, owner, c).keys,
       cleaned := s.cleaned[a := CleanedOf(s.cleaned, a) + {c.superseded.gen}])
  }

  /** Marking one PENDING record completed keeps every other record's state right. */
  lemma CompletionKeepsCleanups(gens: Records, active: map<Accession, string>, history: Histories,
                                cleaned: Cleaned, cleanups: Cleanups, c: CleanupRecord)
    requires HistoryOk(gens, active, history) && CleanupsOk(gens, history, cleaned, cleanups)
    requires c.Key() in cleanups && cleanups[c.Key()].value == c && c.state == Pending
    ensures var a := c.superseded.accession;
            CleanupsOk(gens, history, cleaned[a := CleanedOf(cleaned, a) + {c.superseded.gen}],
                       cleanups[c.Key() := Kept(c.(state := Done), true)])
  {
    var a, key := c.superseded.accession, c.Key();
    var cleaned' := cleaned[a := CleanedOf(cleaned, a) + {c.superseded.gen}];
    var cleanups' := cleanups[key := Kept(c.(state := Done), true)];
    assert CleanupOk(gens, history, cleaned, key, cleanups[key]);
    forall k | k in cleanups' ensures CleanupOk(gens, history, cleaned', k, cleanups'[k]) {
      if k != key {
        assert CleanupOk(gens, history, cleaned, k, cleanups[k]);
        if k.accession == a && k.superseded == c.superseded.gen {
          FollowsFunctional(HistoryOf(history, a), k.superseded, k.replacement, c.replacement);
        }
      }
    }
  }

  lemma CompletionKeepsCompleteness(history: Histories, cleaned: Cleaned, cleanups: Cleanups, c: CleanupRecord)
    requires CleanupsComplete(history, cleaned, cleanups)
    requires Follows(HistoryOf(history, c.superseded.accession), c.superseded.gen, c.replacement)
    ensures var a := c.superseded.accession;
            CleanupsComplete(history, cleaned[a := CleanedOf(cleaned, a) + {c.superseded.gen}],
                             cleanups[c.Key() := Kept(c.(state := Done), true)])
  {
    var a := c.superseded.accession;
    var cleaned' := cleaned[a := CleanedOf(cleaned, a) + {c.superseded.gen}];
    forall b, g | g in CleanedOf(cleaned', b) ensures exists r :: Follows(HistoryOf(history, b), g, r) {
      assert g in CleanedOf(cleaned, b) || (b == a && g == c.superseded.gen);
    }
  }

  lemma CleanSupersededKeeps(s: World, owner: string, c: CleanupRecord)
    requires KeysOk(s) && c.state == Pending
    requires CleanSupersededScript(s.keys, c.superseded.accession, owner, c).code == 1
    ensures KeysOk(CleanedWorld(s, owner, c)) && Evolves(s, CleanedWorld(s, owner, c))
  {
    var t := CleanedWorld(s, owner, c);
    assert CleanupOk(s.keys.gens, s.history, s.cleaned, c.Key(), s.keys.cleanups[c.Key()]);
    CompletionKeepsCleanups(s.keys.gens, s.keys.active, s.history, s.cleaned, s.keys.cleanups, c);
    CompletionKeepsCompleteness(s.history, s.cleaned, s.keys.cleanups, c);
    CompletionKeepsIndex(s.keys.cleanupIndex, s.keys.cleanups, c);
  }

  lemma CompletionKeepsIndex(cleanupIndex: map<Scope, set<CleanupKey>>, cleanups: Cleanups, c: CleanupRecord)
    requires CleanupIndexOk(cleanupIndex, cleanups)
    ensures CleanupIndexOk(Removed(cleanupIndex, c.superseded.accession.scope, c.Key()),
                           cleanups[c.Key() := Kept(c.(state := Done), true)])
  {
    var sc := c.superseded.accession.scope;
    var cleanupIndex' := Removed(cleanupIndex, sc, c.Key());
    assert Members(cleanupIndex', sc) == Members(cleanupIndex, sc) - {c.Key()};
    assert forall other | other != sc :: Members(cleanupIndex', other) == Members(cleanupIndex, other);
  }

  lemma MarkerExpiryKeeps(s: World, k: GenerationKey)
    requires KeysOk(s) && k in s.keys.gens && s.keys.gens[k].volatile
    ensures var t := s.(keys := s.keys.(gens := s.keys.gens - {k})); KeysOk(t) && Evolves(s, t)
  {
    SamePublicationsKeep(s.keys.gens, s.keys.gens - {k}, s.keys.active, s.history, s.cleaned, s.keys.cleanups);
  }

  lemma CleanupExpiryKeeps(s: World, k: CleanupKey)
    requires KeysOk(s) && k in s.keys.cleanups && s.keys.cleanups[k].volatile
    ensures var t := s.(keys := s.keys.(cleanups := s.keys.cleanups - {k})); KeysOk(t) && Evolves(s, t)
  {
    hide RecordsOk, HistoryOk, IndexOk, CleanupsOk, CleanupsComplete, CleanupIndexOk;
    OnlyCompletedExpires(s.keys.gens, s.history, s.cleaned, s.keys.cleanups, k);
    ExpiryKeepsCompleteness(s.history, s.cleaned, s.keys.cleanups, k);
    ExpiryKeepsCleanups(s.keys.gens, s.history, s.cleaned, s.keys.cleanups, k);
    ExpiryKeepsIndex(s.keys.cleanupIndex, s.keys.cleanups, k);
  }

  lemma OnlyCompletedExpires(gens: Records, history: Histories, cleaned: Cleaned, cleanups: Cleanups, k: CleanupKey)
    requires CleanupsOk(gens, history, cleaned, cleanups) && k in cleanups && cleanups[k].volatile
    ensures cleanups[k].value.state == Done && k.superseded in CleanedOf(cleaned, k.accession)
  {
    assert CleanupOk(gens, history, cleaned, k, cleanups[k]);
  }

  lemma ExpiryKeepsIndex(cleanupIndex: map<Scope, set<CleanupKey>>, cleanups: Cleanups, k: CleanupKey)
    requires CleanupIndexOk(cleanupIndex, cleanups) && k in cleanups && cleanups[k].value.state == Done
    ensures CleanupIndexOk(cleanupIndex, cleanups - {k})
  {
  }

  lemma ExpiryKeepsCleanups(gens: Records, history: Histories, cleaned: Cleaned, cleanups: Cleanups, k: CleanupKey)
    requires CleanupsOk(gens, history, cleaned, cleanups)
    ensures CleanupsOk(gens, history, cleaned, cleanups - {k})
  {
  }

  lemma ExpiryKeepsCompleteness(history: Histories, cleaned: Cleaned, cleanups: Cleanups, k: CleanupKey)
    requires CleanupsComplete(history, cleaned, cleanups) && k.superseded in CleanedOf(cleaned, k.accession)
    ensures CleanupsComplete(history, cleaned, cleanups - {k})
  {
    forall a, g, r | Follows(HistoryOf(history, a), g, r) && g !in CleanedOf(cleaned, a)
      ensures CleanupKey(a, g, r) in cleanups - {k}
    {
      assert CleanupKey(a, g, r) in cleanups;
    }
  }
}
