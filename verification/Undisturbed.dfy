/** What one ingestion achieves when nothing disturbs it: every command is answered and no other worker
    runs. This is the functional counterpart of the safety theorems. */
module Undisturbed {
  import opened Domain
  import opened RedisKeys
  import opened Lifecycle
  import opened Fencing
  import opened FencedRuns
  import T = FencingTheorems

  /** An answered command of the worker, with verification not polled again. */
  ghost predicate Answered(s: World, w: Worker, c: Choice) {
    && c.fate == Delivered && !c.again
    && (w.phase.CleanupList? ==> Enumerates(c.order, Members(s.keys.cleanupIndex, w.Filing().scope)))
  }

  /** The worker alone, from one effect to the next. */
  ghost predicate Alone(states: seq<Effect>, choices: seq<Choice>) {
    && |states| == |choices| + 1
    && forall i | 0 <= i < |choices| ::
         && Answered(states[i].world, states[i].worker, choices[i])
         && states[i + 1] == Step(states[i].world, states[i].worker, choices[i])
  }

  /** A fresh ordinary ingestion of a filing that nobody holds. */
  ghost predicate Starts(s: World, w: Worker) {
    && KeysOk(s) && w.manifest.Valid() && w.Filing() !in s.keys.leases
    && w.phase == Acquire && !w.recovery && w.current.None? && w.stage.None? && !w.published
  }

  // ---------------------------------------------------------------- the outcome

  ghost predicate ActiveIs(s: World, m: Manifest) {
    m.accession in s.keys.active && s.keys.active[m.accession] == m.gen && PublishedAs(s.keys.gens, m)
  }

  /** The generation was never published: its key is free or holds a recoverable record. */
  ghost predicate Publishable(s: World, m: Manifest) {
    KeyOf(m) in s.keys.gens ==> s.keys.gens[KeyOf(m)].value in RecoverableRecords(m)
  }

  /** The ingestion ends with all points: its own upserts put them there, or they were there before. */
  ghost predicate Supplied(s0: World, m: Manifest) {
    Publishable(s0, m) || m.Chunks() <= s0.PointsOf(KeyOf(m))
  }

  ghost predicate Awaits(s: World, c: CleanupRecord) {
    c.state == Pending && c.Key() in s.keys.cleanups && s.keys.cleanups[c.Key()].value == c
  }

  ghost predicate NothingAwaits(s: World, a: Accession) {
    forall c | Awaits(s, c) :: c.superseded.accession != a
  }

  /** What a successful ingestion leaves: its generation active with all its points, and no superseded
      generation of the filing awaiting cleanup; those cleaned on the way have no points left. */
  ghost predicate Ingested(s0: World, t: World, m: Manifest) {
    && ActiveIs(t, m)
    && (Supplied(s0, m) ==> m.Chunks() <= t.PointsOf(KeyOf(m)))
    && NothingAwaits(t, m.accession)
    && Emptied(s0, t, m.accession)
    && (m.accession in s0.keys.active && s0.keys.active[m.accession] != m.gen ==>
          t.PointsOf(GenerationKey(m.accession, s0.keys.active[m.accession])) == {})
  }

  /** A cleanup of the filing that was awaited and no longer is has removed its points. */
  ghost predicate Emptied(s0: World, t: World, a: Accession) {
    forall c | Awaits(s0, c) && c.superseded.accession == a && !Awaits(t, c) :: t.PointsOf(KeyOf(c.superseded)) == {}
  }

  ghost predicate Untouched(s0: World, t: World) {
    t.keys == s0.keys && t.points == s0.points
  }

  // ---------------------------------------------------------------- what holds in each phase

  /** The worker holds the lease, and every other lease is as it was. */
  ghost predicate Held(s0: World, s: World, a: Accession, owner: string) {
    && a !in s0.keys.leases && s.keys.Owns(a, owner)
    && s.keys.leases == s0.keys.leases[a := s.keys.leases[a]]
  }

  /** Nothing but the worker's own lease was written. */
  ghost predicate OnlyLease(s0: World, s: World, w: Worker) {
    Held(s0, s, w.Filing(), w.owner) && s.keys == s0.keys.(leases := s.keys.leases) && s.points == s0.points
  }

  /** What the worker read as active is what is active. */
  ghost predicate Current(s: World, w: Worker) {
    if w.current.None? then w.Filing() !in s.keys.active
    else w.current.value.accession == w.Filing() && ActiveIs(s, w.current.value)
  }

  /** Before publication: pointers and cleanups are the old ones, the worker's record is `r`. */
  ghost predicate InProgress(s0: World, s: World, w: Worker, r: Record) {
    && Held(s0, s, w.Filing(), w.owner) && Publishable(s0, w.manifest) && Current(s, w)
    && s.keys.active == s0.keys.active && s.keys.cleanups == s0.keys.cleanups
    && s.keys.Holds(KeyOf(w.manifest), r)
    && !PublishedAt(s0.keys.gens, KeyOf(w.manifest))
    && (forall k | k != KeyOf(w.manifest) :: s.PointsOf(k) == s0.PointsOf(k))
    && w.stage == Some(r) && !w.published
  }

  ghost predicate Prefix(s: World, m: Manifest, n: nat) {
    n <= |m.chunkIds| && forall i | 0 <= i < n :: m.chunkIds[i] in s.PointsOf(KeyOf(m))
  }

  /** After publication, or when the generation was active already. */
  ghost predicate Done(s0: World, s: World, m: Manifest, owner: string) {
    && Held(s0, s, m.accession, owner) && ActiveIs(s, m)
    && (ActiveIs(s0, m) || Publishable(s0, m))
    && (Supplied(s0, m) ==> Prefix(s, m, |m.chunkIds|))
    && Emptied(s0, s, m.accession)
    && Replaced(s0, s, m)
  }

  /** The generation that was active before is cleared or awaits its cleanup. */
  ghost predicate Replaced(s0: World, s: World, m: Manifest) {
    var a := m.accession;
    a in s0.keys.active && s0.keys.active[a] != m.gen ==>
      || s.PointsOf(GenerationKey(a, s0.keys.active[a])) == {}
      || exists c :: Awaits(s, c) && c.superseded.accession == a && c.superseded.gen == s0.keys.active[a]
  }

  ghost predicate Listed(s: World, w: Worker, todo: seq<CleanupRecord>) {
    forall c | Awaits(s, c) && c.superseded.accession == w.Filing() :: c in todo
  }

  ghost predicate Inv(s0: World, s: World, w: Worker) {
    var m := w.manifest;
    match w.phase
    case Acquire => s == s0 && w.stage.None? && w.current.None? && !w.published && w.Filing() !in s0.keys.leases
    case ReadActive => OnlyLease(s0, s, w) && w.stage.None? && !w.published
    case ReadActiveRecord(gen) =>
      && OnlyLease(s0, s, w) && w.stage.None? && !w.published
      && w.Filing() in s.keys.active && s.keys.active[w.Filing()] == gen
    case Stage =>
      && OnlyLease(s0, s, w) && w.stage.None? && !w.published
      && Current(s, w) && w.current != Some(m)
    case Embed => InProgress(s0, s, w, StagedRecord(m))
    case Upsert(done) => InProgress(s0, s, w, StagedRecord(m)) && Prefix(s, m, done)
    case Verify(done) => InProgress(s0, s, w, StagedRecord(m)) && Prefix(s, m, |m.chunkIds|)
    case MarkVerified => InProgress(s0, s, w, StagedRecord(m)) && Prefix(s, m, |m.chunkIds|)
    case Publish => InProgress(s0, s, w, VerifiedRecord(m)) && Prefix(s, m, |m.chunkIds|)
    case CleanupList => Done(s0, s, w.manifest, w.owner)
    case CleanupLoad(keys) => Done(s0, s, w.manifest, w.owner) && Enumerates(keys, Members(s.keys.cleanupIndex, w.Filing().scope))
    case CleanupDelete(todo) => Done(s0, s, w.manifest, w.owner) && Listed(s, w, todo)
    case CleanupMark(todo) =>
      Done(s0, s, w.manifest, w.owner) && Listed(s, w, todo) && todo != [] && s.PointsOf(KeyOf(todo[0].superseded)) == {}
    case Release =>
      || (Done(s0, s, w.manifest, w.owner) && NothingAwaits(s, w.Filing()))
      || (OnlyLease(s0, s, w) && !ActiveIs(s0, m) && !Publishable(s0, m))
    case Finished => Ends(s0, s, w)
    case _ => false
  }

  ghost predicate Ends(s0: World, t: World, w: Worker) {
    && t.keys.leases == s0.keys.leases
    && (if ActiveIs(s0, w.manifest) || Publishable(s0, w.manifest) then Ingested(s0, t, w.manifest) else Untouched(s0, t))
  }

  // ---------------------------------------------------------------- each phase leads to the next

  ghost predicate Ok(s0: World, s: World, w: Worker) {
    KeysOk(s) && WorkerOk(s, w) && Inv(s0, s, w) && !w.recovery
  }

  lemma AcquireNext(s0: World, s: World, w: Worker, c: Choice)
    requires Ok(s0, s, w) && w.phase.Acquire? && Answered(s, w, c)
    ensures var e := Step(s, w, c); Inv(s0, e.world, e.worker)
  {
    hide KeysOk, WorkerOk;
  }

  lemma ReadNext(s0: World, s: World, w: Worker, c: Choice)
    requires Ok(s0, s, w) && w.phase.ReadActive? && Answered(s, w, c)
    ensures var e := Step(s, w, c); Inv(s0, e.world, e.worker)
  {
    hide KeysOk, WorkerOk, PublishedAs;
  }

  lemma ReadRecordNext(s0: World, s: World, w: Worker, c: Choice)
    requires Ok(s0, s, w) && w.phase.ReadActiveRecord? && Answered(s, w, c)
    ensures var e := Step(s, w, c); Inv(s0, e.world, e.worker)
  {
    hide KeysOk, WorkerOk, PublishedAs, Distinct, Follows, RecoverableRecords;
    ActivePointerAccepted(s, w.Filing());
    ActiveRecordIs(s, w.Filing());
    var m := s.keys.gens[GenerationKey(w.Filing(), w.phase.gen)].value.manifest;
    assert ActiveIs(s, m);
    if m == w.manifest {
      ActiveAlready(s0, s, w);
    }
  }

  lemma ActiveRecordIs(s: World, a: Accession)
    requires KeysOk(s) && a in s.keys.active
    ensures var key := GenerationKey(a, s.keys.active[a]);
            && key in s.keys.gens && s.keys.gens[key].value.manifest.accession == a
            && ActiveIs(s, s.keys.gens[key].value.manifest)
  {
    ActivePointerAccepted(s, a);
    PublishedIsProven(s, GenerationKey(a, s.keys.active[a]));
  }

  /** The manifest was active before: nothing remains but cleanup. */
  lemma ActiveAlready(s0: World, s: World, w: Worker)
    requires OnlyLease(s0, s, w) && ActiveIs(s, w.manifest)
    ensures Done(s0, s, w.manifest, w.owner)
  {
    assert ActiveIs(s0, w.manifest);
    assert PublishedRecord(w.manifest).state == Published;
    if Publishable(s0, w.manifest) {
      RecoverableState(w.manifest, PublishedRecord(w.manifest));
    }
    assert forall c :: Awaits(s, c) <==> Awaits(s0, c);
    if Supplied(s0, w.manifest) {
      forall i | 0 <= i < |w.manifest.chunkIds| ensures w.manifest.chunkIds[i] in s.PointsOf(KeyOf(w.manifest)) {
        assert w.manifest.chunkIds[i] in w.manifest.Chunks();
      }
    }
  }

  lemma RecoverableState(m: Manifest, r: Record)
    ensures r in RecoverableRecords(m) ==> r.state != Published
  {
  }

  lemma StageNext(s0: World, s: World, w: Worker, c: Choice)
    requires Ok(s0, s, w) && w.phase.Stage? && Answered(s, w, c)
    ensures var e := Step(s, w, c); Inv(s0, e.world, e.worker)
  {
    hide KeysOk, WorkerOk, PublishedAs, RecoverableRecords, Distinct, Follows;
    assert RecoverableRecords(w.manifest)[0] == StagedRecord(w.manifest);
    if KeyOf(w.manifest) in s0.keys.gens {
      RecoverableState(w.manifest, s0.keys.gens[KeyOf(w.manifest)].value);
    }
    NotActiveRefused(s0, s, w);
    var t := Step(s, w, c).world;
    if Publishable(s0, w.manifest) {
      CurrentKept(s, t, w);
    }
  }

  /** A generation that is active but not what the worker read is not this manifest. */
  lemma NotActiveRefused(s0: World, s: World, w: Worker)
    requires OnlyLease(s0, s, w) && Current(s, w) && w.current != Some(w.manifest)
    ensures !ActiveIs(s0, w.manifest)
  {
    if w.current.Some? && w.current.value.gen == w.manifest.gen {
      assert KeyOf(w.current.value) == KeyOf(w.manifest);
      assert PublishedRecord(w.current.value).manifest != PublishedRecord(w.manifest).manifest;
    }
  }

  /** The worker's own unpublished record is not the active one's. */
  lemma CurrentKept(s: World, t: World, w: Worker)
    requires Current(s, w) && t.keys.active == s.keys.active && !PublishedAt(s.keys.gens, KeyOf(w.manifest))
    requires forall k | k != KeyOf(w.manifest) :: (k in t.keys.gens <==> k in s.keys.gens) && (k in s.keys.gens ==> t.keys.gens[k] == s.keys.gens[k])
    ensures Current(t, w)
  {
  }

  lemma EmbedNext(s0: World, s: World, w: Worker, c: Choice)
    requires Ok(s0, s, w) && w.phase.Embed? && Answered(s, w, c)
    ensures var e := Step(s, w, c); Inv(s0, e.world, e.worker)
  {
    hide KeysOk, WorkerOk, PublishedAs, Distinct;
  }

  lemma UpsertNext(s0: World, s: World, w: Worker, c: Choice)
    requires Ok(s0, s, w) && w.phase.Upsert? && Answered(s, w, c)
    ensures var e := Step(s, w, c); Inv(s0, e.world, e.worker)
  {
    hide KeysOk, WorkerOk, PublishedAs, Distinct, RecoverableRecords;
    var done, end := w.phase.done, BatchEnd(w.phase.done, |w.manifest.chunkIds|);
    var e := Step(s, w, c);
    forall i | 0 <= i < end ensures w.manifest.chunkIds[i] in e.world.PointsOf(KeyOf(w.manifest)) {
      if done <= i {
        assert w.manifest.chunkIds[done..end][i - done] == w.manifest.chunkIds[i];
      }
    }
  }

  lemma VerifyNext(s0: World, s: World, w: Worker, c: Choice)
    requires Ok(s0, s, w) && w.phase.Verify? && Answered(s, w, c)
    ensures var e := Step(s, w, c); Inv(s0, e.world, e.worker) && !e.worker.phase.AbortStage?
  {
    hide KeysOk, PublishedAs, Distinct, RecoverableRecords;
    var done, end := w.phase.done, BatchEnd(w.phase.done, |w.manifest.chunkIds|);
    forall id | id in w.manifest.chunkIds[done..end] ensures id in s.PointsOf(KeyOf(w.manifest)) {
      var i :| 0 <= i < end - done && w.manifest.chunkIds[done..end][i] == id;
      assert w.manifest.chunkIds[done + i] == id;
    }
  }

  lemma MarkVerifiedNext(s0: World, s: World, w: Worker, c: Choice)
    requires Ok(s0, s, w) && w.phase.MarkVerified? && Answered(s, w, c)
    ensures var e := Step(s, w, c); Inv(s0, e.world, e.worker)
  {
    hide KeysOk, WorkerOk, PublishedAs, Distinct, RecoverableRecords;
    CurrentKept(s, Step(s, w, c).world, w);
  }

  lemma PublishNext(s0: World, s: World, w: Worker, c: Choice)
    requires Ok(s0, s, w) && w.phase.Publish? && Answered(s, w, c)
    ensures var e := Step(s, w, c); Inv(s0, e.world, e.worker)
  {
    hide KeysOk, PublishScript, Distinct, RecoverableRecords, PublishReply, Publishable;
    PublishAccepted(s, w);
    PublishWrites(s, w);
    var e := Step(s, w, c);
    assert e.world == PublishedWorld(s, w);
    AwaitsAfterPublish(s0, s, w);
  }

  lemma PublishAccepted(s: World, w: Worker)
    requires KeysOk(s) && WorkerOk(s, w) && Current(s, w) && s.keys.Owns(w.Filing(), w.owner)
    requires s.keys.Holds(KeyOf(w.manifest), VerifiedRecord(w.manifest))
    ensures PublishReply(s, w).code == 1
  {
    hide KeysOk, Distinct;
    T.CleanupKeyIsFree(s, w);
  }

  lemma AwaitsAfterPublish(s0: World, s: World, w: Worker)
    requires PublishReply(s, w).code == 1 && s.keys.cleanups == s0.keys.cleanups && s.keys.active == s0.keys.active
    requires w.current.Some? ==> w.current.value.accession == w.Filing()
    ensures Emptied(s0, PublishedWorld(s, w), w.Filing()) && Replaced(s0, PublishedWorld(s, w), w.manifest)
  {
    PublishWrites(s, w);
    hide PublishReply;
    var t := PublishedWorld(s, w);
    if w.current.Some? {
      var n := CleanupRecord(w.current.value, w.manifest.gen, Pending);
      assert Awaits(t, n);
      forall c | Awaits(s0, c) ensures Awaits(t, c) {
      }
    } else {
      forall c | Awaits(s0, c) ensures Awaits(t, c) {
      }
    }
  }

  // ---------------------------------------------------------------- cleanup

  lemma ListNext(s0: World, s: World, w: Worker, c: Choice)
    requires Ok(s0, s, w) && w.phase.CleanupList? && Answered(s, w, c)
    ensures var e := Step(s, w, c); Inv(s0, e.world, e.worker)
  {
    hide KeysOk, WorkerOk, PublishedAs, Publishable, Distinct, Done;
    if c.order == [] {
      NoneListed(s, w.Filing());
    }
  }

  lemma NoneListed(s: World, a: Accession)
    requires KeysOk(s) && Members(s.keys.cleanupIndex, a.scope) == {}
    ensures NothingAwaits(s, a)
  {
    hide RecordsOk, HistoryOk, IndexOk, CleanupsComplete;
    forall c | Awaits(s, c) ensures c.superseded.accession != a {
      assert c.Key() in Members(s.keys.cleanupIndex, c.superseded.accession.scope);
    }
  }

  lemma LoadNext(s0: World, s: World, w: Worker, c: Choice)
    requires Ok(s0, s, w) && w.phase.CleanupLoad? && Answered(s, w, c)
    ensures var e := Step(s, w, c); Inv(s0, e.world, e.worker)
  {
    hide KeysOk, WorkerOk, PublishedAs, Publishable, Distinct, Done, LoadPending, Awaits, Enumerates;
    var keys := w.phase.keys;
    AllAccepted(s, w.Filing().scope, keys);
    var records := LoadPending(s.keys, w.Filing().scope, keys).value;
    forall p | Awaits(s, p) && p.superseded.accession == w.Filing() ensures p in ForFiling(records, w.Filing()) {
      AwaitedIsIndexed(s, p);
      AwaitedIsStored(s, p);
    }
  }

  lemma AwaitedIsStored(s: World, c: CleanupRecord)
    requires Awaits(s, c)
    ensures c.Key() in s.keys.cleanups && s.keys.cleanups[c.Key()].value == c
  {
  }

  lemma AwaitedIsIndexed(s: World, c: CleanupRecord)
    requires KeysOk(s) && Awaits(s, c)
    ensures c.Key() in Members(s.keys.cleanupIndex, c.superseded.accession.scope)
  {
    hide RecordsOk, HistoryOk, IndexOk, CleanupsOk, CleanupsComplete;
  }

  lemma AllAccepted(s: World, scope: Scope, keys: seq<CleanupKey>)
    requires KeysOk(s) && Enumerates(keys, Members(s.keys.cleanupIndex, scope))
    ensures LoadPending(s.keys, scope, keys).Some?
    ensures forall k | k in Members(s.keys.cleanupIndex, scope) :: k in keys
  {
    hide RecordsOk, HistoryOk, IndexOk, CleanupsComplete, Distinct, LoadPending;
    forall k | k in keys ensures PendingAccepted(s.keys, scope, k) {
      assert k in (set x | x in keys);
      assert CleanupOk(s.keys.gens, s.history, s.cleaned, k, s.keys.cleanups[k]);
    }
    forall k | k in Members(s.keys.cleanupIndex, scope) ensures k in keys {
      assert k in (set x | x in keys);
    }
  }

  /** Deleting the points of a superseded generation disturbs nothing the ingestion achieved. */
  lemma DeleteKeeps(s0: World, s: World, w: Worker, k: GenerationKey)
    requires Done(s0, s, w.manifest, w.owner) && k != KeyOf(w.manifest)
    ensures Done(s0, s.WithPoints(k, {}), w.manifest, w.owner)
  {
    hide PublishedAs, Publishable, Distinct;
    var t := s.WithPoints(k, {});
    assert forall c :: Awaits(t, c) <==> Awaits(s, c);
    assert forall o | o != k :: t.PointsOf(o) == s.PointsOf(o);
  }

  lemma DeleteNext(s0: World, s: World, w: Worker, c: Choice)
    requires Ok(s0, s, w) && w.phase.CleanupDelete? && Answered(s, w, c)
    ensures var e := Step(s, w, c); Inv(s0, e.world, e.worker)
  {
    hide KeysOk, PublishedAs, Publishable, Distinct, Done, Follows, CleanupKnown;
    var todo := w.phase.todo;
    RestKnown(s, w.Filing(), todo);
    SupersededIsOther(s0, s, w, todo[0]);
    DeleteKeeps(s0, s, w, KeyOf(todo[0].superseded));
    var t := s.WithPoints(KeyOf(todo[0].superseded), {});
    assert Step(s, w, c).world == t;
    assert forall p :: Awaits(t, p) <==> Awaits(s, p);
  }

  lemma SupersededIsOther(s0: World, s: World, w: Worker, c: CleanupRecord)
    requires KeysOk(s) && Done(s0, s, w.manifest, w.owner) && CleanupKnown(s, w.Filing(), c)
    ensures KeyOf(c.superseded) != KeyOf(w.manifest)
  {
    hide KeysOk, Publishable;
    T.KnownNotActive(s, w.Filing(), c);
  }

  lemma MarkNext(s0: World, s: World, w: Worker, c: Choice)
    requires Ok(s0, s, w) && w.phase.CleanupMark? && Answered(s, w, c)
    ensures var e := Step(s, w, c); Inv(s0, e.world, e.worker)
  {
    hide KeysOk, PublishedAs, Publishable, Distinct, Done, Follows, CleanupKnown, CleanSupersededScript;
    var todo := w.phase.todo;
    RestKnown(s, w.Filing(), todo);
    var p := todo[0];
    T.KnownNotActive(s, w.Filing(), p);
    KnownFiling(s, w.Filing(), p);
    var t := Step(s, w, c).world;
    HeldOwns(s0, s, w);
    MarkEffect(s, w.Filing(), w.owner, p);
    assert t.keys == CleanSupersededScript(s.keys, w.Filing(), w.owner, p).keys && t.points == s.points;
    MarkKeeps(s0, s, t, w, p);
    forall q | Awaits(t, q) && q.superseded.accession == w.Filing() ensures q in todo[1..] {
      assert Awaits(s, q) && q != p && q in todo;
    }
  }

  lemma HeldOwns(s0: World, s: World, w: Worker)
    requires Done(s0, s, w.manifest, w.owner)
    ensures s.keys.Owns(w.Filing(), w.owner)
  {
  }

  lemma KnownFiling(s: World, a: Accession, c: CleanupRecord)
    requires CleanupKnown(s, a, c)
    ensures c.superseded.accession == a && c.state == Pending
  {
  }

  ghost function AfterMark(s: World, p: CleanupRecord): map<CleanupKey, Kept<CleanupRecord>> {
    if Awaits(s, p) then s.keys.cleanups[p.Key() := Kept(p.(state := CleanupState.Done), true)] else s.keys.cleanups
  }

  /** Completing a cleanup changes only that record, from awaited to not. */
  lemma MarkEffect(s: World, a: Accession, owner: string, p: CleanupRecord)
    requires p.state == Pending && p.superseded.accession == a && s.keys.Owns(a, owner)
    requires a in s.keys.active && s.keys.active[a] != p.superseded.gen
    ensures var k := CleanSupersededScript(s.keys, a, owner, p).keys;
            && k.leases == s.keys.leases && k.gens == s.keys.gens && k.active == s.keys.active
            && k.cleanups == AfterMark(s, p)
  {
  }

  lemma MarkKeeps(s0: World, s: World, t: World, w: Worker, p: CleanupRecord)
    requires Done(s0, s, w.manifest, w.owner) && p.state == Pending && p.superseded.accession == w.Filing()
    requires s.PointsOf(KeyOf(p.superseded)) == {} && t.points == s.points
    requires t.keys.leases == s.keys.leases && t.keys.gens == s.keys.gens && t.keys.active == s.keys.active
    requires t.keys.cleanups == AfterMark(s, p)
    ensures Done(s0, t, w.manifest, w.owner) && forall q :: Awaits(t, q) <==> Awaits(s, q) && q != p
  {
    hide PublishedAs, Publishable, Distinct;
    forall q ensures Awaits(t, q) <==> Awaits(s, q) && q != p {
    }
    assert forall k :: t.PointsOf(k) == s.PointsOf(k);
  }

  lemma ReleaseNext(s0: World, s: World, w: Worker, c: Choice)
    requires Ok(s0, s, w) && w.phase.Release? && Answered(s, w, c)
    ensures var e := Step(s, w, c); Inv(s0, e.world, e.worker)
  {
    hide KeysOk, WorkerOk, PublishedAs, Publishable, Distinct;
    var t := Step(s, w, c).world;
    assert t == s.(keys := s.keys.(leases := s.keys.leases - {w.Filing()}));
    assert t.keys.leases == s0.keys.leases;
    if Done(s0, s, w.manifest, w.owner) && NothingAwaits(s, w.Filing()) {
      ReleasedIsIngested(s0, s, t, w.manifest, w.owner);
    }
  }

  lemma ReleasedIsIngested(s0: World, s: World, t: World, m: Manifest, owner: string)
    requires Done(s0, s, m, owner) && NothingAwaits(s, m.accession)
    requires t == s.(keys := s.keys.(leases := t.keys.leases))
    ensures Ingested(s0, t, m)
  {
    hide PublishedAs, Publishable, Distinct;
    assert forall c :: Awaits(t, c) <==> Awaits(s, c);
    assert forall k :: t.PointsOf(k) == s.PointsOf(k);
    if Supplied(s0, m) {
      forall id | id in m.Chunks() ensures id in t.PointsOf(KeyOf(m)) {
        var i :| 0 <= i < |m.chunkIds| && m.chunkIds[i] == id;
      }
    }
  }

  // ---------------------------------------------------------------- whole undisturbed runs

  lemma NextOk(s0: World, s: World, w: Worker, c: Choice)
    requires Ok(s0, s, w) && Answered(s, w, c)
    ensures var e := Step(s, w, c); Ok(s0, e.world, e.worker)
  {
    StepKeeps(s, w, c);
    hide KeysOk, WorkerOk, Step, Inv;
    match w.phase
    case Acquire => AcquireNext(s0, s, w, c);
    case ReadActive => ReadNext(s0, s, w, c);
    case ReadActiveRecord(_) => ReadRecordNext(s0, s, w, c);
    case Stage => StageNext(s0, s, w, c);
    case Embed => EmbedNext(s0, s, w, c);
    case Upsert(_) => UpsertNext(s0, s, w, c);
    case Verify(_) => VerifyNext(s0, s, w, c);
    case MarkVerified => MarkVerifiedNext(s0, s, w, c);
    case Publish => PublishNext(s0, s, w, c);
    case CleanupList => ListNext(s0, s, w, c);
    case CleanupLoad(_) => LoadNext(s0, s, w, c);
    case CleanupDelete(_) => DeleteNext(s0, s, w, c);
    case CleanupMark(_) => MarkNext(s0, s, w, c);
    case Release => ReleaseNext(s0, s, w, c);
    case Finished => FinishedNext(s0, s, w, c);
    case _ => NoOtherPhase(s0, s, w);
  }

  lemma FinishedNext(s0: World, s: World, w: Worker, c: Choice)
    requires Inv(s0, s, w) && w.phase.Finished?
    ensures var e := Step(s, w, c); Inv(s0, e.world, e.worker)
  {
  }

  /** Undisturbed, the driver never fails, recovers or confirms. */
  lemma NoOtherPhase(s0: World, s: World, w: Worker)
    requires Inv(s0, s, w)
    ensures !w.phase.RecoveryList? && !w.phase.RecoveryLoad? && !w.phase.RecoveryStage? && !w.phase.RecoveryInspect?
            && !w.phase.ConfirmActive? && !w.phase.ConfirmRecord? && !w.phase.AbortStage? && !w.phase.AbortDelete?
            && !w.phase.AbortClean?
  {
  }

  lemma {:induction false} AloneOk(states: seq<Effect>, choices: seq<Choice>, i: nat)
    requires Alone(states, choices) && Starts(states[0].world, states[0].worker) && i < |states|
    ensures Ok(states[0].world, states[i].world, states[i].worker) && states[0].worker.SameRun(states[i].worker)
  {
    hide Ok, Step;
    if i == 0 {
      StartsOk(states[0].world, states[0].worker);
    } else {
      AloneOk(states, choices, i - 1);
      NextOk(states[0].world, states[i - 1].world, states[i - 1].worker, choices[i - 1]);
    }
  }

  lemma StartsOk(s: World, w: Worker)
    requires Starts(s, w)
    ensures Ok(s, s, w)
  {
    hide KeysOk;
  }

  /** An undisturbed ingestion ends successfully exactly when its generation is active already or was
      never published: then it is active, with all its points if it was not active before or had them
      before, its predecessor's points are gone and nothing of the filing awaits cleanup. Otherwise,
      that is for a generation superseded earlier or a different manifest under its ID, it changes
      nothing. In either case its lease is released. */
  lemma UndisturbedIngestion(states: seq<Effect>, choices: seq<Choice>)
    requires Alone(states, choices) && Starts(states[0].world, states[0].worker)
    requires states[|choices|].worker.phase == Finished
    ensures var s0 := states[0].world; var t := states[|choices|].world; var m := states[0].worker.manifest;
            && t.keys.leases == s0.keys.leases
            && (ActiveIs(s0, m) || Publishable(s0, m) ==> Ingested(s0, t, m))
            && (!ActiveIs(s0, m) && !Publishable(s0, m) ==> Untouched(s0, t))
  {
    AloneOk(states, choices, |choices|);
    hide KeysOk, WorkerOk, Ingested, Untouched, Publishable, ActiveIs;
  }

  /** How far a run is from its end: the phases left, then the work left in the phase. */
  ghost function PhasesLeft(p: Phase): nat {
    match p
    case Acquire => 12
    case ReadActive => 11
    case ReadActiveRecord(_) => 10
    case Stage => 9
    case Embed => 8
    case Upsert(_) => 7
    case Verify(_) => 6
    case MarkVerified => 5
    case Publish => 4
    case CleanupList => 3
    case CleanupLoad(_) => 2
    case CleanupDelete(_) => 1
    case CleanupMark(_) => 1
    case _ => 0
  }

  ghost function WorkLeft(w: Worker): int {
    match w.phase
    case Upsert(done) => |w.manifest.chunkIds| - done
    case Verify(done) => |w.manifest.chunkIds| - done
    case CleanupDelete(todo) => 2 * |todo|
    case CleanupMark(todo) => 2 * |todo| - 1
    case Release => 1
    case _ => 0
  }

  ghost predicate Closer(w: Worker, v: Worker) {
    && 0 <= WorkLeft(v)
    && (PhasesLeft(v.phase) < PhasesLeft(w.phase) || (PhasesLeft(v.phase) == PhasesLeft(w.phase) && WorkLeft(v) < WorkLeft(w)))
  }

  /** Every answered command brings an unfinished undisturbed run closer to its end. */
  lemma UndisturbedAdvances(states: seq<Effect>, choices: seq<Choice>, i: nat)
    requires Alone(states, choices) && Starts(states[0].world, states[0].worker)
    requires i < |choices| && states[i].worker.phase != Finished
    ensures Closer(states[i].worker, states[i + 1].worker)
  {
    AloneOk(states, choices, i);
    AloneOk(states, choices, i + 1);
    hide KeysOk;
    var s, w, c := states[i].world, states[i].worker, choices[i];
    StepAdvances(states[0].world, s, w, c);
  }

  lemma StepAdvances(s0: World, s: World, w: Worker, c: Choice)
    requires Ok(s0, s, w) && Answered(s, w, c) && w.phase != Finished
    requires Inv(s0, Step(s, w, c).world, Step(s, w, c).worker) && WorkerOk(Step(s, w, c).world, Step(s, w, c).worker)
    ensures Closer(w, Step(s, w, c).worker)
  {
    hide Ok, Inv, WorkerOk, Step, Answered, Closer;
    if w.phase.Upsert? || w.phase.Verify? {
      BatchAdvances(s0, s, w, c);
    } else if PhasesLeft(w.phase) > 3 {
      EarlyAdvances(s0, s, w, c);
    } else {
      LateAdvances(s0, s, w, c);
    }
  }

  lemma EarlyAdvances(s0: World, s: World, w: Worker, c: Choice)
    requires Ok(s0, s, w) && Answered(s, w, c) && PhasesLeft(w.phase) > 3 && !w.phase.Upsert? && !w.phase.Verify?
    requires Inv(s0, Step(s, w, c).world, Step(s, w, c).worker) && WorkerOk(Step(s, w, c).world, Step(s, w, c).worker)
    ensures Closer(w, Step(s, w, c).worker)
  {
    hide KeysOk, WorkerOk, Inv, Distinct, RecoverableRecords, PublishReply, StageScript, SwapScript, ActiveRecordAccepted, LeaseSeconds;
    NoOtherPhase(s0, Step(s, w, c).world, Step(s, w, c).worker);
    ValidWorker(s, w);
  }

  lemma ValidWorker(s: World, w: Worker)
    requires WorkerOk(s, w)
    ensures |w.manifest.chunkIds| > 0
  {
  }

  lemma BatchAdvances(s0: World, s: World, w: Worker, c: Choice)
    requires Ok(s0, s, w) && Answered(s, w, c) && (w.phase.Upsert? || w.phase.Verify?)
    requires Inv(s0, Step(s, w, c).world, Step(s, w, c).worker) && WorkerOk(Step(s, w, c).world, Step(s, w, c).worker)
    ensures Closer(w, Step(s, w, c).worker)
  {
    hide KeysOk, PublishedAs, Publishable, Done, InProgress, Distinct, OnlyLease, RecoverableRecords, Held, Prefix, Ends, Current;
    NoOtherPhase(s0, Step(s, w, c).world, Step(s, w, c).worker);
  }

  lemma LateAdvances(s0: World, s: World, w: Worker, c: Choice)
    requires Ok(s0, s, w) && Answered(s, w, c) && w.phase != Finished && PhasesLeft(w.phase) <= 3
    requires Inv(s0, Step(s, w, c).world, Step(s, w, c).worker) && WorkerOk(Step(s, w, c).world, Step(s, w, c).worker)
    ensures Closer(w, Step(s, w, c).worker)
  {
    hide KeysOk, PublishedAs, Publishable, Done, InProgress, Distinct, Follows, OnlyLease, RecoverableRecords, PublishScript,
         StageScript, SwapScript, CleanSupersededScript, LoadPending, ForFiling, Held, Listed, Prefix, Ends, Current, AllCleanupsKnown;
    NoOtherPhase(s0, Step(s, w, c).world, Step(s, w, c).worker);
  }
}
