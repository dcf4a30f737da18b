/** What one command of the driver may write: nothing when it is lost before its effect or only reads,
    keys of its own filing under its own lease, and points only in its three vector calls. */
module StepFrame {
  import opened Domain
  import opened RedisKeys
  import opened Lifecycle
  import opened Fencing

  predicate WritesGeneration(p: Phase) {
    p.Stage? || p.MarkVerified? || p.Publish? || p.AbortStage? || p.AbortClean?
  }

  predicate WritesLease(p: Phase) {
    p.Acquire? || p.Release?
  }

  predicate WritesPoints(p: Phase) {
    p.Upsert? || p.CleanupDelete? || p.AbortDelete?
  }

  /** All other commands read. */
  predicate Writes(p: Phase) {
    WritesGeneration(p) || WritesLease(p) || WritesPoints(p) || p.CleanupMark?
  }

  /** Nothing a command could observe differs. */
  ghost predicate Unchanged(s: World, t: World) {
    && t.keys == s.keys && t.now == s.now && t.history == s.history && t.cleaned == s.cleaned
    && forall k :: t.PointsOf(k) == s.PointsOf(k)
  }

  lemma OnlyWritesWrite(s: World, w: Worker, c: Choice)
    requires c.fate == Dropped || !Writes(w.phase)
    ensures Unchanged(s, Step(s, w, c).world)
  {
    hide StageScript, SwapScript, PublishScript, CleanSupersededScript, LoadPending, ForFiling, RecoverableRecords;
  }

  // ---------------------------------------------------------------- keys

  ghost predicate SameBut<K(!new), V>(m: map<K, V>, m': map<K, V>, key: K) {
    forall o | o != key :: (o in m' <==> o in m) && (o in m ==> m'[o] == m[o])
  }

  ghost predicate CleanupsWithin(k: Keys, k': Keys, a: Accession) {
    && (forall c: CleanupKey | c.accession != a ::
          (c in k'.cleanups <==> c in k.cleanups) && (c in k.cleanups ==> k'.cleanups[c] == k.cleanups[c]))
    && (forall scope, c: CleanupKey | c.accession != a ::
          c in Members(k'.cleanupIndex, scope) <==> c in Members(k.cleanupIndex, scope))
  }

  ghost predicate IndexWithin(k: Keys, k': Keys, a: Accession) {
    forall scope, o | o != a :: o in Members(k'.index, scope) <==> o in Members(k.index, scope)
  }

  /** Every key outside filing `a` is as it was, and of its generations only `key` may differ. */
  ghost predicate WithinFiling(k: Keys, k': Keys, a: Accession, key: GenerationKey) {
    && SameBut(k.leases, k'.leases, a) && SameBut(k.active, k'.active, a) && SameBut(k.gens, k'.gens, key)
    && CleanupsWithin(k, k', a) && IndexWithin(k, k', a)
  }

  lemma SameButUpdated<K(!new), V>(m: map<K, V>, key: K, value: V)
    ensures SameBut(m, m[key := value], key) && SameBut(m, m - {key}, key)
  {
  }

  lemma NothingOutside(k: Keys, a: Accession, key: GenerationKey)
    ensures WithinFiling(k, k, a, key)
  {
  }

  lemma LeaseWithin(k: Keys, leases: map<Accession, Lease>, a: Accession, key: GenerationKey)
    requires SameBut(k.leases, leases, a)
    ensures WithinFiling(k, k.(leases := leases), a, key)
  {
  }

  lemma GenerationWithin(k: Keys, gens: map<GenerationKey, Kept<Record>>, a: Accession, key: GenerationKey)
    requires SameBut(k.gens, gens, key)
    ensures WithinFiling(k, k.(gens := gens), a, key)
  {
  }

  lemma AddedWithin<S(!new), T(!new)>(index: map<S, set<T>>, at: S, x: T)
    ensures forall s, o | o != x :: o in Members(Added(index, at, x), s) <==> o in Members(index, s)
    ensures forall s, o | o != x :: o in Members(Removed(index, at, x), s) <==> o in Members(index, s)
  {
  }

  lemma IndexAdded(k: Keys, k': Keys, a: Accession)
    requires k'.index == k.index || k'.index == Added(k.index, a.scope, a)
    ensures IndexWithin(k, k', a)
  {
    AddedWithin(k.index, a.scope, a);
    hide Members, Added;
  }

  lemma CleanupWithin(k: Keys, k': Keys, c: CleanupRecord, record: Kept<CleanupRecord>)
    requires (k'.cleanups == k.cleanups && k'.cleanupIndex == k.cleanupIndex)
               || (k'.cleanups == k.cleanups[c.Key() := record]
                   && (k'.cleanupIndex == Added(k.cleanupIndex, c.superseded.accession.scope, c.Key())
                       || k'.cleanupIndex == Removed(k.cleanupIndex, c.superseded.accession.scope, c.Key())))
    ensures CleanupsWithin(k, k', c.superseded.accession)
  {
    AddedWithin(k.cleanupIndex, c.superseded.accession.scope, c.Key());
    hide Members, Added, Removed;
  }

  lemma PublishWithin(k: Keys, a: Accession, owner: string, verified: Record, published: Record,
                      expected: Option<string>, pending: Option<CleanupRecord>)
    requires pending.Some? ==> pending.value.superseded.accession == a
    ensures var k' := PublishScript(k, a, owner, verified, published, expected, pending).keys;
            && WithinFiling(k, k', a, GenerationKey(a, verified.manifest.gen)) && k'.leases == k.leases
            && (k' != k ==> k.Owns(a, owner))
            && (k'.active != k.active ==> k'.active == k.active[a := verified.manifest.gen])
  {
    hide RecoverableRecords, Members, Added, IndexWithin, CleanupsWithin;
    var k' := PublishScript(k, a, owner, verified, published, expected, pending).keys;
    IndexAdded(k, k', a);
    if pending.Some? {
      CleanupWithin(k, k', pending.value, Kept(pending.value, false));
    } else {
      NoCleanupChanged(k, k', a);
    }
  }

  lemma NoCleanupChanged(k: Keys, k': Keys, a: Accession)
    requires k'.cleanups == k.cleanups && k'.cleanupIndex == k.cleanupIndex
    ensures CleanupsWithin(k, k', a)
  {
  }

  lemma CleanWithin(k: Keys, a: Accession, owner: string, pending: CleanupRecord, key: GenerationKey)
    requires pending.superseded.accession == a
    ensures var k' := CleanSupersededScript(k, a, owner, pending).keys;
            && WithinFiling(k, k', a, key) && (k' != k ==> k.Owns(a, owner))
            && k'.leases == k.leases && k'.gens == k.gens && k'.active == k.active
  {
    hide Members, Added, Removed, IndexWithin, CleanupsWithin;
    var k' := CleanSupersededScript(k, a, owner, pending).keys;
    IndexAdded(k, k', a);
    CleanupWithin(k, k', pending, Kept(pending.(state := CleanupState.Done), true));
  }

  /** The only change of a lease: the worker's own is taken while free, or given up while held. */
  ghost predicate LeaseMoves(k: Keys, k': Keys, w: Worker) {
    || k'.leases == k.leases
    || (w.phase.Acquire? && w.Filing() !in k.leases && k'.Owns(w.Filing(), w.owner))
    || (w.phase.Release? && k.Owns(w.Filing(), w.owner) && w.Filing() !in k'.leases)
  }

  /** A command touches keys of its own filing only, and everything but a lease only under its lease;
      each kind of key only in its own phases. */
  lemma KeysWritten(s: World, w: Worker, c: Choice)
    requires WorkerOk(s, w)
    ensures var k, k' := s.keys, Step(s, w, c).world.keys;
            && WithinFiling(k, k', w.Filing(), KeyOf(w.manifest)) && LeaseMoves(k, k', w)
            && (k'.(leases := k.leases) != k ==> k.Owns(w.Filing(), w.owner))
            && (k'.gens != k.gens ==> WritesGeneration(w.phase))
            && (k'.active != k.active ==> w.phase.Publish? && k'.active == k.active[w.Filing() := w.manifest.gen])
            && (k'.cleanups != k.cleanups ==> w.phase.Publish? || w.phase.CleanupMark?)
  {
    hide WorkerOk, WithinFiling, PublishScript, CleanSupersededScript, Step;
    match w.phase
    case Publish => PublishWritten(s, w, c);
    case CleanupMark(_) => MarkWritten(s, w, c);
    case Acquire => AcquireWritten(s, w, c); AcquireStep(s, w, c);
    case Release => ReleaseWritten(s, w, c); ReleaseStep(s, w, c);
    case _ =>
      NothingOutside(s.keys, w.Filing(), KeyOf(w.manifest));
      if WritesGeneration(w.phase) {
        GenerationWritten(s, w, c);
      } else {
        NeitherWritten(s, w, c);
      }
  }

  lemma AcquireStep(s: World, w: Worker, c: Choice)
    requires w.phase.Acquire?
    ensures Step(s, w, c) == StepAcquire(s, w, c)
  {
    hide StepAcquire;
  }

  lemma ReleaseStep(s: World, w: Worker, c: Choice)
    requires w.phase.Release?
    ensures Step(s, w, c) == StepRelease(s, w, c)
  {
    hide StepRelease;
  }

  lemma PublishWritten(s: World, w: Worker, c: Choice)
    requires WorkerOk(s, w) && w.phase.Publish?
    ensures var k, k' := s.keys, Step(s, w, c).world.keys;
            && WithinFiling(k, k', w.Filing(), KeyOf(w.manifest)) && LeaseMoves(k, k', w)
            && k'.leases == k.leases && (k' != k ==> k.Owns(w.Filing(), w.owner))
            && (k'.active != k.active ==> k'.active == k.active[w.Filing() := w.manifest.gen])
  {
    hide Follows, PublishedAs, Distinct, WithinFiling, PublishScript;
    NothingOutside(s.keys, w.Filing(), KeyOf(w.manifest));
    PublishWithin(s.keys, w.Filing(), w.owner, VerifiedRecord(w.manifest), PublishedRecord(w.manifest),
                  if w.current.None? then None else Some(w.current.value.gen), PendingFor(w.current, w.manifest.gen));
  }

  lemma MarkWritten(s: World, w: Worker, c: Choice)
    requires WorkerOk(s, w) && w.phase.CleanupMark?
    ensures var k, k' := s.keys, Step(s, w, c).world.keys;
            && WithinFiling(k, k', w.Filing(), KeyOf(w.manifest)) && LeaseMoves(k, k', w)
            && (k' != k ==> k.Owns(w.Filing(), w.owner))
            && k'.leases == k.leases && k'.gens == k.gens && k'.active == k.active
  {
    hide Follows, PublishedAs, Distinct, WithinFiling, CleanSupersededScript;
    assert CleanupKnown(s, w.Filing(), w.phase.todo[0]);
    NothingOutside(s.keys, w.Filing(), KeyOf(w.manifest));
    CleanWithin(s.keys, w.Filing(), w.owner, w.phase.todo[0], KeyOf(w.manifest));
  }

  lemma AcquireWritten(s: World, w: Worker, c: Choice)
    requires w.phase.Acquire?
    ensures var k, k' := s.keys, StepAcquire(s, w, c).world.keys;
            && WithinFiling(k, k', w.Filing(), KeyOf(w.manifest)) && LeaseMoves(k, k', w) && k' == k.(leases := k'.leases)
  {
    hide WithinFiling, LeaseSeconds, Step, SameBut;
    var a := w.Filing();
    if a !in s.keys.leases && c.fate != Dropped {
      var lease := Lease(w.owner, s.now + LeaseSeconds(w.deadline - c.issued));
      SameButUpdated(s.keys.leases, a, lease);
      LeaseWithin(s.keys, s.keys.leases[a := lease], a, KeyOf(w.manifest));
    } else {
      NothingOutside(s.keys, a, KeyOf(w.manifest));
    }
  }

  lemma ReleaseWritten(s: World, w: Worker, c: Choice)
    requires w.phase.Release?
    ensures var k, k' := s.keys, StepRelease(s, w, c).world.keys;
            && WithinFiling(k, k', w.Filing(), KeyOf(w.manifest)) && LeaseMoves(k, k', w) && k' == k.(leases := k'.leases)
  {
    hide WithinFiling, Step, SameBut;
    var a := w.Filing();
    SameButUpdated(s.keys.leases, a, Lease(w.owner, 0.0));
    LeaseWithin(s.keys, s.keys.leases - {a}, a, KeyOf(w.manifest));
    NothingOutside(s.keys, a, KeyOf(w.manifest));
  }

  lemma SwapWithin(k: Keys, a: Accession, owner: string, from: Record, to: Record, volatile: bool)
    ensures var k' := SwapScript(k, a, owner, from, to, volatile).keys;
            WithinFiling(k, k', a, GenerationKey(a, from.manifest.gen)) && k' == k.(gens := k'.gens) && (k' != k ==> k.Owns(a, owner))
  {
    hide WithinFiling, SameBut;
    SameButUpdated(k.gens, GenerationKey(a, from.manifest.gen), Kept(to, volatile));
    NothingOutside(k, a, GenerationKey(a, from.manifest.gen));
    var k' := SwapScript(k, a, owner, from, to, volatile).keys;
    if k' != k {
      GenerationWithin(k, k'.gens, a, GenerationKey(a, from.manifest.gen));
    }
  }

  lemma StageWithin(k: Keys, a: Accession, owner: string, m: Manifest)
    ensures var k' := StageScript(k, a, owner, m).keys;
            WithinFiling(k, k', a, GenerationKey(a, m.gen)) && k' == k.(gens := k'.gens) && (k' != k ==> k.Owns(a, owner))
  {
    hide WithinFiling, RecoverableRecords, SameBut;
    SameButUpdated(k.gens, GenerationKey(a, m.gen), Kept(StagedRecord(m), false));
    NothingOutside(k, a, GenerationKey(a, m.gen));
    var k' := StageScript(k, a, owner, m).keys;
    if k' != k {
      GenerationWithin(k, k'.gens, a, GenerationKey(a, m.gen));
    }
  }

  ghost predicate GenerationOnly(k: Keys, k': Keys, w: Worker) {
    && WithinFiling(k, k', w.Filing(), KeyOf(w.manifest)) && k' == k.(gens := k'.gens)
    && (k' != k ==> k.Owns(w.Filing(), w.owner))
  }

  lemma GenerationWritten(s: World, w: Worker, c: Choice)
    requires WorkerOk(s, w) && WritesGeneration(w.phase) && !w.phase.Publish?
    ensures GenerationOnly(s.keys, Step(s, w, c).world.keys, w)
  {
    hide WithinFiling, RecoverableRecords, PublishedAs, StageScript, SwapScript, AllCleanupsKnown, BeforeStaging, GenerationOnly;
    var k, a := s.keys, w.Filing();
    match w.phase
    case Stage => StageOnly(k, w);
    case MarkVerified => SwapOnly(k, w, StagedRecord(w.manifest), VerifiedRecord(w.manifest), false);
    case AbortStage => SwapOnly(k, w, w.stage.value, w.stage.value.WithState(Aborted), false);
    case AbortClean(r) => SwapOnly(k, w, r, r.WithState(Cleaned), true);
  }

  lemma StageOnly(k: Keys, w: Worker)
    ensures GenerationOnly(k, k, w) && GenerationOnly(k, StageScript(k, w.Filing(), w.owner, w.manifest).keys, w)
  {
    hide WithinFiling, StageScript;
    NothingOutside(k, w.Filing(), KeyOf(w.manifest));
    StageWithin(k, w.Filing(), w.owner, w.manifest);
  }

  lemma SwapOnly(k: Keys, w: Worker, from: Record, to: Record, volatile: bool)
    requires from.manifest == w.manifest
    ensures GenerationOnly(k, k, w) && GenerationOnly(k, SwapScript(k, w.Filing(), w.owner, from, to, volatile).keys, w)
  {
    hide WithinFiling, SwapScript;
    NothingOutside(k, w.Filing(), KeyOf(w.manifest));
    SwapWithin(k, w.Filing(), w.owner, from, to, volatile);
  }

  lemma NeitherWritten(s: World, w: Worker, c: Choice)
    requires !WritesLease(w.phase) && !WritesGeneration(w.phase) && !w.phase.CleanupMark?
    ensures Step(s, w, c).world.keys == s.keys
  {
    hide LoadPending, ForFiling;
  }

  // ---------------------------------------------------------------- points

  /** Everything of other filings is as it was. */
  ghost predicate OthersKept(s: World, t: World, a: Accession) {
    && SameBut(s.keys.active, t.keys.active, a)
    && (forall c: CleanupKey | c.accession != a ::
          (c in t.keys.cleanups <==> c in s.keys.cleanups) && (c in s.keys.cleanups ==> t.keys.cleanups[c] == s.keys.cleanups[c]))
    && (forall k: GenerationKey | k.accession != a :: t.PointsOf(k) == s.PointsOf(k))
  }

  lemma OtherFilingsKept(s: World, w: Worker, c: Choice)
    requires WorkerOk(s, w)
    ensures OthersKept(s, Step(s, w, c).world, w.Filing())
  {
    DeletedFiling(s, w);
    hide WorkerOk, Step, IndexWithin;
    KeysWritten(s, w, c);
    var t := Step(s, w, c).world;
    forall k: GenerationKey | k.accession != w.Filing() ensures t.PointsOf(k) == s.PointsOf(k) {
      PointsWritten(s, w, c, k);
    }
  }

  lemma DeletedFiling(s: World, w: Worker)
    requires WorkerOk(s, w)
    ensures w.phase.CleanupDelete? && w.phase.todo != [] ==> w.phase.todo[0].superseded.accession == w.Filing()
  {
    if w.phase.CleanupDelete? {
      assert CleanupKnown(s, w.Filing(), w.phase.todo[0]);
    }
  }

  /** Points are added only by an upsert, to the worker's own generation and only its own chunk IDs; they
      are removed only by an abort's delete, from its own generation, and by a cleanup's delete, from
      the superseded generation it is about. An answered delete leaves nothing. */
  lemma PointsWritten(s: World, w: Worker, c: Choice, key: GenerationKey)
    ensures var before, after := s.PointsOf(key), Step(s, w, c).world.PointsOf(key);
            && (!(after <= before) ==> w.phase.Upsert? && key == KeyOf(w.manifest) && after <= before + w.manifest.Chunks())
            && (!(before <= after) ==>
                  || (w.phase.AbortDelete? && key == KeyOf(w.manifest))
                  || (w.phase.CleanupDelete? && w.phase.todo != [] && key == KeyOf(w.phase.todo[0].superseded)))
            && (c.fate == Delivered && w.phase.AbortDelete? && key == KeyOf(w.manifest) ==> after == {})
  {
    hide StageScript, SwapScript, PublishScript, CleanSupersededScript, LoadPending, ForFiling, RecoverableRecords;
  }

  lemma {:induction false} SmallSet(ids: seq<string>)
    ensures |set id | id in ids| <= |ids|
  {
    if ids != [] {
      SmallSet(ids[1..]);
      assert (set id | id in ids) == {ids[0]} + (set id | id in ids[1..]);
    } else {
      assert (set id | id in ids) == {};
    }
  }

  /** One upsert adds at most a hundred points. */
  lemma UpsertIsBounded(s: World, w: Worker, c: Choice)
    requires w.phase.Upsert?
    ensures |Step(s, w, c).world.PointsOf(KeyOf(w.manifest)) - s.PointsOf(KeyOf(w.manifest))| <= 100
  {
    var done, end := w.phase.done, BatchEnd(w.phase.done, |w.manifest.chunkIds|);
    var added := Step(s, w, c).world.PointsOf(KeyOf(w.manifest)) - s.PointsOf(KeyOf(w.manifest));
    if done <= end {
      var batch := w.manifest.chunkIds[done..end];
      SmallSet(batch);
      SubsetSize(added, set id | id in batch);
    } else {
      assert added == {};
    }
  }
}
