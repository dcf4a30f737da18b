/** Safety of the unfenced vector store when every lease outlives its holder's deadline: the points
    of an active generation are never removed, and no points are orphaned. */
module LeaseSafety {
  import opened Domain
  import opened RedisKeys
  import opened Lifecycle
  import opened Fencing
  import opened FencedRuns
  import opened FencingTheorems

  // ---------------------------------------------------------------- the lease rule

  lemma CeilIsCeiling(x: real)
    ensures Ceil(x) as real >= x && Ceil(x) as real < x + 1.0
  {
  }

  predicate LeaseCovers(issued: real, granted: real, deadline: real) {
    granted + LeaseSeconds(deadline - issued) >= deadline
  }

  /** A lease granted at any moment after it was requested covers the deadline exactly when the
      deadline is at most one hour away from the request. */
  lemma LeaseCoversDeadline(issued: real, deadline: real)
    ensures (forall granted | granted >= issued :: LeaseCovers(issued, granted, deadline))
            <==> deadline - issued <= MAX_LEASE_SECONDS
  {
    CeilIsCeiling(deadline - issued);
    if deadline - issued > MAX_LEASE_SECONDS {
      assert !LeaseCovers(issued, issued, deadline);
    }
  }

  ghost predicate Holding(p: Phase) {
    !p.Acquire? && !p.Finished?
  }

  /** The worker may still act under its lease. */
  ghost predicate Live(s: World, w: Worker) {
    Holding(w.phase) && s.now < w.deadline
  }

  ghost predicate HoldsLease(s: World, w: Worker) {
    && s.keys.Owns(w.Filing(), w.owner)
    && s.keys.leases[w.Filing()].expires >= w.deadline
  }

  // ---------------------------------------------------------------- invariants of the points

  ghost predicate ActiveComplete(s: World) {
    forall a | a in s.keys.active :: GenerationComplete(s, GenerationKey(a, s.keys.active[a]))
  }

  ghost predicate GenerationComplete(s: World, k: GenerationKey) {
    k in s.keys.gens && s.keys.gens[k].value.manifest.Chunks() <= s.PointsOf(k)
  }

  /** Points are present only for a generation in progress or one published and not yet cleaned. */
  ghost predicate NoOrphans(s: World) {
    forall k | s.PointsOf(k) != {} :: Accounted(s, k)
  }

  ghost predicate Accounted(s: World, k: GenerationKey) {
    && k in s.keys.gens
    && s.keys.gens[k].value.state != Cleaned
    && (s.keys.gens[k].value.state == Published ==> k.gen !in CleanedOf(s.cleaned, k.accession))
  }

  ghost predicate PrefixPresent(s: World, m: Manifest, n: nat) {
    n <= |m.chunkIds| && forall i | 0 <= i < n :: m.chunkIds[i] in s.PointsOf(KeyOf(m))
  }

  /** What a live worker relies on about its own generation. */
  ghost predicate Relies(s: World, w: Worker) {
    var m := w.manifest;
    var k := KeyOf(m);
    match w.phase
    case Embed => s.keys.Holds(k, StagedRecord(m))
    case Upsert(done) => s.keys.Holds(k, StagedRecord(m)) && PrefixPresent(s, m, done)
    case Verify(done) => s.keys.Holds(k, StagedRecord(m)) && PrefixPresent(s, m, done)
    case MarkVerified => s.keys.Holds(k, StagedRecord(m)) && PrefixPresent(s, m, |m.chunkIds|)
    case Publish => s.keys.Holds(k, VerifiedRecord(m)) && PrefixPresent(s, m, |m.chunkIds|)
    case AbortDelete(r) => s.keys.Holds(k, r)
    case AbortClean(r) => s.keys.Holds(k, r) && s.PointsOf(k) == {}
    case CleanupMark(todo) => todo != [] && s.PointsOf(KeyOf(todo[0].superseded)) == {}
    case _ => true
  }

  ghost predicate PointsOk(s: World) {
    ActiveComplete(s) && NoOrphans(s)
  }

  ghost predicate Guarded(s: World, w: Worker) {
    Live(s, w) ==> HoldsLease(s, w) && Relies(s, w)
  }

  ghost predicate OwnersOk(s: System) {
    && (forall id | id in s.workers :: s.workers[id].owner in s.owners)
    && (forall i, j | i in s.workers && j in s.workers && i != j :: s.workers[i].owner != s.workers[j].owner)
  }

  ghost predicate TimedOk(s: System) {
    && SystemOk(s) && PointsOk(s.world) && OwnersOk(s)
    && forall id | id in s.workers :: Guarded(s.world, s.workers[id])
  }

  // ---------------------------------------------------------------- steps act on one filing

  /** `t` differs from `s` only in what belongs to filing `a`. */
  ghost predicate Local(s: World, t: World, a: Accession) {
    && t.now == s.now
    && (forall k: GenerationKey | k.accession != a ::
          && (k in t.keys.gens <==> k in s.keys.gens)
          && (k in s.keys.gens ==> t.keys.gens[k] == s.keys.gens[k])
          && t.PointsOf(k) == s.PointsOf(k))
    && (forall b | b != a ::
          && (b in t.keys.leases <==> b in s.keys.leases)
          && (b in s.keys.leases ==> t.keys.leases[b] == s.keys.leases[b])
          && (b in t.keys.active <==> b in s.keys.active)
          && (b in s.keys.active ==> t.keys.active[b] == s.keys.active[b])
          && CleanedOf(t.cleaned, b) == CleanedOf(s.cleaned, b))
  }

  /** A live worker of another filing is untouched. */
  lemma GuardedElsewhere(s: World, t: World, a: Accession, w: Worker)
    requires Local(s, t, a) && WorkerOk(s, w) && w.Filing() != a && Guarded(s, w)
    ensures Guarded(t, w)
  {
    if w.phase.CleanupMark? {
      assert CleanupKnown(s, w.Filing(), w.phase.todo[0]);
    }
  }

  /** Two live workers never share a filing. */
  lemma LeaseExclusive(s: World, w: Worker, w': Worker)
    requires Live(s, w) && Live(s, w') && Guarded(s, w) && Guarded(s, w') && w.owner != w'.owner
    ensures w.Filing() != w'.Filing()
  {
  }

  /** Phases in which a worker relies on nothing but its lease. */
  ghost predicate Idle(p: Phase) {
    !p.Embed? && !p.Upsert? && !p.Verify? && !p.MarkVerified? && !p.Publish?
    && !p.AbortDelete? && !p.AbortClean? && !p.CleanupMark?
  }

  lemma IdleGuarded(t: World, w: Worker, w': Worker)
    requires w.SameRun(w') && Idle(w'.phase)
    requires HoldsLease(t, w)
    ensures Guarded(t, w')
  {
  }

  // ---------------------------------------------------------------- each step keeps the points

  /** Hypotheses and conclusion shared by the step lemmas below. */
  ghost predicate MayStep(s: World, w: Worker) {
    && KeysOk(s) && WorkerOk(s, w) && PointsOk(s) && s.now < w.deadline
    && (Holding(w.phase) ==> HoldsLease(s, w) && Relies(s, w))
  }

  ghost predicate StepSafe(s: World, w: Worker, e: Effect) {
    PointsOk(e.world) && Guarded(e.world, e.worker) && Local(s, e.world, w.Filing())
  }

  lemma SamePointsSafe(s: World, w: Worker)
    requires PointsOk(s)
    ensures Local(s, s, w.Filing())
  {
  }

  /** A change of leases leaves the points accounted for. */
  lemma LeasesSafe(s: World, leases: map<Accession, Lease>, a: Accession)
    requires PointsOk(s)
    requires forall b | b != a :: (b in leases <==> b in s.keys.leases) && (b in leases ==> leases[b] == s.keys.leases[b])
    ensures var t := s.(keys := s.keys.(leases := leases)); PointsOk(t) && Local(s, t, a)
  {
    var t := s.(keys := s.keys.(leases := leases));
    assert forall k :: t.PointsOf(k) == s.PointsOf(k);
    assert forall k | Accounted(s, k) :: Accounted(t, k);
    assert forall k | GenerationComplete(s, k) :: GenerationComplete(t, k);
  }

  lemma AcquireSafe(s: World, w: Worker, c: Choice)
    requires MayStep(s, w) && w.phase.Acquire? && w.deadline - MAX_LEASE_SECONDS <= c.issued <= s.now
    ensures StepSafe(s, w, StepAcquire(s, w, c))
    ensures w.Filing() in s.keys.leases ==> StepAcquire(s, w, c).world == s
  {
    hide KeysOk, WorkerOk, Distinct, Follows, PointsOk, Local, LeaseSeconds;
    LeaseCoversDeadline(c.issued, w.deadline);
    assert LeaseCovers(c.issued, s.now, w.deadline);
    SamePointsSafe(s, w);
    LeasesSafe(s, s.keys.leases[w.Filing() := Lease(w.owner, s.now + LeaseSeconds(w.deadline - c.issued))], w.Filing());
  }

  /** Writing a record of the worker's own, unpublished generation. */
  lemma WriteRecordSafe(s: World, k: GenerationKey, kept: Kept<Record>)
    requires PointsOk(s) && !PublishedAt(s.keys.gens, k) && HistoryOk(s.keys.gens, s.keys.active, s.history)
    requires kept.value.state != Published && (kept.value.state == Cleaned ==> s.PointsOf(k) == {})
    ensures var t := s.(keys := s.keys.(gens := s.keys.gens[k := kept])); PointsOk(t) && Local(s, t, k.accession)
  {
    var t := s.(keys := s.keys.(gens := s.keys.gens[k := kept]));
    assert forall k' :: t.PointsOf(k') == s.PointsOf(k');
    forall a | a in t.keys.active ensures GenerationComplete(t, GenerationKey(a, t.keys.active[a])) {
      assert s.keys.active[a] in s.history[a];
      assert PublishedAt(s.keys.gens, GenerationKey(a, s.keys.active[a]));
      assert GenerationComplete(s, GenerationKey(a, s.keys.active[a]));
    }
    forall k' | t.PointsOf(k') != {} ensures Accounted(t, k') {
      assert Accounted(s, k');
    }
  }

  lemma RecoverableUnpublished(m: Manifest, r: Record)
    requires r in RecoverableRecords(m)
    ensures r.state != Published
  {
  }

  lemma StageSafe(s: World, w: Worker, c: Choice)
    requires MayStep(s, w) && w.phase.Stage?
    ensures StepSafe(s, w, StepStage(s, w, c))
  {
    hide WorkerOk, RecordsOk, IndexOk, CleanupsOk, CleanupsComplete, CleanupIndexOk, HistoryOk, PointsOk, Local, Distinct,
         RecoverableRecords;
    SamePointsSafe(s, w);
    var key := KeyOf(w.manifest);
    var reply := StageScript(s.keys, w.Filing(), w.owner, w.manifest);
    if reply.code == 1 {
      if key in s.keys.gens {
        RecoverableUnpublished(w.manifest, s.keys.gens[key].value);
      }
      WriteRecordSafe(s, key, Kept(StagedRecord(w.manifest), false));
    }
  }

  lemma SwapSafe(s: World, w: Worker, from: Record, to: Record, volatile: bool)
    requires MayStep(s, w) && from.manifest == w.manifest && from.state != Published && to.state != Published
    requires to.state == Cleaned ==> s.PointsOf(KeyOf(w.manifest)) == {}
    ensures var r := SwapScript(s.keys, w.Filing(), w.owner, from, to, volatile); var t := s.(keys := r.keys);
            && PointsOk(t) && Local(s, t, w.Filing())
            && (r.code == 1 ==> t.keys.Holds(KeyOf(w.manifest), to))
            && (r.code != 1 ==> t == s)
            && t.keys.leases == s.keys.leases && t.points == s.points
  {
    hide WorkerOk, RecordsOk, IndexOk, CleanupsOk, CleanupsComplete, CleanupIndexOk, HistoryOk, PointsOk, Local, Distinct;
    SamePointsSafe(s, w);
    if SwapScript(s.keys, w.Filing(), w.owner, from, to, volatile).code == 1 {
      WriteRecordSafe(s, KeyOf(w.manifest), Kept(to, volatile));
    }
  }

  lemma MarkVerifiedSafe(s: World, w: Worker, c: Choice)
    requires MayStep(s, w) && w.phase.MarkVerified?
    ensures StepSafe(s, w, StepMarkVerified(s, w, c))
  {
    hide KeysOk, PointsOk, Distinct, Follows, AllCleanupsKnown, SwapScript, PublishedAs, Local;
    SamePointsSafe(s, w);
    SwapSafe(s, w, StagedRecord(w.manifest), VerifiedRecord(w.manifest), false);
  }

  lemma AbortSafe(s: World, w: Worker, c: Choice)
    requires MayStep(s, w) && w.phase.AbortStage?
    ensures StepSafe(s, w, StepAbort(s, w, c))
  {
    hide KeysOk, PointsOk, Distinct, Follows, AllCleanupsKnown, PrefixPresent, SwapScript, PublishedAs, Local;
    SamePointsSafe(s, w);
    SwapSafe(s, w, w.stage.value, w.stage.value.WithState(Aborted), false);
  }

  lemma AbortCleanSafe(s: World, w: Worker, c: Choice)
    requires MayStep(s, w) && w.phase.AbortClean?
    ensures StepSafe(s, w, StepAbortClean(s, w, c, w.phase.aborted))
  {
    hide KeysOk, PointsOk, Local, Distinct, PublishedAs, AllCleanupsKnown;
    SamePointsSafe(s, w);
    SwapSafe(s, w, w.phase.aborted, w.phase.aborted.WithState(Cleaned), true);
  }

  /** Adding points to a generation in progress. */
  lemma AddPointsSafe(s: World, k: GenerationKey, more: set<string>)
    requires PointsOk(s) && k in s.keys.gens && s.keys.gens[k].value.state !in {Published, Cleaned}
    ensures var t := s.WithPoints(k, s.PointsOf(k) + more); PointsOk(t) && Local(s, t, k.accession)
  {
    var t := s.WithPoints(k, s.PointsOf(k) + more);
    assert forall k' | k' != k :: t.PointsOf(k') == s.PointsOf(k');
    forall a | a in t.keys.active ensures GenerationComplete(t, GenerationKey(a, t.keys.active[a])) {
      assert GenerationComplete(s, GenerationKey(a, s.keys.active[a]));
    }
    forall k' | t.PointsOf(k') != {} ensures Accounted(t, k') {
      assert k' == k || Accounted(s, k');
    }
  }

  lemma UpsertSafe(s: World, w: Worker, c: Choice)
    requires MayStep(s, w) && w.phase.Upsert?
    ensures StepSafe(s, w, StepUpsert(s, w, c, w.phase.done))
  {
    hide KeysOk, PointsOk, Local, Distinct, PublishedAs, AllCleanupsKnown;
    var key := KeyOf(w.manifest);
    var done, end := w.phase.done, BatchEnd(w.phase.done, |w.manifest.chunkIds|);
    var e := StepUpsert(s, w, c, done);
    var batch := set id | id in w.manifest.chunkIds[done..end];
    var written := match c.fate case Delivered => batch case Dropped => {} case ReplyLost => batch * c.part;
    AddPointsSafe(s, key, written);
    assert e.world == s.WithPoints(key, s.PointsOf(key) + written);
    if c.fate == Delivered {
      forall i | 0 <= i < end ensures w.manifest.chunkIds[i] in e.world.PointsOf(key) {
        if done <= i {
          assert w.manifest.chunkIds[done..end][i - done] == w.manifest.chunkIds[i];
        }
      }
    }
  }

  lemma VerifySafe(s: World, w: Worker, c: Choice)
    requires MayStep(s, w) && w.phase.Verify?
    ensures StepSafe(s, w, Effect(s, StepVerify(s, w, c, w.phase.done)))
  {
    hide KeysOk, PointsOk, Local, Distinct, PublishedAs, AllCleanupsKnown;
    SamePointsSafe(s, w);
    var done, end := w.phase.done, BatchEnd(w.phase.done, |w.manifest.chunkIds|);
    if forall id | id in w.manifest.chunkIds[done..end] :: id in s.PointsOf(KeyOf(w.manifest)) {
      forall i | 0 <= i < end ensures w.manifest.chunkIds[i] in s.PointsOf(KeyOf(w.manifest)) {
        if done <= i {
          assert w.manifest.chunkIds[done..end][i - done] == w.manifest.chunkIds[i];
        }
      }
    }
  }

  /** Removing points of a generation that is not active. */
  lemma RemovePointsSafe(s: World, k: GenerationKey, fewer: set<string>)
    requires PointsOk(s) && fewer <= s.PointsOf(k) && !(k.accession in s.keys.active && s.keys.active[k.accession] == k.gen)
    ensures var t := s.WithPoints(k, fewer); PointsOk(t) && Local(s, t, k.accession)
  {
    var t := s.WithPoints(k, fewer);
    assert forall k' | k' != k :: t.PointsOf(k') == s.PointsOf(k');
    forall a | a in t.keys.active ensures GenerationComplete(t, GenerationKey(a, t.keys.active[a])) {
      assert GenerationComplete(s, GenerationKey(a, s.keys.active[a]));
    }
    forall k' | t.PointsOf(k') != {} ensures Accounted(t, k') {
      assert Accounted(s, k');
    }
  }

  lemma DeletedSafe(s: World, c: Choice, k: GenerationKey)
    requires PointsOk(s) && !(k.accession in s.keys.active && s.keys.active[k.accession] == k.gen)
    ensures PointsOk(Deleted(s, c, k)) && Local(s, Deleted(s, c, k), k.accession)
    ensures Deleted(s, c, k).keys == s.keys && Deleted(s, c, k).now == s.now
    ensures c.fate == Delivered ==> Deleted(s, c, k).PointsOf(k) == {}
    ensures forall k' | k' != k :: Deleted(s, c, k).PointsOf(k') == s.PointsOf(k')
  {
    RemovePointsSafe(s, k, {});
    RemovePointsSafe(s, k, s.PointsOf(k) - c.part);
  }

  lemma AbortedNotActive(s: World, k: GenerationKey)
    requires KeysOk(s) && k in s.keys.gens && s.keys.gens[k].value.state != Published
    ensures !(k.accession in s.keys.active && s.keys.active[k.accession] == k.gen)
  {
    if k.accession in s.keys.active {
      ActivePointerAccepted(s, k.accession);
    }
  }

  lemma AbortDeleteSafe(s: World, w: Worker, c: Choice)
    requires MayStep(s, w) && w.phase.AbortDelete?
    ensures StepSafe(s, w, StepAbortDelete(s, w, c, w.phase.aborted))
  {
    hide PointsOk, KeysOk, Distinct, Follows, AllCleanupsKnown, PrefixPresent;
    AbortedNotActive(s, KeyOf(w.manifest));
    DeletedSafe(s, c, KeyOf(w.manifest));
  }

  lemma CleanupDeleteSafe(s: World, w: Worker, c: Choice)
    requires MayStep(s, w) && w.phase.CleanupDelete?
    ensures StepSafe(s, w, StepCleanupDelete(s, w, c, w.phase.todo))
  {
    hide PointsOk, KeysOk, Follows;
    var p := w.phase.todo[0];
    RestKnown(s, w.Filing(), w.phase.todo);
    KnownNotActive(s, w.Filing(), p);
    DeletedSafe(s, c, KeyOf(p.superseded));
  }

  lemma CleanupMarkSafe(s: World, w: Worker, c: Choice)
    requires MayStep(s, w) && w.phase.CleanupMark?
    ensures StepSafe(s, w, StepCleanupMark(s, w, c, w.phase.todo))
  {
    hide KeysOk, PointsOk, Local, CleanupKnown, AllCleanupsKnown, Follows, Distinct;
    RestKnown(s, w.Filing(), w.phase.todo);
    CleanupKnownFiling(s, w.Filing(), w.phase.todo[0]);
    var e := StepCleanupMark(s, w, c, w.phase.todo);
    CompletionWrites(s, w, c, w.phase.todo);
    CompletionSafe(s, e.world, KeyOf(w.phase.todo[0].superseded));
    IdleGuarded(e.world, w, e.worker);
  }

  lemma CleanupKnownFiling(s: World, a: Accession, c: CleanupRecord)
    requires CleanupKnown(s, a, c)
    ensures c.superseded.accession == a
  {
  }

  lemma CompletionWrites(s: World, w: Worker, c: Choice, todo: seq<CleanupRecord>)
    requires todo != []
    ensures var t := StepCleanupMark(s, w, c, todo).world; var a := todo[0].superseded.accession;
            && t.points == s.points && t.keys.gens == s.keys.gens && t.keys.active == s.keys.active
            && t.keys.leases == s.keys.leases
            && (t.cleaned == s.cleaned || t.cleaned == s.cleaned[a := CleanedOf(s.cleaned, a) + {todo[0].superseded.gen}])
  {
  }

  /** Recording the cleanup of a generation without points. */
  lemma CompletionSafe(s: World, t: World, k: GenerationKey)
    requires PointsOk(s) && s.PointsOf(k) == {}
    requires t.points == s.points && t.now == s.now && t.keys.gens == s.keys.gens
    requires t.keys.active == s.keys.active && t.keys.leases == s.keys.leases
    requires t.cleaned == s.cleaned || t.cleaned == s.cleaned[k.accession := CleanedOf(s.cleaned, k.accession) + {k.gen}]
    ensures PointsOk(t) && Local(s, t, k.accession)
  {
    assert forall k' :: t.PointsOf(k') == s.PointsOf(k');
    forall a | a in t.keys.active ensures GenerationComplete(t, GenerationKey(a, t.keys.active[a])) {
      assert GenerationComplete(s, GenerationKey(a, s.keys.active[a]));
    }
    forall k' | t.PointsOf(k') != {} ensures Accounted(t, k') {
      assert Accounted(s, k');
      assert k' != k;
    }
  }

  lemma PublishSafe(s: World, w: Worker, c: Choice)
    requires MayStep(s, w) && w.phase.Publish?
    ensures StepSafe(s, w, StepPublish(s, w, c))
  {
    hide KeysOk, PointsOk, PublishScript, PrefixPresent, Distinct, Follows, PublishReply, AllCleanupsKnown, Local;
    SamePointsSafe(s, w);
    if c.fate != Dropped && PublishReply(s, w).code == 1 {
      PublishedSafe(s, w);
      assert StepPublish(s, w, c).world == PublishedWorld(s, w);
    } else {
      if c.fate != Dropped {
        PublishRefusedWritesNothing(s, w);
      }
      assert StepPublish(s, w, c).world == s;
    }
  }

  lemma PublishedSafe(s: World, w: Worker)
    requires MayStep(s, w) && w.phase.Publish? && PublishReply(s, w).code == 1
    ensures PointsOk(PublishedWorld(s, w)) && Local(s, PublishedWorld(s, w), w.Filing())
    ensures HoldsLease(PublishedWorld(s, w), w)
  {
    hide KeysOk, PointsOk, PublishReply, WorkerOk, Local, PrefixPresent;
    PublishWrites(s, w);
    assert !PublishedAt(s.keys.gens, KeyOf(w.manifest));
    FreshNeverCleaned(s, KeyOf(w.manifest));
    PrefixIsAll(s, w.manifest);
    ActivationSafe(s, PublishedWorld(s, w), w.manifest);
  }

  /** Making a complete, never cleaned generation the active one. */
  lemma ActivationSafe(s: World, t: World, m: Manifest)
    requires PointsOk(s) && m.Chunks() <= s.PointsOf(KeyOf(m)) && m.gen !in CleanedOf(s.cleaned, m.accession)
    requires t.points == s.points && t.now == s.now && t.cleaned == s.cleaned && t.keys.leases == s.keys.leases
    requires t.keys.gens == s.keys.gens[KeyOf(m) := Kept(PublishedRecord(m), false)]
    requires t.keys.active == s.keys.active[m.accession := m.gen]
    ensures PointsOk(t) && Local(s, t, m.accession)
  {
    assert forall k :: t.PointsOf(k) == s.PointsOf(k);
    forall a | a in t.keys.active ensures GenerationComplete(t, GenerationKey(a, t.keys.active[a])) {
      if a != m.accession {
        assert GenerationComplete(s, GenerationKey(a, s.keys.active[a]));
      }
    }
    forall k | t.PointsOf(k) != {} ensures Accounted(t, k) {
      assert Accounted(s, k);
    }
  }

  lemma PrefixIsAll(s: World, m: Manifest)
    requires PrefixPresent(s, m, |m.chunkIds|)
    ensures m.Chunks() <= s.PointsOf(KeyOf(m))
  {
  }

  lemma FreshNeverCleaned(s: World, k: GenerationKey)
    requires KeysOk(s) && !PublishedAt(s.keys.gens, k)
    ensures k.gen !in CleanedOf(s.cleaned, k.accession)
  {
  }

  lemma ReleaseSafe(s: World, w: Worker, c: Choice)
    requires MayStep(s, w) && w.phase.Release?
    ensures StepSafe(s, w, StepRelease(s, w, c))
  {
    hide KeysOk, WorkerOk, PointsOk, Local;
    SamePointsSafe(s, w);
    LeasesSafe(s, s.keys.leases - {w.Filing()}, w.Filing());
  }
}
