/** Two ingestions of different filings of one scope: the one that lists its pending cleanups while the
    other completes a cleanup fails closed, and leaves its own cleanup undone. */
module ListingRace {
  import opened Domain
  import opened RedisKeys
  import opened Lifecycle
  import opened Reachability
  import opened Fencing
  import opened StepFrame
  import opened PendingListing
  import opened Undisturbed
  import opened Reversion
  import R = FencedRuns
  import T = FencingTheorems

  // ---------------------------------------------------------------- an ingestion up to its cleanup

  /** Until an ingestion cleans up, no point goes and no awaited cleanup is completed. */
  ghost predicate Kept(s: World, t: World) {
    (forall k :: s.PointsOf(k) <= t.PointsOf(k)) && forall c | Awaits(s, c) :: Awaits(t, c)
  }

  lemma KeptTransitive(s: World, t: World, u: World)
    requires Kept(s, t) && Kept(t, u)
    ensures Kept(s, u)
  {
  }

  lemma EarlyKeeps(s: World, w: Worker, c: Choice)
    requires WorkerOk(s, w) && PhasesLeft(w.phase) > 3
    ensures Kept(s, Step(s, w, c).world)
  {
    hide Step, WorkerOk, WithinFiling;
    forall k ensures s.PointsOf(k) <= Step(s, w, c).world.PointsOf(k) {
      PointsWritten(s, w, c, k);
    }
    KeysWritten(s, w, c);
    if w.phase.Publish? {
      PublishAwaits(s, w, c);
    }
  }

  lemma PublishAwaits(s: World, w: Worker, c: Choice)
    requires w.phase.Publish?
    ensures forall p | Awaits(s, p) :: Awaits(Step(s, w, c).world, p)
  {
  }

  /** A publishable ingestion does not leave its path before its cleanup. */
  lemma EarlyStays(s0: World, s: World, w: Worker, c: Choice)
    requires Ok(s0, s, w) && Answered(s, w, c) && PhasesLeft(w.phase) > 3 && Publishable(s0, w.manifest)
    requires Inv(s0, Step(s, w, c).world, Step(s, w, c).worker)
    ensures PhasesLeft(Step(s, w, c).worker.phase) >= 3
  {
    hide KeysOk, WorkerOk, Inv, Step, Publishable, Answered;
    NoOtherPhase(s0, Step(s, w, c).world, Step(s, w, c).worker);
    match w.phase
    case Acquire => FirstStays(s0, s, w, c);
    case ReadActive => FirstStays(s0, s, w, c);
    case ReadActiveRecord(_) => ReadStays(s0, s, w, c);
    case Stage => StageStays(s0, s, w, c);
    case _ => LaterStays(s0, s, w, c);
  }

  lemma FirstStays(s0: World, s: World, w: Worker, c: Choice)
    requires Inv(s0, s, w) && Answered(s, w, c) && !w.recovery && (w.phase.Acquire? || w.phase.ReadActive?)
    ensures PhasesLeft(Step(s, w, c).worker.phase) >= 3
  {
    hide LeaseSeconds;
  }

  lemma ReadStays(s0: World, s: World, w: Worker, c: Choice)
    requires KeysOk(s) && Inv(s0, s, w) && Answered(s, w, c) && !w.recovery && w.phase.ReadActiveRecord?
    ensures PhasesLeft(Step(s, w, c).worker.phase) >= 3
  {
    hide KeysOk, OnlyLease, PublishedAs, Distinct;
    PointerHeld(s0, s, w);
    R.ActivePointerAccepted(s, w.Filing());
  }

  lemma PointerHeld(s0: World, s: World, w: Worker)
    requires Inv(s0, s, w) && w.phase.ReadActiveRecord?
    ensures w.Filing() in s.keys.active && s.keys.active[w.Filing()] == w.phase.gen
  {
  }

  lemma StageStays(s0: World, s: World, w: Worker, c: Choice)
    requires Inv(s0, s, w) && Answered(s, w, c) && w.phase.Stage? && Publishable(s0, w.manifest)
    ensures PhasesLeft(Step(s, w, c).worker.phase) >= 3
  {
    hide RecoverableRecords;
  }

  lemma LaterStays(s0: World, s: World, w: Worker, c: Choice)
    requires Ok(s0, s, w) && Answered(s, w, c)
    requires w.phase.Embed? || w.phase.Upsert? || w.phase.Verify? || w.phase.MarkVerified? || w.phase.Publish?
    requires !Step(s, w, c).worker.phase.AbortStage? && !Step(s, w, c).worker.phase.ConfirmActive?
    ensures PhasesLeft(Step(s, w, c).worker.phase) >= 3
  {
    hide KeysOk, SwapScript, PublishReply, Prefix, Held;
  }

  ghost predicate AtCleanup(cap: Option<real>, s0: World, s: System, id: nat, t: System) {
    && Reaches(cap, t) && MovedTo(s, t, id) && Kept(s.world, t.world)
    && t.workers[id].phase == CleanupList && Ok(s0, t.world, t.workers[id])
  }

  lemma {:induction false} ReachesCleanup(cap: Option<real>, s0: World, s: System, id: nat)
    requires Reaches(cap, s) && id in s.workers && Ok(s0, s.world, s.workers[id]) && WorkLeft(s.workers[id]) >= 0
    requires InTime(cap, s.world.now, s.workers[id])
    requires Publishable(s0, s.workers[id].manifest) && PhasesLeft(s.workers[id].phase) >= 3
    ensures exists t :: AtCleanup(cap, s0, s, id, t)
    decreases PhasesLeft(s.workers[id].phase), WorkLeft(s.workers[id])
  {
    hide Ok, Reaches, Step, Evolves, OthersKept, Publishable, Kept, Answered, Enumerates;
    var w := s.workers[id];
    if PhasesLeft(w.phase) == 3 {
      Stays(s, id);
      KeptAll(s.world);
      assert AtCleanup(cap, s0, s, id, s);
    } else {
      var c := Moves(cap, s0, s, id);
      var t := Next(s, Act(id, c));
      OkParts(s0, s.world, w);
      OkParts(s0, t.world, t.workers[id]);
      EarlyStays(s0, s.world, w, c);
      EarlyKeeps(s.world, w, c);
      ReachesCleanup(cap, s0, t, id);
      var u :| AtCleanup(cap, s0, t, id, u);
      MovesCompose(s, t, u, id);
      KeptTransitive(s.world, t.world, u.world);
      assert AtCleanup(cap, s0, s, id, u);
    }
  }

  lemma KeptAll(s: World)
    ensures Kept(s, s)
  {
  }

  /** In `s` worker `w` begins as number `id`; in `t` it has published and is about to clean up. */
  ghost predicate StartsCleanup(s: System, id: nat, w: Worker, t: System) {
    && id !in s.workers && id in t.workers && t.workers == s.workers[id := t.workers[id]] && t.owners == s.owners + {w.owner}
    && w.SameRun(t.workers[id]) && t.workers[id].phase == CleanupList && t.world.now == s.world.now
    && Evolves(s.world, t.world) && OthersKept(s.world, t.world, w.Filing()) && Kept(s.world, t.world)
    && (forall k | k != KeyOf(w.manifest) :: k in t.world.keys.gens <==> k in s.world.keys.gens)
    && Ok(s.world, t.world, t.workers[id])
  }

  lemma IngestionCleans(cap: Option<real>, s: System, id: nat, w: Worker)
    requires Reaches(cap, s) && id !in s.workers && w.owner !in s.owners && Starts(s.world, w) && InTime(cap, s.world.now, w)
    requires Publishable(s.world, w.manifest)
    ensures exists t :: Reaches(cap, t) && StartsCleanup(s, id, w, t)
  {
    hide Reaches, KeysOk, Evolves, Publishable, OthersKept, Kept, Ok;
    var u := Next(s, Begin(id, w));
    ReachesNext(cap, s, Begin(id, w), u);
    StartsOk(s.world, w);
    ReachesCleanup(cap, s.world, u, id);
    var t :| AtCleanup(cap, s.world, u, id, t);
    assert StartsCleanup(s, id, w, t);
  }

  // ---------------------------------------------------------------- two filings of one scope

  ghost predicate Serves(s: World, m: Manifest) {
    ActiveIs(s, m) && m.Chunks() <= s.PointsOf(KeyOf(m))
  }

  lemma ServesKept(s: World, t: World, a: Accession, m: Manifest)
    requires Serves(s, m) && OthersKept(s, t, a) && Evolves(s, t) && m.accession != a
    ensures Serves(t, m)
  {
    assert PublishedAt(s.keys.gens, KeyOf(m));
  }

  /** Both filings serve a generation, nobody holds a lease, and only those generations have records. */
  ghost predicate Settled(s: System, a: Manifest, b: Manifest) {
    && s.workers.Keys == {0, 1} && s.owners == {"0", "1"} && s.world.now == 0.0
    && s.world.keys.leases == map[] && KeysOk(s.world) && Serves(s.world, a) && Serves(s.world, b)
    && forall k | k in s.world.keys.gens :: k == KeyOf(a) || k == KeyOf(b)
  }

  lemma SettledReached(cap: Option<real>, a: Manifest, b: Manifest, deadline: real)
    requires cap.Some? ==> 0.0 < deadline <= cap.value
    requires a.Valid() && b.Valid() && a.accession != b.accession
    ensures exists s :: Reaches(cap, s) && Settled(s, a, b)
  {
    hide Reaches, KeysOk, Ingests, Settled, Distinct;
    var s0 := System(World(EMPTY_KEYS, map[], 0.0, map[], map[]), map[], {});
    ReachesInitial(cap, s0);
    EmptyKeysOk(s0);
    IngestionReaches(cap, s0, 0, Fresh(a, "0", deadline));
    var s1 :| Reaches(cap, s1) && Ingests(s0, 0, Fresh(a, "0", deadline), s1);
    FirstSettles(s0, s1, a, deadline);
    IngestionReaches(cap, s1, 1, Fresh(b, "1", deadline));
    var s2 :| Reaches(cap, s2) && Ingests(s1, 1, Fresh(b, "1", deadline), s2);
    SecondSettles(s1, s2, a, b, deadline);
  }

  lemma FirstSettles(s0: System, s1: System, a: Manifest, deadline: real)
    requires s0.world.keys == EMPTY_KEYS && s0.workers == map[] && s0.owners == {} && s0.world.now == 0.0
    requires Ingests(s0, 0, Fresh(a, "0", deadline), s1)
    ensures s1.workers.Keys == {0} && s1.owners == {"0"} && s1.world.now == 0.0 && s1.world.keys.leases == map[] && KeysOk(s1.world)
    ensures Serves(s1.world, a) && forall k | k in s1.world.keys.gens :: k == KeyOf(a)
  {
    hide KeysOk, Evolves, RecoverableRecords, OthersKept;
    assert Publishable(s0.world, a);
  }

  lemma SecondSettles(s1: System, s2: System, a: Manifest, b: Manifest, deadline: real)
    requires a.accession != b.accession
    requires s1.workers.Keys == {0} && s1.owners == {"0"} && s1.world.now == 0.0 && s1.world.keys.leases == map[]
    requires Serves(s1.world, a) && forall k | k in s1.world.keys.gens :: k == KeyOf(a)
    requires Ingests(s1, 1, Fresh(b, "1", deadline), s2)
    ensures Settled(s2, a, b)
  {
    hide KeysOk, Evolves, RecoverableRecords, OthersKept;
    assert Publishable(s1.world, b);
    ServesKept(s1.world, s2.world, b.accession, a);
  }

  /** The cleanup of `prior` awaits completion and its points are still there. */
  ghost predicate Owing(s: World, prior: Manifest, c: CleanupRecord) {
    Awaits(s, c) && c.superseded == prior && prior.Chunks() <= s.PointsOf(KeyOf(prior))
  }

  /** A worker that replaced a generation and is about to clean up owes its cleanup. */
  lemma OwesCleanup(s: System, id: nat, w: Worker, t: System, prior: Manifest)
    requires StartsCleanup(s, id, w, t) && Serves(s.world, prior) && prior.Valid()
    requires prior.accession == w.Filing() && prior.gen != w.manifest.gen
    ensures exists c :: Owing(t.world, prior, c)
  {
    hide KeysOk, WorkerOk, Evolves, OthersKept, Distinct, PublishedAs, Publishable;
    OkParts(s.world, t.world, t.workers[id]);
    assert Undisturbed.Done(s.world, t.world, w.manifest, w.owner);
    assert prior.chunkIds[0] in prior.Chunks() && KeyOf(prior) == GenerationKey(prior.accession, s.world.keys.active[prior.accession]);
    var c :| Awaits(t.world, c) && c.superseded.accession == prior.accession && c.superseded.gen == prior.gen;
    SameManifest(s.world, t.world, prior, c);
    assert s.world.PointsOf(KeyOf(prior)) <= t.world.PointsOf(KeyOf(prior));
    assert Owing(t.world, prior, c);
  }

  lemma SameManifest(s: World, t: World, prior: Manifest, c: CleanupRecord)
    requires KeysOk(t) && Evolves(s, t) && PublishedAs(s.keys.gens, prior) && Awaits(t, c) && KeyOf(c.superseded) == KeyOf(prior)
    ensures c.superseded == prior
  {
    hide RecordsOk, HistoryOk, IndexOk, CleanupsComplete, CleanupIndexOk, Follows;
    assert CleanupOk(t.keys.gens, t.history, t.cleaned, c.Key(), t.keys.cleanups[c.Key()]);
    assert PublishedAt(s.keys.gens, KeyOf(prior));
  }

  lemma OwingKept(s: World, t: World, a: Accession, prior: Manifest, c: CleanupRecord)
    requires Owing(s, prior, c) && OthersKept(s, t, a) && prior.accession != a
    ensures Owing(t, prior, c)
  {
  }

  // ---------------------------------------------------------------- the race

  /** Worker 2 has superseded `a` and waits in `phase`, owing the cleanup `p`. */
  ghost predicate Waits(s: System, first: Worker, phase: Phase, a: Manifest, p: CleanupRecord) {
    && 2 in s.workers && first.SameRun(s.workers[2]) && s.workers[2].phase == phase && s.world.now == 0.0
    && a.accession == first.Filing() && Owing(s.world, a, p) && ActiveIs(s.world, first.manifest)
  }

  ghost predicate Goes(s0: World, s: System, second: Worker) {
    3 in s.workers && second.SameRun(s.workers[3]) && Ok(s0, s.world, s.workers[3])
  }

  /** Both ingestions are about to clean up: worker 2 the cleanup `p`, worker 3 the cleanup `q`. */
  ghost predicate BothOwe(s0: World, s: System, first: Worker, second: Worker, a: Manifest, b: Manifest,
                          p: CleanupRecord, q: CleanupRecord)
  {
    && Waits(s, first, CleanupList, a, p) && Goes(s0, s, second) && s.workers[3].phase == CleanupList
    && b.accession == second.Filing() && Owing(s.world, b, q)
  }

  lemma BothOweReached(cap: Option<real>, a: Manifest, a': Manifest, b: Manifest, b': Manifest, deadline: real)
    requires cap.Some? ==> 0.0 < deadline <= cap.value
    requires a.Valid() && a'.Valid() && b.Valid() && b'.Valid() && a.accession != b.accession
    requires a.accession == a'.accession && a.gen != a'.gen && b.accession == b'.accession && b.gen != b'.gen
    ensures exists s0, s, p, q :: Reaches(cap, s) && BothOwe(s0, s, Fresh(a', "2", deadline), Fresh(b', "3", deadline), a, b, p, q)
  {
    hide Reaches, KeysOk, Settled, Distinct, StartsCleanup, Owing, Serves, BothOwe, RecoverableRecords;
    var first, second := Fresh(a', "2", deadline), Fresh(b', "3", deadline);
    SettledReached(cap, a, b, deadline);
    var s :| Reaches(cap, s) && Settled(s, a, b);
    FirstMayStart(s, a, b, first);
    IngestionCleans(cap, s, 2, first);
    var t :| Reaches(cap, t) && StartsCleanup(s, 2, first, t);
    OwesCleanup(s, 2, first, t, a);
    var p :| Owing(t.world, a, p);
    SecondMayStart(s, t, a, b, first, second);
    IngestionCleans(cap, t, 3, second);
    var u :| Reaches(cap, u) && StartsCleanup(t, 3, second, u);
    OwesCleanup(t, 3, second, u, b);
    var q :| Owing(u.world, b, q);
    BothDo(s, t, u, a, b, first, second, p, q);
  }

  lemma FirstMayStart(s: System, a: Manifest, b: Manifest, w: Worker)
    requires Settled(s, a, b) && w == Fresh(w.manifest, "2", w.deadline) && w.manifest.Valid()
    requires w.Filing() == a.accession && w.manifest.gen != a.gen && a.accession != b.accession
    ensures Starts(s.world, w) && Publishable(s.world, w.manifest) && 2 !in s.workers && w.owner !in s.owners
    ensures Serves(s.world, a) && s.world.now == 0.0
  {
    hide KeysOk, Serves;
    assert 2 !in s.workers.Keys;
  }

  lemma SecondMayStart(s: System, t: System, a: Manifest, b: Manifest, first: Worker, w: Worker)
    requires Settled(s, a, b) && StartsCleanup(s, 2, first, t) && first.owner == "2" && first.Filing() == a.accession
    requires w == Fresh(w.manifest, "3", w.deadline) && w.manifest.Valid()
    requires w.Filing() == b.accession && w.manifest.gen != b.gen && a.accession != b.accession
    ensures Starts(t.world, w) && Publishable(t.world, w.manifest) && 3 !in t.workers && w.owner !in t.owners
    ensures Serves(t.world, b) && t.world.now == 0.0
  {
    hide KeysOk, WorkerOk, Serves, Evolves, OthersKept, PublishedAs, RecoverableRecords, Kept, Distinct, Emptied, Replaced;
    ServesKept(s.world, t.world, first.Filing(), b);
    assert 3 !in s.workers.Keys;
    assert KeyOf(w.manifest) != KeyOf(first.manifest) && KeyOf(w.manifest) !in s.world.keys.gens;
    OkParts(s.world, t.world, t.workers[2]);
    assert Undisturbed.Done(s.world, t.world, first.manifest, first.owner);
  }

  lemma BothDo(s: System, t: System, u: System, a: Manifest, b: Manifest, first: Worker, second: Worker,
               p: CleanupRecord, q: CleanupRecord)
    requires StartsCleanup(s, 2, first, t) && StartsCleanup(t, 3, second, u) && t.world.now == 0.0
    requires a.accession == first.Filing() && b.accession == second.Filing() && a.accession != b.accession
    requires Owing(t.world, a, p) && Owing(u.world, b, q)
    ensures BothOwe(t.world, u, first, second, a, b, p, q)
  {
    hide KeysOk, WorkerOk, Evolves, OthersKept, Owing, PublishedAs;
    OwingKept(t.world, u.world, second.Filing(), a, p);
    OkParts(s.world, t.world, t.workers[2]);
    assert Undisturbed.Done(s.world, t.world, first.manifest, first.owner);
    StaysActive(t.world, u.world, second.Filing(), first.manifest);
  }

  lemma StaysActive(s: World, t: World, a: Accession, m: Manifest)
    requires ActiveIs(s, m) && OthersKept(s, t, a) && Evolves(s, t) && m.accession != a
    ensures ActiveIs(t, m)
  {
    assert PublishedAt(s.keys.gens, KeyOf(m));
  }

  // ---------------------------------------------------------------- the five commands

  lemma Acts(cap: Option<real>, s: System, id: nat) returns (c: Choice)
    requires Reaches(cap, s) && id in s.workers && InTime(cap, s.world.now, s.workers[id])
    ensures c.fate == Delivered && Enabled(None, s, Act(id, c)) && Reaches(cap, Next(s, Act(id, c)))
    ensures Enumerates(c.order, Members(s.world.keys.cleanupIndex, s.workers[id].Filing().scope))
  {
    hide Reaches, Step, Enumerates;
    AnswerExists(s.world, s.workers[id]);
    c :| Answered(s.world, s.workers[id], c) && c.issued == s.world.now
         && Enumerates(c.order, Members(s.world.keys.cleanupIndex, s.workers[id].Filing().scope));
    ActAllowed(cap, s, id, c);
    ReachesNext(cap, s, Act(id, c), Next(s, Act(id, c)));
  }

  /** A listing that finds an awaited cleanup goes on to load it. */
  lemma ListsAwaited(s: World, w: Worker, c: Choice, p: CleanupRecord)
    requires KeysOk(s) && w.phase.CleanupList? && c.fate == Delivered && Awaits(s, p) && p.superseded.accession.scope == w.Filing().scope
    requires Enumerates(c.order, Members(s.keys.cleanupIndex, w.Filing().scope))
    ensures p.Key() in c.order && Step(s, w, c) == Effect(s, w.(phase := CleanupLoad(c.order)))
  {
    hide KeysOk, Distinct, Awaits, Members;
    AwaitedIsIndexed(s, p);
    assert p.Key() in (set x | x in c.order);
  }

  lemma LoadsAwaited(s0: World, s: World, w: Worker, c: Choice, q: CleanupRecord)
    requires Ok(s0, s, w) && Answered(s, w, c) && w.phase.CleanupLoad? && Awaits(s, q) && q.superseded.accession == w.Filing()
    ensures var e := Step(s, w, c);
            && e.world == s && e.worker == w.(phase := e.worker.phase) && e.worker.phase.CleanupDelete? && e.worker.phase.todo != []
            && Awaits(s, e.worker.phase.todo[0]) && e.worker.phase.todo[0].superseded.accession == w.Filing()
  {
    hide KeysOk, WorkerOk, LoadPending, ForFiling, Enumerates, Distinct, Awaits;
    var keys := w.phase.keys;
    AllAccepted(s, w.Filing().scope, keys);
    AwaitedIsIndexed(s, q);
    AwaitedIsStored(s, q);
    var records := LoadPending(s.keys, w.Filing().scope, keys).value;
    var todo := ForFiling(records, w.Filing());
    assert q in todo && todo[0] in todo && todo[0] in records;
    LoadedAwaits(s, w.Filing().scope, keys, todo[0]);
  }

  lemma LoadedAwaits(s: World, scope: Scope, keys: seq<CleanupKey>, p: CleanupRecord)
    requires LoadPending(s.keys, scope, keys).Some? && p in LoadPending(s.keys, scope, keys).value
    ensures Awaits(s, p)
  {
    hide LoadPending;
    assert PendingAccepted(s.keys, scope, p.Key());
  }

  lemma DeletesNext(s: World, w: Worker, c: Choice)
    requires w.phase.CleanupDelete? && w.phase.todo != [] && Answered(s, w, c)
    ensures var e := Step(s, w, c); e.world.keys == s.keys && e.worker == w.(phase := CleanupMark(w.phase.todo))
  {
  }

  /** The mark takes the record off the pending list. */
  lemma MarksNext(s0: World, s: World, w: Worker, c: Choice)
    requires Ok(s0, s, w) && Answered(s, w, c) && w.phase.CleanupMark? && w.phase.todo != [] && Awaits(s, w.phase.todo[0])
    ensures !PendingAccepted(Step(s, w, c).world.keys, w.Filing().scope, w.phase.todo[0].Key())
  {
    hide KeysOk, PublishedAs, Publishable, Distinct, Follows, CleanupKnown, CleanSupersededScript, Emptied, Replaced;
    var todo := w.phase.todo;
    RestKnownHere(s, w);
    T.KnownNotActive(s, w.Filing(), todo[0]);
    KnownFiling(s, w.Filing(), todo[0]);
    HeldOwns(s0, s, w);
    MarkEffect(s, w.Filing(), w.owner, todo[0]);
  }

  lemma RestKnownHere(s: World, w: Worker)
    requires WorkerOk(s, w) && w.phase.CleanupMark? && w.phase.todo != []
    ensures CleanupKnown(s, w.Filing(), w.phase.todo[0])
  {
  }

  // ---------------------------------------------------------------- the run

  lemma SecondMoves(cap: Option<real>, s0: World, s: System, first: Worker, second: Worker, phase: Phase, a: Manifest, p: CleanupRecord)
    returns (c: Choice)
    requires Reaches(cap, s) && Waits(s, first, phase, a, p) && Goes(s0, s, second) && s.workers[3].phase != Finished
    requires InTime(cap, 0.0, second) && first.Filing() != second.Filing()
    ensures Answered(s.world, s.workers[3], c) && Enabled(None, s, Act(3, c))
    ensures var t := Next(s, Act(3, c)); Reaches(cap, t) && Waits(t, first, phase, a, p) && Goes(s0, t, second)
  {
    hide Reaches, Ok, Step, Owing, ActiveIs, Enumerates, OthersKept, Evolves, Answered;
    c := Moves(cap, s0, s, 3);
    var t := Next(s, Act(3, c));
    OwingKept(s.world, t.world, second.Filing(), a, p);
    StaysActive(s.world, t.world, second.Filing(), first.manifest);
  }

  /** Worker 3 is about to complete the cleanup `q`. */
  ghost predicate SecondMarks(s0: World, s: System, second: Worker, q: CleanupRecord) {
    && Goes(s0, s, second) && s.workers[3].phase.CleanupMark? && s.workers[3].phase.todo != [] && s.workers[3].phase.todo[0] == q
    && Awaits(s.world, q) && q.superseded.accession == second.Filing()
  }

  lemma SecondMarksReached(cap: Option<real>, s0: World, s: System, first: Worker, second: Worker, a: Manifest, b: Manifest,
                           p: CleanupRecord, q: CleanupRecord)
    requires Reaches(cap, s) && BothOwe(s0, s, first, second, a, b, p, q)
    requires InTime(cap, 0.0, second) && first.Filing() != second.Filing()
    ensures exists t, o :: Reaches(cap, t) && Waits(t, first, CleanupList, a, p) && SecondMarks(s0, t, second, o)
  {
    hide Reaches, Ok, Step, Owing, Enumerates, Awaits, Waits, Enabled, KeysOk, WorkerOk, Inv, Answered, InTime;
    OkParts(s0, s.world, s.workers[3]);
    OwingParts(s.world, b, q);
    var c := SecondMoves(cap, s0, s, first, second, CleanupList, a, p);
    ListsAnswered(s.world, s.workers[3], c, q);
    var t := Next(s, Act(3, c));
    var d := SecondMoves(cap, s0, t, first, second, CleanupList, a, p);
    LoadsAwaited(s0, t.world, t.workers[3], d, q);
    var u := Next(t, Act(3, d));
    var e := SecondMoves(cap, s0, u, first, second, CleanupList, a, p);
    DeletesNext(u.world, u.workers[3], e);
    var v := Next(u, Act(3, e));
    SameAwaits(u.world, v.world, u.workers[3].phase.todo[0]);
    assert SecondMarks(s0, v, second, u.workers[3].phase.todo[0]);
  }

  lemma SameAwaits(s: World, t: World, c: CleanupRecord)
    requires Awaits(s, c) && t.keys == s.keys
    ensures Awaits(t, c)
  {
  }

  lemma ListsAnswered(s: World, w: Worker, c: Choice, q: CleanupRecord)
    requires KeysOk(s) && w.phase.CleanupList? && Answered(s, w, c) && Awaits(s, q) && q.superseded.accession == w.Filing()
    ensures Step(s, w, c) == Effect(s, w.(phase := CleanupLoad(c.order)))
  {
    hide KeysOk, Step, Awaits, Enumerates;
    ListsAwaited(s, w, c, q);
  }

  /** Worker 2 lists the cleanup that worker 3 is about to complete. */
  lemma FirstLists(cap: Option<real>, s0: World, s: System, first: Worker, second: Worker, a: Manifest, p: CleanupRecord, q: CleanupRecord)
    returns (keys: seq<CleanupKey>)
    requires Reaches(cap, s) && Waits(s, first, CleanupList, a, p) && SecondMarks(s0, s, second, q)
    requires InTime(cap, 0.0, first) && first.Filing().scope == second.Filing().scope
    ensures q.Key() in keys
    ensures exists t :: Reaches(cap, t) && Waits(t, first, CleanupLoad(keys), a, p) && SecondMarks(s0, t, second, q)
  {
    hide Reaches, Ok, Step, Owing, ActiveIs, Enumerates, Awaits, KeysOk, WorkerOk, Inv, Enabled;
    OkParts(s0, s.world, s.workers[3]);
    var c := Acts(cap, s, 2);
    keys := c.order;
    ListsAwaited(s.world, s.workers[2], c, q);
    var t := Next(s, Act(2, c));
    assert Waits(t, first, CleanupLoad(keys), a, p) && SecondMarks(s0, t, second, q);
  }

  lemma OvertakenReached(cap: Option<real>, s0: World, s: System, first: Worker, second: Worker, a: Manifest, p: CleanupRecord, q: CleanupRecord)
    requires Reaches(cap, s) && Waits(s, first, CleanupList, a, p) && SecondMarks(s0, s, second, q)
    requires InTime(cap, 0.0, first) && InTime(cap, 0.0, second)
    requires first.Filing() != second.Filing() && first.Filing().scope == second.Filing().scope
    ensures exists t, keys :: Reaches(cap, t) && Waits(t, first, CleanupLoad(keys), a, p)
                              && LoadPending(t.world.keys, first.Filing().scope, keys).None?
  {
    hide Reaches, Ok, Step, Enumerates, Awaits, PendingAccepted, LoadPending, Waits, Enabled, InTime, Answered;
    var keys := FirstLists(cap, s0, s, first, second, a, p, q);
    var t :| Reaches(cap, t) && Waits(t, first, CleanupLoad(keys), a, p) && SecondMarks(s0, t, second, q);
    var d := SecondMoves(cap, s0, t, first, second, CleanupLoad(keys), a, p);
    MarksNext(s0, t.world, t.workers[3], d);
    var u := Next(t, Act(3, d));
    assert LoadPending(u.world.keys, first.Filing().scope, keys).None?;
  }

  /** For any generations `a`, `a'` of one filing and `b`, `b'` of another one in its scope there is a run,
      within any deadline cap, in which a' supersedes a, the ingestion of a' lists its cleanups, the
      ingestion of b' completes one of them, and the listing then fails closed: the ingestion of a' goes
      on to release its lease, and the cleanup of a is not done. */
  lemma OvertakenListingFails(cap: Option<real>, a: Manifest, a': Manifest, b: Manifest, b': Manifest)
    requires cap.Some? ==> cap.value > 0.0
    requires a.Valid() && a'.Valid() && b.Valid() && b'.Valid()
    requires a.accession == a'.accession && a.gen != a'.gen && b.accession == b'.accession && b.gen != b'.gen
    requires a.accession != b.accession && a.accession.scope == b.accession.scope
    ensures exists s: System, c: Choice, p: CleanupRecord ::
              && Reaches(cap, s) && 2 in s.workers && s.workers[2].manifest == a' && s.workers[2].phase.CleanupLoad?
              && Enabled(None, s, Act(2, c)) && c.fate == Delivered
              && LoadPending(s.world.keys, a.accession.scope, s.workers[2].phase.keys).None?
              && (var t := Next(s, Act(2, c));
                  && Reaches(cap, t) && t.workers[2].phase == Release
                  && ActiveIs(t.world, a') && Awaits(t.world, p) && p.superseded == a && a.Chunks() <= t.world.PointsOf(KeyOf(a)))
  {
    hide Reaches, Ok, Step, Owing, ActiveIs, Awaits, LoadPending, BothOwe, SecondMarks, Distinct, Enumerates;
    var deadline := if cap.Some? then cap.value else 0.0;
    var first, second := Fresh(a', "2", deadline), Fresh(b', "3", deadline);
    BothOweReached(cap, a, a', b, b', deadline);
    var s0, s, p, q :| Reaches(cap, s) && BothOwe(s0, s, first, second, a, b, p, q);
    SecondMarksReached(cap, s0, s, first, second, a, b, p, q);
    var t, o :| Reaches(cap, t) && Waits(t, first, CleanupList, a, p) && SecondMarks(s0, t, second, o);
    OvertakenReached(cap, s0, t, first, second, a, p, o);
    var u, keys :| Reaches(cap, u) && Waits(u, first, CleanupLoad(keys), a, p)
                   && LoadPending(u.world.keys, first.Filing().scope, keys).None?;
    var c := Acts(cap, u, 2);
    RefusedLoad(u.world, u.workers[2], c);
    OwingParts(u.world, a, p);
  }

  lemma OwingParts(s: World, m: Manifest, c: CleanupRecord)
    requires Owing(s, m, c)
    ensures Awaits(s, c) && c.superseded == m && m.Chunks() <= s.PointsOf(KeyOf(m))
  {
  }
}
