/** How long a deadline may be: the points of active generations are safe exactly when deadlines are at
    most an hour, because a lease lasts at most an hour and vector deletes are not fenced. */
module LeaseNeeded {
  import opened Domain
  import opened RedisKeys
  import opened Lifecycle
  import opened Reachability
  import T = LeaseTheorems

  ghost predicate PointsPresent(s: World, a: Accession)
    requires a in s.keys.active
  {
    var key := GenerationKey(a, s.keys.active[a]);
    key in s.keys.gens && forall id | id in s.keys.gens[key].value.manifest.chunkIds :: id in s.PointsOf(key)
  }

  /** In every run whose deadlines are at most `cap` away every active generation has all its points. */
  ghost predicate PointsKept(cap: real) {
    forall s, a | Reaches(Some(cap), s) && a in s.world.keys.active :: PointsPresent(s.world, a)
  }

  lemma DeadlineCapExact(cap: real)
    requires cap > 0.0
    ensures PointsKept(cap) <==> cap <= MAX_LEASE_SECONDS
  {
    if cap <= MAX_LEASE_SECONDS {
      forall s, a | Reaches(Some(cap), s) && a in s.world.keys.active ensures PointsPresent(s.world, a) {
        var states: seq<System>, events: seq<Event> :| Run(Some(cap), states, events) && states[|events|] == s;
        T.ActivePointsPresent(cap, states, events, |events|, a);
      }
    } else {
      LateDeleteRemovesActivePoints(cap);
    }
  }

  // ---------------------------------------------------------------- a deadline of more than an hour

  const A := Accession(Scope("corpus", "SYM"), "filing")
  const M := Manifest(A, "gen", "hash", ["chunk"])
  const HOUR := MAX_LEASE_SECONDS

  /** Two runs over the same manifest: the first, with a long deadline, loses its embedding and
      compensates; the second begins when the first one's lease is over. */
  function First(cap: real, phase: Phase, stage: Option<Record>): Worker {
    Worker(M, "first", cap, false, phase, None, stage, false)
  }

  function Second(phase: Phase, stage: Option<Record>, published: bool): Worker {
    Worker(M, "second", HOUR + 1.0, false, phase, None, stage, published)
  }

  const FIRST_LEASE: map<Accession, Lease> := map[A := Lease("first", HOUR)]
  const SECOND_LEASE: map<Accession, Lease> := map[A := Lease("second", HOUR + 1.0)]

  function Recorded(r: Record): map<GenerationKey, Kept<Record>> {
    map[KeyOf(M) := Kept(r, false)]
  }

  function Before(now: real, leases: map<Accession, Lease>, gens: map<GenerationKey, Kept<Record>>,
                  points: map<GenerationKey, set<string>>): World {
    World(Keys(leases, gens, map[], map[], map[], map[]), points, now, map[], map[])
  }

  function Published(points: map<GenerationKey, set<string>>): World {
    World(Keys(SECOND_LEASE, Recorded(PublishedRecord(M)), map[A := "gen"], map[A.scope := {A}], map[], map[]),
          points, HOUR, map[A := ["gen"]], map[])
  }

  function One(s: World, w: Worker): System {
    System(s, map[0 := w], {"first"})
  }

  function Both(s: World, w: Worker, v: Worker): System {
    System(s, map[0 := w, 1 := v], {"first", "second"})
  }

  /** An answered command; a lease is asked for at the moment it is granted. */
  function Go(now: real): Choice {
    Choice(Delivered, now, {}, false, [])
  }

  const LOST := Choice(Dropped, 0.0, {}, false, [])
  const ABORTED := StagedRecord(M).WithState(Aborted)
  const POINTS: map<GenerationKey, set<string>> := map[KeyOf(M) := {"chunk"}]

  /** The first worker, about to delete. */
  function Late(cap: real): Worker {
    First(cap, AbortDelete(ABORTED), Some(StagedRecord(M)))
  }

  lemma FirstActs(cap: real, s: World, w: Worker, c: Choice, t: World, w': Worker)
    requires Reaches(Some(cap), One(s, w)) && !w.phase.RecoveryList? && !w.phase.CleanupList? && Step(s, w, c) == Effect(t, w')
    requires s.now < w.deadline && (w.phase == Acquire ==> w.deadline - cap <= c.issued <= s.now)
    ensures Reaches(Some(cap), One(t, w'))
  {
    hide Reaches, Step;
    assert One(t, w').workers == One(s, w).workers[0 := w'];
    ReachesNext(Some(cap), One(s, w), Act(0, c), One(t, w'));
  }

  lemma SecondActs(cap: real, s: World, v: Worker, t: World, v': Worker)
    requires cap > HOUR && s.now == HOUR && v.deadline == HOUR + 1.0
    requires Reaches(Some(cap), Both(s, Late(cap), v)) && !v.phase.RecoveryList? && !v.phase.CleanupList?
    requires Step(s, v, Go(HOUR)) == Effect(t, v')
    ensures Reaches(Some(cap), Both(t, Late(cap), v'))
  {
    hide Reaches, Step;
    assert Both(t, Late(cap), v').workers == Both(s, Late(cap), v).workers[1 := v'];
    ReachesNext(Some(cap), Both(s, Late(cap), v), Act(1, Go(HOUR)), Both(t, Late(cap), v'));
  }

  lemma LeasesLast(cap: real)
    requires cap > HOUR
    ensures LeaseSeconds(cap - 0.0) == HOUR && LeaseSeconds(HOUR + 1.0 - HOUR) == 1.0
  {
    assert Ceil(1.0) == 1;
  }

  /** A worker takes the free lease, finds nothing active and stages. */
  lemma Acquires(now: real, gens: map<GenerationKey, Kept<Record>>, w: Worker, leases: map<Accession, Lease>)
    requires w == Worker(M, w.owner, w.deadline, false, Acquire, None, None, false)
    requires leases == map[A := Lease(w.owner, now + LeaseSeconds(w.deadline - now))]
    ensures Step(Before(now, map[], gens, map[]), w, Go(now)) == Effect(Before(now, leases, gens, map[]), w.(phase := ReadActive))
  {
  }

  lemma ReadsNothing(now: real, leases: map<Accession, Lease>, gens: map<GenerationKey, Kept<Record>>, w: Worker)
    requires w == Worker(M, w.owner, w.deadline, false, ReadActive, None, None, false)
    ensures Step(Before(now, leases, gens, map[]), w, Go(now)) == Effect(Before(now, leases, gens, map[]), w.(phase := Stage))
  {
  }

  lemma Stages(now: real, leases: map<Accession, Lease>, gens: map<GenerationKey, Kept<Record>>, w: Worker)
    requires gens == map[] || gens == Recorded(ABORTED)
    requires w == Worker(M, w.owner, w.deadline, false, Stage, None, None, false) && A in leases && leases[A].owner == w.owner
    ensures Step(Before(now, leases, gens, map[]), w, Go(now))
              == Effect(Before(now, leases, Recorded(StagedRecord(M)), map[]), w.(phase := Embed, stage := Some(StagedRecord(M))))
  {
    assert RecoverableRecords(M)[2] == ABORTED;
  }

  lemma FirstStages(cap: real)
    requires cap > HOUR
    ensures Reaches(Some(cap), One(Before(0.0, FIRST_LEASE, Recorded(StagedRecord(M)), map[]),
                                   First(cap, Embed, Some(StagedRecord(M)))))
  {
    var empty := Before(0.0, map[], map[], map[]);
    var s0 := System(empty, map[], {});
    assert empty.keys == EMPTY_KEYS;
    ReachesInitial(Some(cap), s0);
    hide Reaches, Step;
    ReachesNext(Some(cap), s0, Begin(0, First(cap, Acquire, None)), One(empty, First(cap, Acquire, None)));
    LeasesLast(cap);
    Acquires(0.0, map[], First(cap, Acquire, None), FIRST_LEASE);
    var leased := Before(0.0, FIRST_LEASE, map[], map[]);
    FirstActs(cap, empty, First(cap, Acquire, None), Go(0.0), leased, First(cap, ReadActive, None));
    ReadsNothing(0.0, FIRST_LEASE, map[], First(cap, ReadActive, None));
    FirstActs(cap, leased, First(cap, ReadActive, None), Go(0.0), leased, First(cap, Stage, None));
    Stages(0.0, FIRST_LEASE, map[], First(cap, Stage, None));
    FirstActs(cap, leased, First(cap, Stage, None), Go(0.0), Before(0.0, FIRST_LEASE, Recorded(StagedRecord(M)), map[]),
              First(cap, Embed, Some(StagedRecord(M))));
  }

  lemma FailsAndAborts(cap: real)
    ensures var staged := Before(0.0, FIRST_LEASE, Recorded(StagedRecord(M)), map[]); var stage := Some(StagedRecord(M));
            && Step(staged, First(cap, Embed, stage), LOST) == Effect(staged, First(cap, AbortStage, stage))
            && Step(staged, First(cap, AbortStage, stage), Go(0.0))
               == Effect(Before(0.0, FIRST_LEASE, Recorded(ABORTED), map[]), Late(cap))
  {
  }

  /** The first worker reaches its vector delete at once, and stays there until its lease is over. */
  lemma FirstWaits(cap: real)
    requires cap > HOUR
    ensures Reaches(Some(cap), One(Before(HOUR, map[], Recorded(ABORTED), map[]), Late(cap)))
  {
    FirstStages(cap);
    FailsAndAborts(cap);
    hide Reaches, Step;
    var staged, stage := Before(0.0, FIRST_LEASE, Recorded(StagedRecord(M)), map[]), Some(StagedRecord(M));
    FirstActs(cap, staged, First(cap, Embed, stage), LOST, staged, First(cap, AbortStage, stage));
    var aborted := Before(0.0, FIRST_LEASE, Recorded(ABORTED), map[]);
    FirstActs(cap, staged, First(cap, AbortStage, stage), Go(0.0), aborted, Late(cap));
    var later := Before(HOUR, FIRST_LEASE, Recorded(ABORTED), map[]);
    ReachesNext(Some(cap), One(aborted, Late(cap)), Elapse(HOUR), One(later, Late(cap)));
    assert FIRST_LEASE - {A} == map[];
    ReachesNext(Some(cap), One(later, Late(cap)), LeaseExpires(A), One(Before(HOUR, map[], Recorded(ABORTED), map[]), Late(cap)));
  }

  lemma SecondBegins(cap: real)
    requires cap > HOUR
    ensures Reaches(Some(cap), Both(Before(HOUR, map[], Recorded(ABORTED), map[]), Late(cap), Second(Acquire, None, false)))
  {
    FirstWaits(cap);
    hide Reaches;
    var s := One(Before(HOUR, map[], Recorded(ABORTED), map[]), Late(cap));
    var t := Both(s.world, Late(cap), Second(Acquire, None, false));
    assert s.workers[1 := Second(Acquire, None, false)] == t.workers && s.owners + {"second"} == t.owners;
    ReachesNext(Some(cap), s, Begin(1, Second(Acquire, None, false)), t);
  }

  lemma SecondStages(cap: real)
    requires cap > HOUR
    ensures Reaches(Some(cap), Both(Before(HOUR, SECOND_LEASE, Recorded(StagedRecord(M)), map[]), Late(cap),
                                    Second(Embed, Some(StagedRecord(M)), false)))
  {
    SecondBegins(cap);
    hide Reaches, Step;
    LeasesLast(cap);
    Acquires(HOUR, Recorded(ABORTED), Second(Acquire, None, false), SECOND_LEASE);
    var leased := Before(HOUR, SECOND_LEASE, Recorded(ABORTED), map[]);
    SecondActs(cap, Before(HOUR, map[], Recorded(ABORTED), map[]), Second(Acquire, None, false), leased,
               Second(ReadActive, None, false));
    ReadsNothing(HOUR, SECOND_LEASE, Recorded(ABORTED), Second(ReadActive, None, false));
    SecondActs(cap, leased, Second(ReadActive, None, false), leased, Second(Stage, None, false));
    Stages(HOUR, SECOND_LEASE, Recorded(ABORTED), Second(Stage, None, false));
    SecondActs(cap, leased, Second(Stage, None, false), Before(HOUR, SECOND_LEASE, Recorded(StagedRecord(M)), map[]),
               Second(Embed, Some(StagedRecord(M)), false));
  }

  lemma Upserts()
    ensures var staged := Before(HOUR, SECOND_LEASE, Recorded(StagedRecord(M)), map[]); var stage := Some(StagedRecord(M));
            && Step(staged, Second(Embed, stage, false), Go(HOUR)) == Effect(staged, Second(Upsert(0), stage, false))
            && Step(staged, Second(Upsert(0), stage, false), Go(HOUR))
               == Effect(Before(HOUR, SECOND_LEASE, Recorded(StagedRecord(M)), POINTS), Second(Verify(0), stage, false))
  {
    assert M.chunkIds[0..1] == ["chunk"];
    assert {} + (set id | id in M.chunkIds[0..1]) == {"chunk"};
  }

  lemma Verifies()
    ensures var full := Before(HOUR, SECOND_LEASE, Recorded(StagedRecord(M)), POINTS); var stage := Some(StagedRecord(M));
            && Step(full, Second(Verify(0), stage, false), Go(HOUR)) == Effect(full, Second(MarkVerified, stage, false))
            && Step(full, Second(MarkVerified, stage, false), Go(HOUR))
               == Effect(Before(HOUR, SECOND_LEASE, Recorded(VerifiedRecord(M)), POINTS),
                         Second(Publish, Some(VerifiedRecord(M)), false))
  {
    assert M.chunkIds[0..1] == ["chunk"];
  }

  lemma SecondVerifies(cap: real)
    requires cap > HOUR
    ensures Reaches(Some(cap), Both(Before(HOUR, SECOND_LEASE, Recorded(VerifiedRecord(M)), POINTS), Late(cap),
                                    Second(Publish, Some(VerifiedRecord(M)), false)))
  {
    SecondStages(cap);
    Upserts();
    Verifies();
    hide Reaches, Step;
    var staged := Before(HOUR, SECOND_LEASE, Recorded(StagedRecord(M)), map[]);
    var full := Before(HOUR, SECOND_LEASE, Recorded(StagedRecord(M)), POINTS);
    var stage := Some(StagedRecord(M));
    SecondActs(cap, staged, Second(Embed, stage, false), staged, Second(Upsert(0), stage, false));
    SecondActs(cap, staged, Second(Upsert(0), stage, false), full, Second(Verify(0), stage, false));
    SecondActs(cap, full, Second(Verify(0), stage, false), full, Second(MarkVerified, stage, false));
    SecondActs(cap, full, Second(MarkVerified, stage, false), Before(HOUR, SECOND_LEASE, Recorded(VerifiedRecord(M)), POINTS),
               Second(Publish, Some(VerifiedRecord(M)), false));
  }

  lemma Publishes()
    ensures Step(Before(HOUR, SECOND_LEASE, Recorded(VerifiedRecord(M)), POINTS),
                 Second(Publish, Some(VerifiedRecord(M)), false), Go(HOUR))
              == Effect(Published(POINTS), Second(CleanupList, Some(VerifiedRecord(M)), true))
  {
    assert [] + [M.gen] == ["gen"] && {} + {A} == {A};
    assert Added(map[], A.scope, A) == map[A.scope := {A}];
  }

  lemma DeletesLate(cap: real)
    ensures Step(Published(POINTS), Late(cap), Go(HOUR))
              == Effect(Published(map[KeyOf(M) := {}]), First(cap, AbortClean(ABORTED), Some(StagedRecord(M))))
  {
  }

  /** The first worker deletes before its own deadline and after its lease: the active generation has
      lost its only point. */
  lemma LateDeleteRemovesActivePoints(cap: real)
    requires cap > HOUR
    ensures exists s :: Reaches(Some(cap), s) && A in s.world.keys.active && s.world.keys.active[A] == M.gen
                        && PublishedAs(s.world.keys.gens, M) && s.world.PointsOf(KeyOf(M)) == {}
    ensures !PointsKept(cap)
  {
    SecondVerifies(cap);
    Publishes();
    DeletesLate(cap);
    hide Reaches, Step;
    var v := Second(CleanupList, Some(VerifiedRecord(M)), true);
    SecondActs(cap, Before(HOUR, SECOND_LEASE, Recorded(VerifiedRecord(M)), POINTS), Second(Publish, Some(VerifiedRecord(M)), false),
               Published(POINTS), v);
    var s := Both(Published(POINTS), Late(cap), v);
    var t := Both(Published(map[KeyOf(M) := {}]), First(cap, AbortClean(ABORTED), Some(StagedRecord(M))), v);
    assert s.workers[0 := First(cap, AbortClean(ABORTED), Some(StagedRecord(M)))] == t.workers;
    ReachesNext(Some(cap), s, Act(0, Go(HOUR)), t);
    assert "chunk" in M.chunkIds;
    assert !PointsPresent(t.world, A);
  }
}
