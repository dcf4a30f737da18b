/** Runs in which a filing's content reverts: one generation is published, then another, then the first
    one's manifest is ingested again and refused for good. */
module Reversion {
  import opened Domain
  import opened RedisKeys
  import opened Lifecycle
  import opened Reachability
  import opened Fencing
  import opened StepFrame
  import opened Undisturbed
  import R = FencedRuns

  lemma {:induction false} EnumerationExists(members: set<CleanupKey>)
    ensures exists order :: Enumerates(order, members)
  {
    if members == {} {
      var none: seq<CleanupKey> := [];
      assert Enumerates(none, members);
    } else {
      var k :| k in members;
      EnumerationExists(members - {k});
      var rest :| Enumerates(rest, members - {k});
      assert k !in (set x | x in rest);
      DistinctAppend(rest, k);
      assert (set x | x in rest + [k]) == (set x | x in rest) + {k};
      assert Enumerates(rest + [k], members);
    }
  }

  lemma AnswerExists(s: World, w: Worker)
    ensures exists c: Choice :: Answered(s, w, c) && c.issued == s.now
              && Enumerates(c.order, Members(s.keys.cleanupIndex, w.Filing().scope))
  {
    EnumerationExists(Members(s.keys.cleanupIndex, w.Filing().scope));
    var order :| Enumerates(order, Members(s.keys.cleanupIndex, w.Filing().scope));
    assert Answered(s, w, Choice(Delivered, s.now, {}, false, order));
  }

  /** The worker begins or acts at a moment the timing rule allows. */
  ghost predicate InTime(cap: Option<real>, now: real, w: Worker) {
    cap.Some? ==> now < w.deadline <= now + cap.value
  }

  /** From `s` to `t` only worker `id` moved. */
  ghost predicate MovedTo(s: System, t: System, id: nat) {
    && id in s.workers && id in t.workers && s.workers[id].SameRun(t.workers[id])
    && t.workers == s.workers[id := t.workers[id]] && t.owners == s.owners
    && t.world.now == s.world.now && Evolves(s.world, t.world) && OthersKept(s.world, t.world, s.workers[id].Filing())
    && (forall k | k != KeyOf(s.workers[id].manifest) :: k in t.world.keys.gens <==> k in s.world.keys.gens)
  }

  ghost predicate ReachesEnd(cap: Option<real>, s0: World, s: System, id: nat, t: System) {
    && Reaches(cap, t) && MovedTo(s, t, id)
    && t.workers[id].phase == Finished && Ok(s0, t.world, t.workers[id])
  }

  lemma OneMove(s: System, id: nat, c: Choice)
    requires id in s.workers && KeysOk(s.world) && WorkerOk(s.world, s.workers[id]) && Enabled(None, s, Act(id, c))
    ensures MovedTo(s, Next(s, Act(id, c)), id)
  {
    hide KeysOk, WorkerOk, Evolves, Step, WithinFiling, OthersKept;
    var w := s.workers[id];
    R.StepKeeps(s.world, w, c);
    KeysWritten(s.world, w, c);
    OtherFilingsKept(s.world, w, c);
    GenerationsWithin(s.world.keys, Step(s.world, w, c).world.keys, w.Filing(), KeyOf(w.manifest));
    EvolvesOf(s.world, Step(s.world, w, c));
  }

  lemma GenerationsWithin(k: Keys, k': Keys, a: Accession, key: GenerationKey)
    requires WithinFiling(k, k', a, key)
    ensures forall g | g != key :: g in k'.gens <==> g in k.gens
  {
  }

  lemma EvolvesOf(s: World, e: Effect)
    requires R.StepOk(s, e)
    ensures Evolves(s, e.world)
  {
  }

  lemma MovesCompose(s: System, t: System, u: System, id: nat)
    requires MovedTo(s, t, id) && MovedTo(t, u, id)
    ensures MovedTo(s, u, id)
  {
    hide Evolves, OthersKept;
    EvolvesTransitive(s.world, t.world, u.world);
    OthersKeptTransitive(s.world, t.world, u.world, s.workers[id].Filing());
  }

  lemma OthersKeptTransitive(s: World, t: World, u: World, a: Accession)
    requires OthersKept(s, t, a) && OthersKept(t, u, a)
    ensures OthersKept(s, u, a)
  {
  }

  lemma AnswerAdvances(s0: World, s: World, w: Worker, c: Choice)
    requires Ok(s0, s, w) && Answered(s, w, c) && w.phase != Finished
    ensures var e := Step(s, w, c); Ok(s0, e.world, e.worker) && Closer(w, e.worker)
  {
    hide Ok, Step, Answered, Closer;
    NextOk(s0, s, w, c);
    var e := Step(s, w, c);
    OkParts(s0, e.world, e.worker);
    StepAdvances(s0, s, w, c);
  }

  lemma ActAllowed(cap: Option<real>, s: System, id: nat, c: Choice)
    requires id in s.workers && InTime(cap, s.world.now, s.workers[id]) && c.issued == s.world.now
    requires Enumerates(c.order, Members(s.world.keys.cleanupIndex, s.workers[id].Filing().scope))
    ensures Enabled(cap, s, Act(id, c)) && Enabled(None, s, Act(id, c))
  {
    hide Enumerates;
  }

  /** One answered command of an undisturbed ingestion. */
  lemma Moves(cap: Option<real>, s0: World, s: System, id: nat) returns (c: Choice)
    requires Reaches(cap, s) && id in s.workers && Ok(s0, s.world, s.workers[id])
    requires InTime(cap, s.world.now, s.workers[id]) && s.workers[id].phase != Finished
    ensures Answered(s.world, s.workers[id], c) && Enabled(None, s, Act(id, c))
    ensures var t := Next(s, Act(id, c));
            && Reaches(cap, t) && MovedTo(s, t, id) && Ok(s0, t.world, t.workers[id]) && Closer(s.workers[id], t.workers[id])
  {
    hide Ok, Reaches, Step, Enumerates, MovedTo, Answered, Enabled, InTime, Closer;
    var w := s.workers[id];
    AnswerExists(s.world, w);
    c :| Answered(s.world, w, c) && c.issued == s.world.now
         && Enumerates(c.order, Members(s.world.keys.cleanupIndex, w.Filing().scope));
    OkParts(s0, s.world, w);
    AnswerAdvances(s0, s.world, w, c);
    ActAllowed(cap, s, id, c);
    OneMove(s, id, c);
    ReachesNext(cap, s, Act(id, c), Next(s, Act(id, c)));
  }

  /** Left to itself an undisturbed ingestion ends. */
  lemma {:induction false} IngestionEnds(cap: Option<real>, s0: World, s: System, id: nat)
    requires Reaches(cap, s) && id in s.workers && Ok(s0, s.world, s.workers[id]) && WorkLeft(s.workers[id]) >= 0
    requires InTime(cap, s.world.now, s.workers[id])
    ensures exists t :: ReachesEnd(cap, s0, s, id, t)
    decreases PhasesLeft(s.workers[id].phase), WorkLeft(s.workers[id])
  {
    hide Ok, Reaches, Step, Evolves;
    if s.workers[id].phase == Finished {
      Stays(s, id);
      assert ReachesEnd(cap, s0, s, id, s);
    } else {
      var c := Moves(cap, s0, s, id);
      var t := Next(s, Act(id, c));
      IngestionEnds(cap, s0, t, id);
      var u :| ReachesEnd(cap, s0, t, id, u);
      MovesCompose(s, t, u, id);
      assert ReachesEnd(cap, s0, s, id, u);
    }
  }

  lemma Stays(s: System, id: nat)
    requires id in s.workers
    ensures MovedTo(s, s, id)
  {
  }

  lemma OkParts(s0: World, s: World, w: Worker)
    requires Ok(s0, s, w)
    ensures KeysOk(s) && WorkerOk(s, w) && Inv(s0, s, w)
  {
  }

  // ---------------------------------------------------------------- one ingestion after another

  /** In `s` worker `w` begins as number `id`; in `t` it has ended, with the outcome of an undisturbed
      ingestion. */
  ghost predicate Ingests(s: System, id: nat, w: Worker, t: System) {
    && id !in s.workers && Starts(s.world, w)
    && id in t.workers && t.workers == s.workers[id := t.workers[id]] && t.owners == s.owners + {w.owner}
    && w.SameRun(t.workers[id]) && t.workers[id].phase == Finished && OthersKept(s.world, t.world, w.Filing())
    && t.world.now == s.world.now && t.world.keys.leases == s.world.keys.leases
    && KeysOk(t.world) && Evolves(s.world, t.world)
    && (forall k | k != KeyOf(w.manifest) :: k in t.world.keys.gens <==> k in s.world.keys.gens)
    && (if ActiveIs(s.world, w.manifest) || Publishable(s.world, w.manifest)
        then Ingested(s.world, t.world, w.manifest) else Untouched(s.world, t.world))
  }

  lemma IngestionReaches(cap: Option<real>, s: System, id: nat, w: Worker)
    requires Reaches(cap, s) && id !in s.workers && w.owner !in s.owners && Starts(s.world, w) && InTime(cap, s.world.now, w)
    ensures exists t :: Reaches(cap, t) && Ingests(s, id, w, t)
  {
    hide Reaches, KeysOk, Evolves, Ingested, Untouched, Publishable, ActiveIs, OthersKept;
    var u := Next(s, Begin(id, w));
    ReachesNext(cap, s, Begin(id, w), u);
    StartsOk(s.world, w);
    IngestionEnds(cap, s.world, u, id);
    var t :| ReachesEnd(cap, s.world, u, id, t);
    OkParts(s.world, t.world, t.workers[id]);
    FinishedOutcome(s.world, t.world, t.workers[id]);
    assert Ingests(s, id, w, t);
  }

  lemma FinishedOutcome(s0: World, t: World, w: Worker)
    requires Inv(s0, t, w) && w.phase == Finished
    ensures Ends(s0, t, w)
  {
  }

  function Fresh(m: Manifest, owner: string, deadline: real): Worker {
    Worker(m, owner, deadline, false, Acquire, None, None, false)
  }

  /** For any two generations of a filing there is a run, within any deadline cap, that publishes the
      first, then the second, and then ingests the first again: it is refused and changes nothing. */
  lemma RevertedContentIsRefused(cap: Option<real>, first: Manifest, second: Manifest)
    requires cap.Some? ==> cap.value > 0.0
    requires first.Valid() && second.Valid() && first.accession == second.accession && first.gen != second.gen
    ensures exists s: System, t: System, w: Worker :: Reaches(cap, s) && Reaches(cap, t) && w.manifest == first && Ingests(s, 2, w, t)
              && PublishedAs(s.world.keys.gens, first) && ActiveIs(s.world, second)
              && Untouched(s.world, t.world) && ActiveIs(t.world, second)
  {
    hide Reaches, KeysOk, Evolves, Ingests, ActiveIs, PublishedAs, Untouched, Distinct;
    var deadline := if cap.Some? then cap.value else 0.0;
    var s0 := System(World(EMPTY_KEYS, map[], 0.0, map[], map[]), map[], {});
    ReachesInitial(cap, s0);
    EmptyKeysOk(s0);
    IngestionReaches(cap, s0, 0, Fresh(first, "0", deadline));
    var s1 :| Reaches(cap, s1) && Ingests(s0, 0, Fresh(first, "0", deadline), s1);
    FirstPublished(s0, s1, first, deadline);
    IngestionReaches(cap, s1, 1, Fresh(second, "1", deadline));
    var s2 :| Reaches(cap, s2) && Ingests(s1, 1, Fresh(second, "1", deadline), s2);
    SecondPublished(s1, s2, first, second, deadline);
    IngestionReaches(cap, s2, 2, Fresh(first, "2", deadline));
    var t :| Reaches(cap, t) && Ingests(s2, 2, Fresh(first, "2", deadline), t);
    ThirdRefused(s2, t, first, second, deadline);
  }

  lemma EmptyKeysOk(s: System)
    requires Initial(s)
    ensures KeysOk(s.world)
  {
    R.InitialOk(s);
  }

  lemma FirstPublished(s0: System, s1: System, first: Manifest, deadline: real)
    requires s0.world.keys == EMPTY_KEYS && s0.workers == map[] && s0.owners == {} && s0.world.now == 0.0
    requires Ingests(s0, 0, Fresh(first, "0", deadline), s1)
    ensures s1.workers.Keys == {0} && s1.owners == {"0"} && s1.world.now == 0.0 && s1.world.keys.leases == map[] && KeysOk(s1.world)
    ensures ActiveIs(s1.world, first) && forall k | k != KeyOf(first) :: k !in s1.world.keys.gens
  {
    hide KeysOk, Evolves, RecoverableRecords;
    assert Publishable(s0.world, first);
  }

  lemma SecondPublished(s1: System, s2: System, first: Manifest, second: Manifest, deadline: real)
    requires s1.workers.Keys == {0} && s1.owners == {"0"} && s1.world.now == 0.0 && s1.world.keys.leases == map[]
    requires first.accession == second.accession && first.gen != second.gen
    requires ActiveIs(s1.world, first) && forall k | k != KeyOf(first) :: k !in s1.world.keys.gens
    requires Ingests(s1, 1, Fresh(second, "1", deadline), s2)
    ensures s2.workers.Keys == {0, 1} && s2.owners == {"0", "1"}
    ensures s2.world.now == 0.0 && s2.world.keys.leases == map[] && KeysOk(s2.world)
    ensures ActiveIs(s2.world, second) && PublishedAs(s2.world.keys.gens, first)
  {
    hide KeysOk, RecoverableRecords;
    assert Publishable(s1.world, second);
    assert PublishedAt(s1.world.keys.gens, KeyOf(first));
  }

  lemma ThirdRefused(s2: System, t: System, first: Manifest, second: Manifest, deadline: real)
    requires first.accession == second.accession && first.gen != second.gen
    requires ActiveIs(s2.world, second) && PublishedAs(s2.world.keys.gens, first)
    requires Ingests(s2, 2, Fresh(first, "2", deadline), t)
    ensures Untouched(s2.world, t.world) && ActiveIs(t.world, second)
  {
    hide KeysOk, Evolves, RecoverableRecords, Ingested;
    RecoverableState(first, PublishedRecord(first));
  }
}
