/** Whole timed runs: safety of the points of active generations, and no orphaned points. */
module LeaseTheorems {
  import opened Domain
  import opened RedisKeys
  import opened Lifecycle
  import opened Fencing
  import opened FencedRuns
  import opened FencingTheorems
  import opened LeaseSafety

  // ---------------------------------------------------------------- steps that leave the world alone

  lemma ReadsAreIdle(s: World, w: Worker, c: Choice)
    ensures Idle(StepReadActive(s, w, c).phase) && Idle(StepConfirmActive(s, w, c).phase)
  {
  }

  lemma ListsAreIdle(s: World, w: Worker, c: Choice)
    ensures Idle(StepRecoveryList(s, w, c).phase) && Idle(StepRecoveryStage(s, w, c).phase)
    ensures Idle(StepRecoveryInspect(s, w, c).phase) && Idle(StepCleanupList(s, w, c).phase)
  {
    hide Distinct;
  }

  lemma LoadsAreIdle(s: World, w: Worker, c: Choice, gen: string, keys: seq<CleanupKey>)
    ensures Idle(StepReadActiveRecord(s, w, c, gen).phase) && Idle(StepConfirmRecord(s, w, c, gen).phase)
    ensures Idle(StepRecoveryLoad(s, w, c, keys).phase) && Idle(StepCleanupLoad(s, w, c, keys).phase)
  {
    hide LoadPending, ForFiling;
  }

  ghost predicate Reads(p: Phase) {
    || p.ReadActive? || p.ReadActiveRecord? || p.ConfirmActive? || p.ConfirmRecord?
    || p.RecoveryList? || p.RecoveryLoad? || p.RecoveryStage? || p.RecoveryInspect? || p.CleanupList? || p.CleanupLoad?
  }

  lemma ReadingSafe(s: World, w: Worker, c: Choice)
    requires MayStep(s, w) && Reads(w.phase)
    ensures StepSafe(s, w, Step(s, w, c))
  {
    hide KeysOk, WorkerOk, PointsOk, Relies, HoldsLease, Guarded, Local, Idle, StepReadActive, StepConfirmActive,
      StepRecoveryList, StepRecoveryStage, StepRecoveryInspect, StepCleanupList, StepReadActiveRecord, StepConfirmRecord,
      StepRecoveryLoad, StepCleanupLoad;
    SamePointsSafe(s, w);
    var w' := Step(s, w, c).worker;
    ReadsAreIdle(s, w, c);
    ListsAreIdle(s, w, c);
    match w.phase {
      case ReadActiveRecord(gen) => LoadsAreIdle(s, w, c, gen, []);
      case ConfirmRecord(gen) => LoadsAreIdle(s, w, c, gen, []);
      case RecoveryLoad(keys) => LoadsAreIdle(s, w, c, "", keys);
      case CleanupLoad(keys) => LoadsAreIdle(s, w, c, "", keys);
      case _ =>
    }
    IdleGuarded(s, w, w');
  }

  lemma EmbedSafe(s: World, w: Worker, c: Choice)
    requires MayStep(s, w) && (w.phase.Embed? || w.phase.Finished?)
    ensures StepSafe(s, w, Step(s, w, c))
  {
    hide KeysOk, WorkerOk, PointsOk, Local;
    SamePointsSafe(s, w);
  }

  lemma StepIsSafe(s: World, w: Worker, c: Choice)
    requires MayStep(s, w)
    requires w.phase.Acquire? ==> w.deadline - MAX_LEASE_SECONDS <= c.issued <= s.now
    ensures StepSafe(s, w, Step(s, w, c))
    ensures w.phase.Acquire? && w.Filing() in s.keys.leases ==> Step(s, w, c).world == s
    ensures w.phase.Finished? ==> Step(s, w, c).world == s
  {
    hide MayStep, StepSafe;
    match w.phase
    case Acquire => AcquireSafe(s, w, c);
    case Stage => StageSafe(s, w, c);
    case Upsert(_) => UpsertSafe(s, w, c);
    case Verify(_) => VerifySafe(s, w, c);
    case MarkVerified => MarkVerifiedSafe(s, w, c);
    case Publish => PublishSafe(s, w, c);
    case CleanupDelete(_) => CleanupDeleteSafe(s, w, c);
    case CleanupMark(_) => CleanupMarkSafe(s, w, c);
    case AbortStage => AbortSafe(s, w, c);
    case AbortDelete(_) => AbortDeleteSafe(s, w, c);
    case AbortClean(_) => AbortCleanSafe(s, w, c);
    case Release => ReleaseSafe(s, w, c);
    case Embed => EmbedSafe(s, w, c);
    case Finished => EmbedSafe(s, w, c);
    case _ => ReadingSafe(s, w, c);
  }

  // ---------------------------------------------------------------- whole runs

  /** A worker that does not move stays guarded while another one steps. */
  lemma OthersGuarded(cap: real, s: System, id: nat, c: Choice, other: nat)
    requires cap <= MAX_LEASE_SECONDS && TimedOk(s) && Enabled(Some(cap), s, Act(id, c)) && other in s.workers && other != id
    ensures Guarded(Step(s.world, s.workers[id], c).world, s.workers[other])
  {
    hide SystemOk, PointsOk, Step, KeysOk, WorkerOk, Relies;
    var w, w' := s.workers[id], s.workers[other];
    SystemParts(s, id);
    SystemParts(s, other);
    assert Guarded(s.world, w) && Guarded(s.world, w');
    assert MayStep(s.world, w);
    StepIsSafe(s.world, w, c);
    if w.Filing() != w'.Filing() {
      GuardedElsewhere(s.world, Step(s.world, w, c).world, w.Filing(), w');
    } else if Live(s.world, w') {
      assert !Live(s.world, w) by {
        if Live(s.world, w) {
          LeaseExclusive(s.world, w, w');
        }
      }
      assert Step(s.world, w, c).world == s.world;
    }
  }

  lemma SystemParts(s: System, id: nat)
    requires SystemOk(s) && id in s.workers
    ensures KeysOk(s.world) && WorkerOk(s.world, s.workers[id])
  {
  }

  lemma ActTimed(cap: real, s: System, id: nat, c: Choice)
    requires cap <= MAX_LEASE_SECONDS && TimedOk(s) && Enabled(Some(cap), s, Act(id, c))
    ensures TimedOk(Next(s, Act(id, c)))
  {
    hide SystemOk, PointsOk, Step, KeysOk, WorkerOk, Relies, Guarded;
    NextKeeps(s, Act(id, c));
    var t := Next(s, Act(id, c));
    var w := s.workers[id];
    SystemParts(s, id);
    assert MayStep(s.world, w) by {
      GuardedMeans(s.world, w);
    }
    StepIsSafe(s.world, w, c);
    forall other | other in t.workers ensures Guarded(t.world, t.workers[other]) {
      if other != id {
        OthersGuarded(cap, s, id, c, other);
      }
    }
  }

  lemma GuardedMeans(s: World, w: Worker)
    requires Guarded(s, w) && s.now < w.deadline
    ensures Holding(w.phase) ==> HoldsLease(s, w) && Relies(s, w)
  {
  }

  /** The environment's moves: time passes, keys expire, workers begin. */
  lemma EnvironmentTimed(cap: real, s: System, e: Event)
    requires cap <= MAX_LEASE_SECONDS && TimedOk(s) && Enabled(Some(cap), s, e) && !e.Act?
    ensures PointsOk(Next(s, e).world)
    ensures forall id | id in s.workers :: Guarded(Next(s, e).world, s.workers[id])
  {
    hide SystemOk, KeysOk, WorkerOk, Step, Distinct, Follows;
    var t := Next(s, e);
    assert forall k :: t.world.PointsOf(k) == s.world.PointsOf(k);
    if e.MarkerExpires? {
      SystemMarkers(s, e.key);
    }
    forall a | a in t.world.keys.active
      ensures GenerationComplete(t.world, GenerationKey(a, t.world.keys.active[a]))
    {
      assert GenerationComplete(s.world, GenerationKey(a, s.world.keys.active[a]));
      if e.MarkerExpires? {
        SystemActive(s, a);
      }
    }
    forall k | t.world.PointsOf(k) != {} ensures Accounted(t.world, k) {
      assert Accounted(s.world, k);
    }
    forall id | id in s.workers ensures Guarded(t.world, s.workers[id]) {
      if Live(t.world, s.workers[id]) {
        GuardedMeans(s.world, s.workers[id]);
        if e.MarkerExpires? {
          StageNotCleaned(s, id);
        }
      }
    }
  }

  lemma SystemMarkers(s: System, k: GenerationKey)
    requires SystemOk(s) && k in s.world.keys.gens && s.world.keys.gens[k].volatile
    ensures s.world.keys.gens[k].value.state == Cleaned
  {
  }

  lemma SystemActive(s: System, a: Accession)
    requires SystemOk(s) && a in s.world.keys.active
    ensures PublishedAt(s.world.keys.gens, GenerationKey(a, s.world.keys.active[a]))
  {
    ActivePointerAccepted(s.world, a);
  }

  lemma StageNotCleaned(s: System, id: nat)
    requires SystemOk(s) && id in s.workers
    ensures var w := s.workers[id];
            && (w.phase.AbortDelete? || w.phase.AbortClean? ==> w.phase.aborted.state == Aborted)
  {
    SystemParts(s, id);
  }

  lemma EnvironmentNext(cap: real, s: System, e: Event)
    requires cap <= MAX_LEASE_SECONDS && TimedOk(s) && Enabled(Some(cap), s, e) && !e.Act?
    ensures TimedOk(Next(s, e))
  {
    hide SystemOk, PointsOk, Guarded;
    NextKeeps(s, e);
    EnvironmentTimed(cap, s, e);
    var t := Next(s, e);
    if e.Begin? {
      NotLiveIsGuarded(t.world, e.worker);
    } else {
      assert t.workers == s.workers && t.owners == s.owners;
    }
  }

  lemma NotLiveIsGuarded(s: World, w: Worker)
    requires !Live(s, w)
    ensures Guarded(s, w)
  {
  }

  lemma NextTimed(cap: real, s: System, e: Event)
    requires cap <= MAX_LEASE_SECONDS && TimedOk(s) && Enabled(Some(cap), s, e)
    ensures TimedOk(Next(s, e))
  {
    hide TimedOk;
    if e.Act? {
      ActTimed(cap, s, e.id, e.choice);
    } else {
      EnvironmentNext(cap, s, e);
    }
  }

  lemma InitialTimed(s: System)
    requires Initial(s)
    ensures TimedOk(s)
  {
    InitialOk(s);
    assert forall k :: s.world.PointsOf(k) == {};
  }

  lemma {:induction false} TimedRunKeeps(cap: real, states: seq<System>, events: seq<Event>, i: nat)
    requires cap <= MAX_LEASE_SECONDS && Run(Some(cap), states, events) && i < |states|
    ensures TimedOk(states[i])
  {
    hide TimedOk;
    if i == 0 {
      InitialTimed(states[0]);
    } else {
      TimedRunKeeps(cap, states, events, i - 1);
      assert states[i - 1 + 1] == Next(states[i - 1], events[i - 1]);
      NextTimed(cap, states[i - 1], events[i - 1]);
    }
  }

  /** In every timed run, with any crashes, lost replies and expiries, every chunk of every active
      generation is present in the vector store. */
  lemma ActivePointsPresent(cap: real, states: seq<System>, events: seq<Event>, i: nat, a: Accession)
    requires cap <= MAX_LEASE_SECONDS && Run(Some(cap), states, events) && i < |states| && a in states[i].world.keys.active
    ensures var s := states[i].world; var key := GenerationKey(a, s.keys.active[a]);
            && key in s.keys.gens && KeyOf(s.keys.gens[key].value.manifest) == key
            && forall id | id in s.keys.gens[key].value.manifest.chunkIds :: id in s.PointsOf(key)
  {
    TimedRunKeeps(cap, states, events, i);
    var s := states[i].world;
    var key := GenerationKey(a, s.keys.active[a]);
    assert GenerationComplete(s, key);
    forall id | id in s.keys.gens[key].value.manifest.chunkIds ensures id in s.PointsOf(key) {
      assert id in s.keys.gens[key].value.manifest.Chunks();
    }
  }

  /** In every timed run, a generation with any point present is active, or has a PENDING cleanup,
      or has a STAGED, VERIFIED or ABORTED record from which it can be recovered. */
  lemma NoOrphanedPoints(cap: real, states: seq<System>, events: seq<Event>, i: nat, k: GenerationKey)
    requires cap <= MAX_LEASE_SECONDS && Run(Some(cap), states, events) && i < |states| && states[i].world.PointsOf(k) != {}
    ensures var s := states[i].world;
            || (k.accession in s.keys.active && s.keys.active[k.accession] == k.gen)
            || k.gen in Superseded(PendingOf(s, k.accession))
            || (k in s.keys.gens && s.keys.gens[k].value.state in {Staged, Verified, Aborted})
  {
    TimedRunKeeps(cap, states, events, i);
    var s := states[i].world;
    assert Accounted(s, k);
    if s.keys.gens[k].value.state == Published {
      PublishedAccounted(s, k);
    }
  }

  lemma PublishedAccounted(s: World, k: GenerationKey)
    requires KeysOk(s) && PublishedAt(s.keys.gens, k) && k.gen !in CleanedOf(s.cleaned, k.accession)
    ensures k.accession in s.keys.active
    ensures s.keys.active[k.accession] == k.gen || k.gen in Superseded(PendingOf(s, k.accession))
  {
    SplitOfHistory(s, k.accession);
    assert k.gen in Elements(s.history[k.accession]);
  }

  /** The failure handler never deletes an active generation's points, even after its own publish
      took effect and only the reply was lost: in every run, timed or not, the abort that must come
      first is refused and the handler goes straight to releasing its lease. */
  lemma LostPublishReplyIsNotAborted(states: seq<System>, events: seq<Event>, i: nat, id: nat, c: Choice)
    requires Run(None, states, events) && i < |states| && id in states[i].workers
    requires states[i].workers[id].phase.AbortStage?
    requires PublishedAt(states[i].world.keys.gens, KeyOf(states[i].workers[id].manifest))
    ensures var e := Step(states[i].world, states[i].workers[id], c);
            e.world == states[i].world && e.worker.phase == Release
  {
    RunKeeps(states, events, i, i);
    PublishedIsNotAborted(states[i].world, states[i].workers[id], c);
  }

  lemma PublishedIsNotAborted(s: World, w: Worker, c: Choice)
    requires KeysOk(s) && WorkerOk(s, w) && w.phase.AbortStage? && PublishedAt(s.keys.gens, KeyOf(w.manifest))
    ensures Step(s, w, c).world == s && Step(s, w, c).worker.phase == Release
  {
    hide KeysOk;
  }
}
