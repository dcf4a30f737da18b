/** Every step of every worker keeps the invariants of `Fencing`; what follows for whole runs. */
module FencedRuns {
  import opened Domain
  import opened RedisKeys
  import opened Lifecycle
  import opened Fencing

  /** What one step of the stepping worker establishes. */
  ghost predicate StepOk(s: World, e: Effect) {
    KeysOk(e.world) && Evolves(s, e.world) && WorkerOk(e.world, e.worker)
  }

  lemma LeasesKeep(s: World, leases: map<Accession, Lease>)
    requires KeysOk(s)
    ensures var t := s.(keys := s.keys.(leases := leases)); KeysOk(t) && Evolves(s, t)
  {
    hide HistoryOk, IndexOk, CleanupsOk, CleanupsComplete, CleanupIndexOk;
  }

  lemma PointsKeep(s: World, points: map<GenerationKey, set<string>>)
    requires KeysOk(s)
    ensures var t := s.(points := points); KeysOk(t) && Evolves(s, t)
  {
    hide HistoryOk, IndexOk, CleanupsOk, CleanupsComplete, CleanupIndexOk;
  }

  lemma SameWorld(s: World)
    ensures Evolves(s, s)
  {
  }

  // ---------------------------------------------------------------- steps that only read

  lemma ActivePointerAccepted(s: World, a: Accession)
    requires KeysOk(s) && a in s.keys.active
    ensures PublishedAt(s.keys.gens, GenerationKey(a, s.keys.active[a]))
    ensures ActiveRecordAccepted(s.keys, a, s.keys.active[a])
  {
    assert s.keys.active[a] in s.history[a];
  }

  /** A record reached through an active pointer is the PUBLISHED record of its manifest. */
  lemma PublishedIsProven(s: World, k: GenerationKey)
    requires KeysOk(s) && PublishedAt(s.keys.gens, k)
    ensures var r := s.keys.gens[k].value;
            r == PublishedRecord(r.manifest) && PublishedAs(s.keys.gens, r.manifest) && KeyOf(r.manifest) == k
  {
  }

  lemma ReadActiveKeeps(s: World, w: Worker, c: Choice)
    requires KeysOk(s) && WorkerOk(s, w) && w.phase.ReadActive?
    ensures StepOk(s, Effect(s, StepReadActive(s, w, c)))
  {
    hide Step, KeysOk, Evolves, Follows, CleanupKnown, AllCleanupsKnown, Distinct, PublishedAs;
    SameWorld(s);
    if w.Filing() in s.keys.active {
      ActivePointerAccepted(s, w.Filing());
    }
  }

  lemma ReadActiveRecordKeeps(s: World, w: Worker, c: Choice)
    requires KeysOk(s) && WorkerOk(s, w) && w.phase.ReadActiveRecord?
    ensures StepOk(s, Effect(s, StepReadActiveRecord(s, w, c, w.phase.gen)))
  {
    hide Step, KeysOk, Evolves, Follows, CleanupKnown, AllCleanupsKnown, Distinct, PublishedAs;
    SameWorld(s);
    PublishedIsProven(s, GenerationKey(w.Filing(), w.phase.gen));
  }

  lemma ConfirmActiveKeeps(s: World, w: Worker, c: Choice)
    requires KeysOk(s) && WorkerOk(s, w) && w.phase.ConfirmActive?
    ensures StepOk(s, Effect(s, StepConfirmActive(s, w, c)))
  {
    hide Step, KeysOk, Evolves, Follows, CleanupKnown, AllCleanupsKnown, Distinct, PublishedAs;
    SameWorld(s);
    if w.Filing() in s.keys.active {
      ActivePointerAccepted(s, w.Filing());
    }
  }

  lemma ConfirmRecordKeeps(s: World, w: Worker, c: Choice)
    requires KeysOk(s) && WorkerOk(s, w) && w.phase.ConfirmRecord?
    ensures StepOk(s, Effect(s, StepConfirmRecord(s, w, c, w.phase.gen)))
  {
    hide Step, KeysOk, Evolves, Follows, CleanupKnown, AllCleanupsKnown, Distinct, PublishedAs;
    SameWorld(s);
  }

  lemma RecoveryKeeps(s: World, w: Worker, c: Choice)
    requires KeysOk(s) && WorkerOk(s, w) && (w.phase.RecoveryList? || w.phase.RecoveryStage? || w.phase.RecoveryInspect?)
    ensures w.phase.RecoveryList? ==> StepOk(s, Effect(s, StepRecoveryList(s, w, c)))
    ensures w.phase.RecoveryStage? ==> StepOk(s, Effect(s, StepRecoveryStage(s, w, c)))
    ensures w.phase.RecoveryInspect? ==> StepOk(s, Effect(s, StepRecoveryInspect(s, w, c)))
  {
    hide Step, KeysOk, Evolves, Follows, CleanupKnown, AllCleanupsKnown, Distinct, PublishedAs;
    SameWorld(s);
  }

  lemma LocalKeeps(s: World, w: Worker, c: Choice)
    requires KeysOk(s) && WorkerOk(s, w) && (w.phase.CleanupList? || w.phase.Embed? || w.phase.Finished?)
    ensures StepOk(s, Step(s, w, c))
  {
    hide KeysOk, Evolves, Follows, CleanupKnown, AllCleanupsKnown, Distinct;
    SameWorld(s);
  }

  lemma RecoveryLoadKeeps(s: World, w: Worker, c: Choice)
    requires KeysOk(s) && WorkerOk(s, w) && w.phase.RecoveryLoad?
    ensures StepOk(s, Effect(s, StepRecoveryLoad(s, w, c, w.phase.keys)))
  {
    hide Step, KeysOk, Evolves, Follows, CleanupKnown, AllCleanupsKnown, Distinct, PublishedAs;
    SameWorld(s);
  }

  lemma VerifyKeeps(s: World, w: Worker, c: Choice)
    requires KeysOk(s) && WorkerOk(s, w) && w.phase.Verify?
    ensures StepOk(s, Effect(s, StepVerify(s, w, c, w.phase.done)))
  {
    hide Step, KeysOk, Evolves, Follows, CleanupKnown, AllCleanupsKnown, Distinct, PublishedAs;
    SameWorld(s);
  }

  lemma LoadedCleanupKnown(s: World, a: Accession, keys: seq<CleanupKey>, c: CleanupRecord)
    requires KeysOk(s)
    requires var r := LoadPending(s.keys, a.scope, keys); r.Some? && c in ForFiling(r.value, a)
    ensures CleanupKnown(s, a, c)
  {
    hide HistoryOk, IndexOk, CleanupsComplete, CleanupIndexOk;
    assert CleanupOk(s.keys.gens, s.history, s.cleaned, c.Key(), s.keys.cleanups[c.Key()]);
    assert PendingAccepted(s.keys, a.scope, c.Key());
  }

  lemma LoadedCleanupsKnown(s: World, a: Accession, keys: seq<CleanupKey>)
    requires KeysOk(s) && LoadPending(s.keys, a.scope, keys).Some?
    ensures AllCleanupsKnown(s, a, ForFiling(LoadPending(s.keys, a.scope, keys).value, a))
  {
    hide KeysOk, CleanupKnown;
    forall p | p in ForFiling(LoadPending(s.keys, a.scope, keys).value, a) ensures CleanupKnown(s, a, p) {
      LoadedCleanupKnown(s, a, keys, p);
    }
  }

  lemma CleanupLoadKeeps(s: World, w: Worker, c: Choice)
    requires KeysOk(s) && WorkerOk(s, w) && w.phase.CleanupLoad?
    ensures StepOk(s, Effect(s, StepCleanupLoad(s, w, c, w.phase.keys)))
  {
    hide Step, KeysOk, Evolves, Follows, CleanupKnown, AllCleanupsKnown, Distinct, LoadPending, ForFiling;
    SameWorld(s);
    if LoadPending(s.keys, w.Filing().scope, w.phase.keys).Some? {
      LoadedCleanupsKnown(s, w.Filing(), w.phase.keys);
    }
  }

  // ---------------------------------------------------------------- steps that write

  lemma AcquireKeeps(s: World, w: Worker, c: Choice)
    requires KeysOk(s) && WorkerOk(s, w) && w.phase.Acquire?
    ensures StepOk(s, StepAcquire(s, w, c))
  {
    hide Step, KeysOk, Evolves, Follows, CleanupKnown, AllCleanupsKnown, Distinct, PublishedAs;
    SameWorld(s);
    var lease := Lease(w.owner, s.now + LeaseSeconds(w.deadline - c.issued));
    LeasesKeep(s, s.keys.leases[w.Filing() := lease]);
    WorkerKnowledgeStable(s, StepAcquire(s, w, c).world, w);
  }

  lemma ReleaseKeeps(s: World, w: Worker, c: Choice)
    requires KeysOk(s) && WorkerOk(s, w) && w.phase.Release?
    ensures StepOk(s, StepRelease(s, w, c))
  {
    hide Step, KeysOk, Evolves, Follows, CleanupKnown, AllCleanupsKnown, Distinct, PublishedAs;
    SameWorld(s);
    LeasesKeep(s, s.keys.leases - {w.Filing()});
    WorkerKnowledgeStable(s, StepRelease(s, w, c).world, w);
  }

  lemma StageStepKeeps(s: World, w: Worker, c: Choice)
    requires KeysOk(s) && WorkerOk(s, w) && w.phase.Stage?
    ensures StepOk(s, StepStage(s, w, c))
  {
    hide Step, KeysOk, Evolves, Follows, CleanupKnown, AllCleanupsKnown, Distinct;
    SameWorld(s);
    StageKeeps(s, w.owner, w.manifest);
    WorkerKnowledgeStable(s, StepStage(s, w, c).world, w);
    if w.current.Some? && w.current.value.gen == w.manifest.gen && KeyOf(w.manifest) in s.keys.gens {
      RecoverableExactly(w.manifest, s.keys.gens[KeyOf(w.manifest)].value);
    }
  }

  lemma UpsertKeeps(s: World, w: Worker, c: Choice)
    requires KeysOk(s) && WorkerOk(s, w) && w.phase.Upsert?
    ensures StepOk(s, StepUpsert(s, w, c, w.phase.done))
  {
    hide Step, KeysOk, Evolves, Follows, CleanupKnown, AllCleanupsKnown, Distinct, PublishedAs;
    SameWorld(s);
    PointsKeep(s, StepUpsert(s, w, c, w.phase.done).world.points);
    WorkerKnowledgeStable(s, StepUpsert(s, w, c, w.phase.done).world, w);
  }

  lemma MarkVerifiedKeeps(s: World, w: Worker, c: Choice)
    requires KeysOk(s) && WorkerOk(s, w) && w.phase.MarkVerified?
    ensures StepOk(s, StepMarkVerified(s, w, c))
  {
    hide Step, KeysOk, Evolves, Follows, CleanupKnown, AllCleanupsKnown, Distinct, PublishedAs, SwapScript;
    SameWorld(s);
    SwapKeeps(s, w.owner, StagedRecord(w.manifest), VerifiedRecord(w.manifest), false);
    WorkerKnowledgeStable(s, StepMarkVerified(s, w, c).world, w);
  }

  lemma PublishStepKeeps(s: World, w: Worker, c: Choice)
    requires KeysOk(s) && WorkerOk(s, w) && w.phase.Publish?
    ensures StepOk(s, StepPublish(s, w, c))
  {
    hide Step, PublishScript, KeysOk, Evolves, Follows, CleanupKnown, AllCleanupsKnown, Distinct, PublishedAs;
    SameWorld(s);
    if c.fate != Dropped && PublishReply(s, w).code == 1 {
      PublishKeeps(s, w);
      assert StepPublish(s, w, c).world == PublishedWorld(s, w);
    } else {
      if c.fate != Dropped {
        PublishRefusedWritesNothing(s, w);
      }
      assert StepPublish(s, w, c).world == s;
    }
    WorkerKnowledgeStable(s, StepPublish(s, w, c).world, w);
  }

  lemma CleanupDeleteKeeps(s: World, w: Worker, c: Choice)
    requires KeysOk(s) && WorkerOk(s, w) && w.phase.CleanupDelete?
    ensures StepOk(s, StepCleanupDelete(s, w, c, w.phase.todo))
  {
    hide Step, KeysOk, Evolves, Follows, CleanupKnown, AllCleanupsKnown, Distinct, PublishedAs;
    SameWorld(s);
    PointsKeep(s, StepCleanupDelete(s, w, c, w.phase.todo).world.points);
    WorkerKnowledgeStable(s, StepCleanupDelete(s, w, c, w.phase.todo).world, w);
    RestKnown(StepCleanupDelete(s, w, c, w.phase.todo).world, w.Filing(), w.phase.todo);
  }

  lemma RestKnown(s: World, a: Accession, todo: seq<CleanupRecord>)
    requires todo != [] && AllCleanupsKnown(s, a, todo)
    ensures AllCleanupsKnown(s, a, todo[1..]) && CleanupKnown(s, a, todo[0])
  {
  }

  lemma CompletionRefusedWritesNothing(k: Keys, a: Accession, owner: string, c: CleanupRecord)
    ensures CleanSupersededScript(k, a, owner, c).code != 1 ==> CleanSupersededScript(k, a, owner, c).keys == k
  {
  }

  lemma CleanupMarkKeeps(s: World, w: Worker, c: Choice)
    requires KeysOk(s) && WorkerOk(s, w) && w.phase.CleanupMark?
    ensures StepOk(s, StepCleanupMark(s, w, c, w.phase.todo))
  {
    hide Step, KeysOk, Evolves, Follows, AllCleanupsKnown, Distinct, PublishedAs, CleanSupersededScript;
    SameWorld(s);
    var p := w.phase.todo[0];
    RestKnown(s, w.Filing(), w.phase.todo);
    if c.fate != Dropped && CleanSupersededScript(s.keys, w.Filing(), w.owner, p).code == 1 {
      CleanSupersededKeeps(s, w.owner, p);
      assert StepCleanupMark(s, w, c, w.phase.todo).world == CleanedWorld(s, w.owner, p);
    } else {
      CompletionRefusedWritesNothing(s.keys, w.Filing(), w.owner, p);
      assert StepCleanupMark(s, w, c, w.phase.todo).world == s;
    }
    WorkerKnowledgeStable(s, StepCleanupMark(s, w, c, w.phase.todo).world, w);
    RestKnown(StepCleanupMark(s, w, c, w.phase.todo).world, w.Filing(), w.phase.todo);
  }

  lemma AbortKeeps(s: World, w: Worker, c: Choice)
    requires KeysOk(s) && WorkerOk(s, w) && w.phase.AbortStage?
    ensures StepOk(s, StepAbort(s, w, c))
  {
    hide Step, KeysOk, Evolves, Follows, CleanupKnown, AllCleanupsKnown, Distinct, PublishedAs, SwapScript;
    SameWorld(s);
    SwapKeeps(s, w.owner, w.stage.value, w.stage.value.WithState(Aborted), false);
    WorkerKnowledgeStable(s, StepAbort(s, w, c).world, w);
  }

  lemma AbortDeleteKeeps(s: World, w: Worker, c: Choice)
    requires KeysOk(s) && WorkerOk(s, w) && w.phase.AbortDelete?
    ensures StepOk(s, StepAbortDelete(s, w, c, w.phase.aborted))
  {
    hide Step, KeysOk, Evolves, Follows, CleanupKnown, AllCleanupsKnown, Distinct, PublishedAs;
    PointsKeep(s, StepAbortDelete(s, w, c, w.phase.aborted).world.points);
    WorkerKnowledgeStable(s, StepAbortDelete(s, w, c, w.phase.aborted).world, w);
  }

  lemma AbortCleanKeeps(s: World, w: Worker, c: Choice)
    requires KeysOk(s) && WorkerOk(s, w) && w.phase.AbortClean?
    ensures StepOk(s, StepAbortClean(s, w, c, w.phase.aborted))
  {
    hide Step, KeysOk, Evolves, Follows, CleanupKnown, AllCleanupsKnown, Distinct, PublishedAs, SwapScript;
    SameWorld(s);
    SwapKeeps(s, w.owner, w.phase.aborted, w.phase.aborted.WithState(Cleaned), true);
    WorkerKnowledgeStable(s, StepAbortClean(s, w, c, w.phase.aborted).world, w);
  }

  lemma StepKeeps(s: World, w: Worker, c: Choice)
    requires KeysOk(s) && WorkerOk(s, w)
    ensures StepOk(s, Step(s, w, c))
  {
    hide KeysOk, StepOk, WorkerOk;
    match w.phase
    case Acquire => AcquireKeeps(s, w, c);
    case Stage => StageStepKeeps(s, w, c);
    case Upsert(_) => UpsertKeeps(s, w, c);
    case MarkVerified => MarkVerifiedKeeps(s, w, c);
    case Publish => PublishStepKeeps(s, w, c);
    case CleanupLoad(_) => CleanupLoadKeeps(s, w, c);
    case CleanupDelete(_) => CleanupDeleteKeeps(s, w, c);
    case CleanupMark(_) => CleanupMarkKeeps(s, w, c);
    case AbortStage => AbortKeeps(s, w, c);
    case AbortDelete(_) => AbortDeleteKeeps(s, w, c);
    case AbortClean(_) => AbortCleanKeeps(s, w, c);
    case Release => ReleaseKeeps(s, w, c);
    case ReadActive => ReadActiveKeeps(s, w, c);
    case ReadActiveRecord(_) => ReadActiveRecordKeeps(s, w, c);
    case ConfirmActive => ConfirmActiveKeeps(s, w, c);
    case ConfirmRecord(_) => ConfirmRecordKeeps(s, w, c);
    case RecoveryLoad(_) => RecoveryLoadKeeps(s, w, c);
    case Verify(_) => VerifyKeeps(s, w, c);
    case RecoveryList => RecoveryKeeps(s, w, c);
    case RecoveryStage => RecoveryKeeps(s, w, c);
    case RecoveryInspect => RecoveryKeeps(s, w, c);
    case _ => LocalKeeps(s, w, c);
  }

  // ---------------------------------------------------------------- whole runs

  lemma EnvironmentKeeps(s: System, e: Event)
    requires KeysOk(s.world) && Enabled(None, s, e) && !e.Act?
    ensures KeysOk(Next(s, e).world) && Evolves(s.world, Next(s, e).world)
  {
    hide HistoryOk, IndexOk, CleanupsOk, CleanupsComplete, CleanupIndexOk;
    match e
    case LeaseExpires(a) => LeasesKeep(s.world, s.world.keys.leases - {a});
    case MarkerExpires(k) => MarkerExpiryKeeps(s.world, k);
    case CleanupExpires(k) => CleanupExpiryKeeps(s.world, k);
    case _ =>
  }

  lemma NextKeeps(s: System, e: Event)
    requires SystemOk(s) && Enabled(None, s, e)
    ensures SystemOk(Next(s, e)) && Evolves(s.world, Next(s, e).world)
  {
    hide KeysOk, WorkerOk, Step;
    var t := Next(s, e);
    if e.Act? {
      StepKeeps(s.world, s.workers[e.id], e.choice);
    } else {
      EnvironmentKeeps(s, e);
    }
    forall id | id in t.workers ensures WorkerOk(t.world, t.workers[id]) {
      if id in s.workers && t.workers[id] == s.workers[id] {
        WorkerKnowledgeStable(s.world, t.world, s.workers[id]);
      } else if e.Begin? {
        FreshWorkerOk(t.world, e.worker);
      }
    }
  }

  lemma FreshWorkerOk(s: World, w: Worker)
    requires w.manifest.Valid() && w.phase == Acquire && w.current.None? && w.stage.None?
    ensures WorkerOk(s, w)
  {
  }

  lemma InitialOk(s: System)
    requires Initial(s)
    ensures SystemOk(s)
  {
  }

  /** In every reachable state the invariants hold, and each state evolves into every later one. */
  lemma {:induction false} RunKeeps(states: seq<System>, events: seq<Event>, i: nat, j: nat)
    requires Run(None, states, events) && i <= j < |states|
    ensures SystemOk(states[j]) && Evolves(states[i].world, states[j].world)
    decreases j
  {
    hide SystemOk, Evolves;
    if j == 0 {
      InitialOk(states[0]);
      SameWorld(states[0].world);
    } else {
      RunKeeps(states, events, if i == j then j - 1 else i, j - 1);
      NextKeeps(states[j - 1], events[j - 1]);
      assert states[j - 1 + 1] == Next(states[j - 1], events[j - 1]);
      if i == j {
        SameWorld(states[j].world);
      } else {
        EvolvesTransitive(states[i].world, states[j - 1].world, states[j].world);
      }
    }
  }

  /** The timed rule only removes behaviour. */
  lemma TimedRunsAreRuns(cap: real, states: seq<System>, events: seq<Event>)
    requires Run(Some(cap), states, events)
    ensures Run(None, states, events)
  {
    forall i | 0 <= i < |events| ensures Enabled(None, states[i], events[i]) {
      assert Enabled(Some(cap), states[i], events[i]) && states[i + 1] == Next(states[i], events[i]);
    }
  }
}
