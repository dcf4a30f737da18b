/** What the driver leaves behind when it gives up after staging: compensation, from every reachable state. */
module Compensation {
  import opened Domain
  import opened RedisKeys
  import opened Lifecycle
  import opened Fencing
  import opened FencedRuns
  import opened StepFrame
  import U = Undisturbed
  import L = LeaseSafety

  // ---------------------------------------------------------------- what a held lease guarantees

  ghost predicate Staging(p: Phase) {
    p.Embed? || p.Upsert? || p.Verify? || p.MarkVerified?
  }

  ghost predicate BeforePublication(p: Phase) {
    BeforeStaging(p) || Staging(p) || p.Publish?
  }

  /** What the worker read is still active, and its record is the one it wrote. */
  ghost predicate Undisputed(s: World, w: Worker) {
    match w.phase
    case ReadActiveRecord(gen) => w.Filing() in s.keys.active && s.keys.active[w.Filing()] == gen
    case Stage => U.Current(s, w)
    case RecoveryList => U.Current(s, w)
    case RecoveryLoad(_) => U.Current(s, w)
    case RecoveryStage => U.Current(s, w)
    case RecoveryInspect => U.Current(s, w)
    case Embed => U.Current(s, w) && s.keys.Holds(KeyOf(w.manifest), StagedRecord(w.manifest))
    case Upsert(_) => U.Current(s, w) && s.keys.Holds(KeyOf(w.manifest), StagedRecord(w.manifest))
    case Verify(_) => U.Current(s, w) && s.keys.Holds(KeyOf(w.manifest), StagedRecord(w.manifest))
    case MarkVerified => U.Current(s, w) && s.keys.Holds(KeyOf(w.manifest), StagedRecord(w.manifest))
    case Publish => U.Current(s, w) && s.keys.Holds(KeyOf(w.manifest), VerifiedRecord(w.manifest))
    case ConfirmActive => false
    case ConfirmRecord(_) => false
    case _ => true
  }

  ghost predicate Secured(s: World, w: Worker) {
    && (BeforePublication(w.phase) ==> !w.published)
    && (s.keys.Owns(w.Filing(), w.owner) ==> Undisputed(s, w))
  }

  lemma StaysOwner(s: World, w: Worker, c: Choice)
    requires WorkerOk(s, w) && !w.phase.Acquire?
    requires Step(s, w, c).world.keys.Owns(w.Filing(), w.owner)
    ensures s.keys.Owns(w.Filing(), w.owner)
  {
    hide WorkerOk, Step, WithinFiling;
    KeysWritten(s, w, c);
  }

  /** Reads leave the world alone. */
  lemma ReadSecured(s: World, w: Worker, c: Choice)
    requires KeysOk(s) && WorkerOk(s, w) && Secured(s, w)
    requires w.phase.ReadActive? || w.phase.RecoveryList? || w.phase.RecoveryLoad? || w.phase.RecoveryStage? || w.phase.RecoveryInspect?
    ensures var e := Step(s, w, c); Secured(e.world, e.worker)
  {
    hide KeysOk, WorkerOk, U.ActiveIs, LoadPending, ForFiling;
  }

  lemma RecordSecured(s: World, w: Worker, c: Choice)
    requires KeysOk(s) && WorkerOk(s, w) && Secured(s, w) && w.phase.ReadActiveRecord?
    ensures var e := Step(s, w, c); Secured(e.world, e.worker)
  {
    hide KeysOk, WorkerOk, U.ActiveIs;
    if w.Filing() in s.keys.active {
      U.ActiveRecordIs(s, w.Filing());
    }
  }

  lemma StageSecured(s: World, w: Worker, c: Choice)
    requires KeysOk(s) && WorkerOk(s, w) && Secured(s, w) && w.phase.Stage?
    ensures var e := Step(s, w, c); Secured(e.world, e.worker)
  {
    hide KeysOk, WorkerOk, RecoverableRecords, U.Current;
    var t := Step(s, w, c).world;
    if t.keys.Owns(w.Filing(), w.owner) && Step(s, w, c).worker.phase.Embed? {
      if KeyOf(w.manifest) in s.keys.gens {
        U.RecoverableState(w.manifest, s.keys.gens[KeyOf(w.manifest)].value);
      }
      U.CurrentKept(s, t, w);
      CurrentOf(t, w, Step(s, w, c).worker);
    }
  }

  lemma CurrentOf(s: World, w: Worker, v: Worker)
    requires U.Current(s, w) && w.SameRun(v) && v.current == w.current
    ensures U.Current(s, v)
  {
  }

  lemma StagingSecured(s: World, w: Worker, c: Choice)
    requires WorkerOk(s, w) && Secured(s, w) && (w.phase.Embed? || w.phase.Upsert? || w.phase.Verify?)
    ensures var e := Step(s, w, c); Secured(e.world, e.worker)
  {
    hide WorkerOk, PublishedAs;
  }

  lemma MarkVerifiedSecured(s: World, w: Worker, c: Choice)
    requires WorkerOk(s, w) && Secured(s, w) && w.phase.MarkVerified?
    ensures var e := Step(s, w, c); Secured(e.world, e.worker)
  {
    hide WorkerOk, U.Current;
    var e := Step(s, w, c);
    if e.world.keys.Owns(w.Filing(), w.owner) && e.worker.phase.Publish? {
      U.CurrentKept(s, e.world, w);
      CurrentOf(e.world, w, e.worker);
    }
  }

  /** Under its lease a publish that is answered is accepted. */
  lemma PublishSecured(s: World, w: Worker, c: Choice)
    requires KeysOk(s) && WorkerOk(s, w) && Secured(s, w) && w.phase.Publish?
    ensures var e := Step(s, w, c); Secured(e.world, e.worker)
    ensures s.keys.Owns(w.Filing(), w.owner) ==> PublishReply(s, w).code == 1
  {
    hide KeysOk, WorkerOk, PublishReply, U.Current, Step;
    if s.keys.Owns(w.Filing(), w.owner) {
      U.PublishAccepted(s, w);
    } else if Step(s, w, c).world.keys.Owns(w.Filing(), w.owner) {
      StaysOwner(s, w, c);
    }
    AfterPublish(s, w, c);
  }

  lemma AfterPublish(s: World, w: Worker, c: Choice)
    requires w.phase.Publish?
    ensures var p := Step(s, w, c).worker.phase;
            p.CleanupList? || p.AbortStage? || p.Release? || (p.ConfirmActive? && PublishReply(s, w).code != 1)
  {
    hide PublishReply;
  }

  lemma LaterSecured(s: World, w: Worker, c: Choice)
    requires WorkerOk(s, w) && Secured(s, w) && !w.phase.Acquire? && !BeforePublication(w.phase)
    ensures var e := Step(s, w, c); Secured(e.world, e.worker)
  {
    hide WorkerOk, Step, U.Current;
    if Step(s, w, c).world.keys.Owns(w.Filing(), w.owner) {
      StaysOwner(s, w, c);
    }
    AfterPublication(s, w, c);
  }

  /** After publication or failure a worker confirms, cleans up, compensates or releases. */
  ghost predicate Closing(p: Phase, q: Phase) {
    !q.Acquire? && !BeforePublication(q) && (q.ConfirmRecord? ==> p.ConfirmActive?) && !q.ConfirmActive?
  }

  lemma AfterPublication(s: World, w: Worker, c: Choice)
    requires !w.phase.Acquire? && !BeforePublication(w.phase)
    ensures Closing(w.phase, Step(s, w, c).worker.phase)
  {
    hide Step, Closing;
    if w.phase.ConfirmActive? || w.phase.ConfirmRecord? || w.phase.CleanupList? || w.phase.CleanupLoad? {
      AfterReads(s, w, c);
    } else {
      AfterWrites(s, w, c);
    }
  }

  lemma AfterReads(s: World, w: Worker, c: Choice)
    requires w.phase.ConfirmActive? || w.phase.ConfirmRecord? || w.phase.CleanupList? || w.phase.CleanupLoad?
    ensures Closing(w.phase, Step(s, w, c).worker.phase)
  {
    hide LoadPending, ForFiling, ActiveRecordAccepted, Distinct, StepAcquire, StepReadActive, StepReadActiveRecord,
         StepRecoveryList, StepRecoveryLoad, StepRecoveryStage, StepRecoveryInspect, StepStage, StepUpsert, StepVerify,
         StepMarkVerified, StepPublish, StepCleanupDelete, StepCleanupMark, StepAbort, StepAbortDelete, StepAbortClean, StepRelease;
  }

  lemma AfterWrites(s: World, w: Worker, c: Choice)
    requires !w.phase.Acquire? && !BeforePublication(w.phase)
    requires !w.phase.ConfirmActive? && !w.phase.ConfirmRecord? && !w.phase.CleanupList? && !w.phase.CleanupLoad?
    ensures Closing(w.phase, Step(s, w, c).worker.phase)
  {
    hide SwapScript, CleanSupersededScript, Deleted, LeaseReleaseScript, Distinct, StepAcquire, StepReadActive,
         StepReadActiveRecord, StepRecoveryList, StepRecoveryLoad, StepRecoveryStage, StepRecoveryInspect, StepStage,
         StepUpsert, StepVerify, StepMarkVerified, StepPublish, StepConfirmActive, StepConfirmRecord, StepCleanupList, StepCleanupLoad;
  }

  lemma OwnStepSecured(s: World, w: Worker, c: Choice)
    requires KeysOk(s) && WorkerOk(s, w) && Secured(s, w)
    ensures var e := Step(s, w, c); Secured(e.world, e.worker)
  {
    hide KeysOk, WorkerOk, Secured, Step;
    match w.phase
    case Acquire => AcquireSecured(s, w, c);
    case ReadActiveRecord(_) => RecordSecured(s, w, c);
    case Stage => StageSecured(s, w, c);
    case Embed => StagingSecured(s, w, c);
    case Upsert(_) => StagingSecured(s, w, c);
    case Verify(_) => StagingSecured(s, w, c);
    case MarkVerified => MarkVerifiedSecured(s, w, c);
    case Publish => PublishSecured(s, w, c);
    case ReadActive => ReadSecured(s, w, c);
    case RecoveryList => ReadSecured(s, w, c);
    case RecoveryLoad(_) => ReadSecured(s, w, c);
    case RecoveryStage => ReadSecured(s, w, c);
    case RecoveryInspect => ReadSecured(s, w, c);
    case _ => LaterSecured(s, w, c);
  }

  lemma AcquireSecured(s: World, w: Worker, c: Choice)
    requires Secured(s, w) && w.phase.Acquire?
    ensures var e := Step(s, w, c); Secured(e.world, e.worker)
  {
    hide LeaseSeconds;
  }

  /** A worker's keys, seen by itself: what its filing's lease protects. */
  ghost predicate SameFiling(s: World, t: World, a: Accession) {
    && (a in t.keys.active <==> a in s.keys.active) && (a in s.keys.active ==> t.keys.active[a] == s.keys.active[a])
    && (forall k: GenerationKey | k.accession == a && k in s.keys.gens && s.keys.gens[k].value.state != Cleaned ::
          k in t.keys.gens && t.keys.gens[k] == s.keys.gens[k])
  }

  lemma SameFilingSecured(s: World, t: World, w: Worker)
    requires Secured(s, w) && SameFiling(s, t, w.Filing())
    requires t.keys.Owns(w.Filing(), w.owner) ==> s.keys.Owns(w.Filing(), w.owner)
    ensures Secured(t, w)
  {
  }

  /** Another worker's command leaves the filing alone while this one holds its lease. */
  lemma OtherStepSecured(s: World, w: Worker, other: Worker, c: Choice)
    requires WorkerOk(s, other) && Secured(s, w) && other.owner != w.owner
    ensures Secured(Step(s, other, c).world, w)
  {
    hide WorkerOk, Step, Undisputed, CleanupsWithin, IndexWithin;
    KeysWritten(s, other, c);
    var t := Step(s, other, c).world;
    if t.keys.Owns(w.Filing(), w.owner) {
      assert s.keys.Owns(w.Filing(), w.owner);
      assert SameFiling(s, t, w.Filing());
      SameFilingSecured(s, t, w);
    }
  }

  // ---------------------------------------------------------------- whole runs

  ghost predicate AllSecured(s: System) {
    L.OwnersOk(s) && forall id | id in s.workers :: Secured(s.world, s.workers[id])
  }

  lemma EnvironmentSecured(s: System, e: Event, id: nat)
    requires SystemOk(s) && AllSecured(s) && Enabled(None, s, e) && !e.Act? && id in s.workers
    ensures Secured(Next(s, e).world, s.workers[id])
  {
    hide WorkerOk, HistoryOk, IndexOk, CleanupsOk, CleanupsComplete, CleanupIndexOk, Undisputed, Distinct;
    SameFilingSecured(s.world, Next(s, e).world, s.workers[id]);
  }

  lemma NextSecured(s: System, e: Event)
    requires SystemOk(s) && AllSecured(s) && Enabled(None, s, e)
    ensures AllSecured(Next(s, e))
  {
    hide KeysOk, WorkerOk, Step, Secured, Distinct;
    var t := Next(s, e);
    forall id | id in t.workers ensures Secured(t.world, t.workers[id]) {
      if e.Act? {
        if id == e.id {
          OwnStepSecured(s.world, s.workers[id], e.choice);
        } else {
          OtherStepSecured(s.world, s.workers[id], s.workers[e.id], e.choice);
        }
      } else if e.Begin? && id == e.id {
        FreshSecured(s.world, e.worker);
      } else {
        EnvironmentSecured(s, e, id);
      }
    }
  }

  lemma FreshSecured(s: World, w: Worker)
    requires w.phase == Acquire && !w.published
    ensures Secured(s, w)
  {
  }

  lemma {:induction false} RunSecured(states: seq<System>, events: seq<Event>, i: nat)
    requires Run(None, states, events) && i < |states|
    ensures SystemOk(states[i]) && AllSecured(states[i])
  {
    hide SystemOk, AllSecured, Enabled, Next;
    RunKeeps(states, events, i, i);
    if i == 0 {
      NobodySecured(states[0]);
    } else {
      RunSecured(states, events, i - 1);
      assert Enabled(None, states[i - 1], events[i - 1]) && states[i - 1 + 1] == Next(states[i - 1], events[i - 1]);
      NextSecured(states[i - 1], events[i - 1]);
    }
  }

  lemma NobodySecured(s: System)
    requires Initial(s)
    ensures AllSecured(s)
  {
  }

  // ---------------------------------------------------------------- compensation

  /** The batch being verified lacks a point. */
  ghost predicate Misses(s: World, w: Worker)
    requires w.phase.Verify?
  {
    exists i :: w.phase.done <= i < BatchEnd(w.phase.done, |w.manifest.chunkIds|)
                && w.manifest.chunkIds[i] !in s.PointsOf(KeyOf(w.manifest))
  }

  /** The command is not answered, or a verification that misses a point is not polled again. */
  ghost predicate GivesUp(s: World, w: Worker, c: Choice) {
    c.fate != Delivered || (w.phase.Verify? && !c.again && Misses(s, w))
  }

  /** The worker alone, with every command answered. */
  ghost predicate Answered(effects: seq<Effect>, choices: seq<Choice>) {
    && |effects| == |choices| + 1
    && forall i | 0 <= i < |choices| ::
         choices[i].fate == Delivered && effects[i + 1] == Step(effects[i].world, effects[i].worker, choices[i])
  }

  /** The lease of the filing is free, and all keys but its own generation's record are as they were. */
  ghost predicate OnlyRecordChanged(s: World, t: World, m: Manifest) {
    && KeyOf(m) in t.keys.gens
    && t.keys == s.keys.(leases := s.keys.leases - {m.accession},
                         gens := s.keys.gens[KeyOf(m) := t.keys.gens[KeyOf(m)]])
    && t.history == s.history && t.cleaned == s.cleaned
    && forall k | k != KeyOf(m) :: t.PointsOf(k) == s.PointsOf(k)
  }

  /** The generation is gone but for an expiring CLEANED marker. */
  ghost predicate Compensated(s: World, t: World, m: Manifest) {
    && OnlyRecordChanged(s, t, m)
    && (var kept := t.keys.gens[KeyOf(m)];
        kept.volatile && kept.value.manifest == m && kept.value.state == Cleaned && kept.value.Canonical())
    && t.PointsOf(KeyOf(m)) == {}
  }

  /** The generation is published: its predecessor, if any, awaits its cleanup. */
  ghost predicate PublishedAnyway(s: World, t: World, m: Manifest, current: Option<Manifest>) {
    && m.accession !in t.keys.leases && U.ActiveIs(t, m) && t.points == s.points
    && (current.Some? ==> U.Awaits(t, CleanupRecord(current.value, m.gen, Pending)))
  }

  /** The state the failed command leaves, before the handler runs. */
  lemma FailedCommand(s: World, w: Worker, c: Choice)
    requires WorkerOk(s, w) && (Staging(w.phase) || w.phase.Publish?) && !w.published && GivesUp(s, w, c)
    ensures var e := Step(s, w, c);
            && e.worker == w.(phase := AbortStage)
            && (forall k | k != KeyOf(w.manifest) :: e.world.PointsOf(k) == s.PointsOf(k))
            && (w.phase.Upsert? || e.world.points == s.points)
            && (c.fate != ReplyLost || (Staging(w.phase) && !w.phase.MarkVerified?) ==>
                  e.world.keys == s.keys && e.world.history == s.history && e.world.cleaned == s.cleaned)
  {
    hide PublishReply, SwapScript;
    if w.phase.Verify? && c.fate == Delivered {
      MissedInBatch(s, w);
    }
  }

  /** The handler starts on a record that is still the worker's, under its lease. */
  ghost predicate MayCompensate(s: World, w: Worker) {
    && w.phase == AbortStage && w.stage.Some? && w.stage.value.manifest == w.manifest
    && w.stage.value.Canonical() && w.stage.value.state in {Staged, Verified}
    && (w.current.Some? ==> w.current.value.gen != w.manifest.gen)
    && s.keys.Owns(w.Filing(), w.owner) && s.keys.Holds(KeyOf(w.manifest), w.stage.value)
  }

  ghost function WithRecord(s: World, m: Manifest, r: Record, volatile: bool): World {
    s.(keys := s.keys.(gens := s.keys.gens[KeyOf(m) := Kept(r, volatile)]))
  }

  lemma AbortCommand(s: World, w: Worker, c: Choice)
    requires MayCompensate(s, w) && c.fate == Delivered
    ensures var r := w.stage.value.WithState(Aborted);
            Step(s, w, c) == Effect(WithRecord(s, w.manifest, r, false), w.(phase := AbortDelete(r)))
  {
  }

  lemma DeleteCommand(s: World, w: Worker, c: Choice)
    requires w.phase.AbortDelete? && c.fate == Delivered
    ensures Step(s, w, c) == Effect(s.WithPoints(KeyOf(w.manifest), {}), w.(phase := AbortClean(w.phase.aborted)))
  {
  }

  lemma CleanCommand(s: World, w: Worker, c: Choice)
    requires w.phase.AbortClean? && c.fate == Delivered && w.phase.aborted.manifest == w.manifest
    requires s.keys.Owns(w.Filing(), w.owner) && s.keys.Holds(KeyOf(w.manifest), w.phase.aborted)
    ensures Step(s, w, c) == Effect(WithRecord(s, w.manifest, w.phase.aborted.WithState(Cleaned), true), w.(phase := Release))
  {
  }

  lemma ReleaseCommand(s: World, w: Worker, c: Choice)
    requires w.phase.Release? && c.fate == Delivered
    ensures var e := Step(s, w, c);
            && e.worker == w.(phase := Finished)
            && e.world == if s.keys.Owns(w.Filing(), w.owner) then s.(keys := s.keys.(leases := s.keys.leases - {w.Filing()})) else s
  {
  }

  lemma {:induction false} FinishedStays(effects: seq<Effect>, choices: seq<Choice>, i: nat, j: nat)
    requires Answered(effects, choices) && i <= j < |effects| && effects[i].worker.phase == Finished
    ensures effects[j] == effects[i]
    decreases j
  {
    if i < j {
      FinishedStays(effects, choices, i, j - 1);
      assert effects[j - 1 + 1] == Step(effects[j - 1].world, effects[j - 1].worker, choices[j - 1]);
    }
  }

  /** The handler on a record that is still the worker's: abort, delete, clean, release. */
  lemma HandlerCleans(effects: seq<Effect>, choices: seq<Choice>)
    requires Answered(effects, choices) && |choices| >= 4 && MayCompensate(effects[0].world, effects[0].worker)
    ensures effects[4].worker.phase == Finished && Compensated(effects[0].world, effects[4].world, effects[0].worker.manifest)
  {
    hide Step, MayCompensate;
    var s, w := effects[0].world, effects[0].worker;
    StageHeld(s, w);
    var aborted := w.stage.value.WithState(Aborted);
    AbortCommand(s, w, choices[0]);
    assert effects[1] == Effect(WithRecord(s, w.manifest, aborted, false), w.(phase := AbortDelete(aborted)));
    DeleteCommand(effects[1].world, effects[1].worker, choices[1]);
    assert effects[2] == Step(effects[1].world, effects[1].worker, choices[1]);
    CleanCommand(effects[2].world, effects[2].worker, choices[2]);
    assert effects[3] == Step(effects[2].world, effects[2].worker, choices[2]);
    ReleaseCommand(effects[3].world, effects[3].worker, choices[3]);
    assert effects[4] == Step(effects[3].world, effects[3].worker, choices[3]);
    assert effects[4].world.keys.gens == s.keys.gens[KeyOf(w.manifest) := Kept(aborted.WithState(Cleaned), true)];
  }

  lemma StageHeld(s: World, w: Worker)
    requires MayCompensate(s, w)
    ensures w.stage.Some? && w.stage.value.manifest == w.manifest && s.keys.Owns(w.Filing(), w.owner)
    ensures w.stage.value.WithState(Aborted).WithState(Cleaned).Canonical()
  {
  }

  /** The handler when the record is not the worker's any more, or its lease is lost: it writes nothing
      but gives up the lease it still has. */
  lemma HandlerRefused(effects: seq<Effect>, choices: seq<Choice>)
    requires Answered(effects, choices) && |choices| >= 2
    requires var s := effects[0].world; var w := effects[0].worker;
             && w.phase == AbortStage && w.stage.Some? && w.stage.value.manifest == w.manifest
             && (s.keys.Owns(w.Filing(), w.owner) ==> !s.keys.Holds(KeyOf(w.manifest), w.stage.value))
    ensures var s := effects[0].world; var w := effects[0].worker;
            && effects[2].worker.phase == Finished
            && effects[2].world == if s.keys.Owns(w.Filing(), w.owner)
                                   then s.(keys := s.keys.(leases := s.keys.leases - {w.Filing()})) else s
  {
    var s, w := effects[0].world, effects[0].worker;
    assert effects[1] == Step(s, w, choices[0]);
    assert effects[1] == Effect(s, w.(phase := Release));
    ReleaseCommand(effects[1].world, effects[1].worker, choices[1]);
    assert effects[2] == Step(effects[1].world, effects[1].worker, choices[1]);
  }

  // ---------------------------------------------------------------- the theorem

  /** Failed while staging, verifying or publishing under its lease: the failing command and all that follows. */
  ghost predicate GaveUp(s: World, w: Worker, c: Choice, effects: seq<Effect>, choices: seq<Choice>) {
    && (Staging(w.phase) || w.phase.Publish?) && s.keys.Owns(w.Filing(), w.owner) && GivesUp(s, w, c)
    && Answered(effects, choices) && |effects| == |choices| + 1 >= 5 && effects[0] == Step(s, w, c)
  }

  /** The write took effect although the driver was not told so, and its record is no longer what it knows. */
  ghost predicate Unnoticed(w: Worker, c: Choice) {
    c.fate == ReplyLost && (w.phase.MarkVerified? || w.phase.Publish?)
  }

  lemma GivesUpHere(s: World, w: Worker, c: Choice)
    requires KeysOk(s) && WorkerOk(s, w) && Secured(s, w) && (Staging(w.phase) || w.phase.Publish?)
    requires s.keys.Owns(w.Filing(), w.owner)
    ensures Step(s, w, c).worker.phase == AbortStage <==> GivesUp(s, w, c)
    ensures w.phase.Verify? && c.fate == Delivered && Misses(s, w) && c.again ==> Step(s, w, c) == Effect(s, w.(phase := Verify(0)))
  {
    hide KeysOk, U.Current, PublishReply, RecoverableRecords;
    if w.phase.Publish? {
      PublishSecured(s, w, c);
    }
    if GivesUp(s, w, c) {
      FailedCommand(s, w, c);
    }
    if w.phase.Verify? && c.fate == Delivered && Misses(s, w) {
      MissedInBatch(s, w);
    }
  }

  lemma MissedInBatch(s: World, w: Worker)
    requires w.phase.Verify? && Misses(s, w)
    ensures var done, end := w.phase.done, BatchEnd(w.phase.done, |w.manifest.chunkIds|);
            done < end && exists id :: id in w.manifest.chunkIds[done..end] && id !in s.PointsOf(KeyOf(w.manifest))
  {
    var done, end := w.phase.done, BatchEnd(w.phase.done, |w.manifest.chunkIds|);
    var i :| done <= i < end && w.manifest.chunkIds[i] !in s.PointsOf(KeyOf(w.manifest));
    assert w.manifest.chunkIds[done..end][i - done] == w.manifest.chunkIds[i];
  }

  lemma NoticedCompensates(s: World, w: Worker, c: Choice, effects: seq<Effect>, choices: seq<Choice>)
    requires KeysOk(s) && WorkerOk(s, w) && Secured(s, w) && GaveUp(s, w, c, effects, choices) && !Unnoticed(w, c)
    ensures effects[4].worker.phase == Finished && Compensated(s, effects[4].world, w.manifest)
  {
    hide KeysOk, Step, Answered, GivesUp, Compensated, U.Current;
    FailedCommand(s, w, c);
    var e := effects[0];
    StageOf(s, w);
    assert MayCompensate(e.world, e.worker);
    HandlerCleans(effects, choices);
    CompensatedFrom(s, e.world, effects[4].world, w.manifest);
  }

  lemma StageOf(s: World, w: Worker)
    requires WorkerOk(s, w) && Secured(s, w) && (Staging(w.phase) || w.phase.Publish?) && s.keys.Owns(w.Filing(), w.owner)
    ensures var r := if w.phase.Publish? then VerifiedRecord(w.manifest) else StagedRecord(w.manifest);
            w.stage == Some(r) && r.Canonical() && s.keys.Holds(KeyOf(w.manifest), r)
  {
    hide U.Current, Distinct;
  }

  lemma CompensatedFrom(s: World, s': World, t: World, m: Manifest)
    requires Compensated(s', t, m) && s'.keys == s.keys && s'.history == s.history && s'.cleaned == s.cleaned
    requires forall k | k != KeyOf(m) :: s'.PointsOf(k) == s.PointsOf(k)
    ensures Compensated(s, t, m)
  {
  }

  /** The generation is verified, its points are all there, and its lease is free: nothing was undone. */
  ghost predicate LeftVerified(s: World, t: World, m: Manifest) {
    && OnlyRecordChanged(s, t, m) && t.keys.gens[KeyOf(m)] == Kept(VerifiedRecord(m), false) && t.points == s.points
  }

  lemma UnnoticedVerification(s: World, w: Worker, c: Choice, effects: seq<Effect>, choices: seq<Choice>)
    requires KeysOk(s) && WorkerOk(s, w) && Secured(s, w) && GaveUp(s, w, c, effects, choices) && Unnoticed(w, c) && w.phase.MarkVerified?
    ensures effects[2].worker.phase == Finished && LeftVerified(s, effects[2].world, w.manifest)
  {
    hide KeysOk, Step, Answered, GivesUp, U.Current;
    FailedCommand(s, w, c);
    StageOf(s, w);
    MarkedAnyway(s, w, c);
    HandlerRefused(effects, choices);
  }

  lemma MarkedAnyway(s: World, w: Worker, c: Choice)
    requires w.phase.MarkVerified? && c.fate == ReplyLost
    requires s.keys.Owns(w.Filing(), w.owner) && s.keys.Holds(KeyOf(w.manifest), StagedRecord(w.manifest))
    ensures Step(s, w, c).world == WithRecord(s, w.manifest, VerifiedRecord(w.manifest), false)
  {
  }

  lemma UnnoticedPublication(s: World, w: Worker, c: Choice, effects: seq<Effect>, choices: seq<Choice>)
    requires KeysOk(s) && WorkerOk(s, w) && Secured(s, w) && GaveUp(s, w, c, effects, choices) && Unnoticed(w, c) && w.phase.Publish?
    ensures effects[2].worker.phase == Finished && PublishedAnyway(s, effects[2].world, w.manifest, w.current)
  {
    hide KeysOk, Step, Answered, GivesUp, U.Current, PublishReply;
    FailedCommand(s, w, c);
    StageOf(s, w);
    PublishSecured(s, w, c);
    PublishWrites(s, w);
    PublishedByStep(s, w, c);
    CurrentFiling(s, w);
    HandlerRefused(effects, choices);
  }

  lemma PublishedByStep(s: World, w: Worker, c: Choice)
    requires w.phase.Publish? && c.fate == ReplyLost && PublishReply(s, w).code == 1
    ensures Step(s, w, c).world == PublishedWorld(s, w)
  {
    hide PublishReply;
  }

  lemma CurrentFiling(s: World, w: Worker)
    requires WorkerOk(s, w)
    ensures w.current.Some? ==> w.current.value.accession == w.Filing()
  {
  }

  /** From every reachable state, with any other workers and whatever happened before: a worker that gives
      up after staging and before publication, while its lease is held, undoes its generation with its next
      four answered commands. Only an expiring CLEANED marker stays, no point, and nothing else changes but
      its lease, which is free again. This is so exactly unless the failed command took effect as a
      verification or a publication the worker was not told of: then the generation stays, verified with
      the points it had, or published. */
  lemma CompensationCompletes(states: seq<System>, events: seq<Event>, i: nat, id: nat, c: Choice,
                              effects: seq<Effect>, choices: seq<Choice>)
    requires Run(None, states, events) && i < |states| && id in states[i].workers
    requires GaveUp(states[i].world, states[i].workers[id], c, effects, choices)
    ensures var s := states[i].world; var w := states[i].workers[id]; var t := effects[|choices|].world;
            && effects[|choices|].worker.phase == Finished
            && (Compensated(s, t, w.manifest) <==> !Unnoticed(w, c))
            && (Unnoticed(w, c) && w.phase.MarkVerified? ==> LeftVerified(s, t, w.manifest))
            && (Unnoticed(w, c) && w.phase.Publish? ==> PublishedAnyway(s, t, w.manifest, w.current))
  {
    hide SystemOk, AllSecured, Run, Answered, GivesUp, Compensated, LeftVerified, PublishedAnyway;
    RunSecured(states, events, i);
    var s, w := states[i].world, states[i].workers[id];
    PartsOf(states[i], id);
    if !Unnoticed(w, c) {
      NoticedCompensates(s, w, c, effects, choices);
      Ends(s, w, c, effects, choices, 4);
    } else {
      if w.phase.MarkVerified? {
        UnnoticedVerification(s, w, c, effects, choices);
        VerifiedStays(s, effects[2].world, w.manifest);
      } else {
        UnnoticedPublication(s, w, c, effects, choices);
        PublishedStays(s, effects[2].world, w.manifest, w.current);
      }
      Ends(s, w, c, effects, choices, 2);
    }
  }

  lemma PartsOf(s: System, id: nat)
    requires SystemOk(s) && AllSecured(s) && id in s.workers
    ensures KeysOk(s.world) && WorkerOk(s.world, s.workers[id]) && Secured(s.world, s.workers[id])
  {
  }

  lemma Ends(s: World, w: Worker, c: Choice, effects: seq<Effect>, choices: seq<Choice>, i: nat)
    requires GaveUp(s, w, c, effects, choices) && i <= 4 && effects[i].worker.phase == Finished
    ensures effects[|choices|] == effects[i]
  {
    FinishedStays(effects, choices, i, |choices|);
  }

  lemma VerifiedStays(s: World, t: World, m: Manifest)
    requires LeftVerified(s, t, m)
    ensures !Compensated(s, t, m)
  {
  }

  lemma PublishedStays(s: World, t: World, m: Manifest, current: Option<Manifest>)
    requires PublishedAnyway(s, t, m, current)
    ensures !Compensated(s, t, m)
  {
  }

  /** In every run, under its lease, a worker gives up exactly on an unanswered command, or on a verification
      that misses a point and is not polled again; a verification that is polled again starts over. */
  lemma GivesUpExactly(states: seq<System>, events: seq<Event>, i: nat, id: nat, c: Choice)
    requires Run(None, states, events) && i < |states| && id in states[i].workers
    requires var w := states[i].workers[id];
             (Staging(w.phase) || w.phase.Publish?) && states[i].world.keys.Owns(w.Filing(), w.owner)
    ensures var s := states[i].world; var w := states[i].workers[id];
            && (Step(s, w, c).worker.phase == AbortStage <==> GivesUp(s, w, c))
            && (w.phase.Verify? && c.fate == Delivered && Misses(s, w) && c.again ==> Step(s, w, c) == Effect(s, w.(phase := Verify(0))))
  {
    hide SystemOk, AllSecured, Run, Step, GivesUp;
    RunSecured(states, events, i);
    PartsOf(states[i], id);
    GivesUpHere(states[i].world, states[i].workers[id], c);
  }
}
