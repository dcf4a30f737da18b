/** The recovery of a failed filing: when a run with the retry flag is let through, and what it achieves. */
module Recovery {
  import opened Domain
  import opened RedisKeys
  import opened Lifecycle
  import opened Fencing
  import opened FencedRuns
  import C = Compensation
  import U = Undisturbed

  /** Nothing of the filing is active or awaits cleanup, the generation's record is a CLEANED one of the same
      manifest, and none of its points is there. */
  ghost predicate Recoverable(s: World, m: Manifest) {
    && m.accession !in s.keys.active && U.NothingAwaits(s, m.accession)
    && Marked(s, m) && s.PointsOf(KeyOf(m)) * m.Chunks() == {}
  }

  ghost predicate Marked(s: World, m: Manifest) {
    KeyOf(m) in s.keys.gens && s.keys.gens[KeyOf(m)].value.manifest == m && s.keys.gens[KeyOf(m)].value.state == Cleaned
  }

  /** A fresh recovery of a filing that nobody holds. */
  ghost predicate Starts(s: World, w: Worker) {
    && KeysOk(s) && w.manifest.Valid() && w.Filing() !in s.keys.leases
    && w.phase == Acquire && w.recovery && w.current.None? && w.stage.None? && !w.published
  }

  /** The worker alone, with every command answered and verification not polled again. */
  ghost predicate Alone(states: seq<Effect>, choices: seq<Choice>) {
    && |states| == |choices| + 1
    && forall i | 0 <= i < |choices| ::
         && Answered(states[i].world, states[i].worker, choices[i])
         && states[i + 1] == Step(states[i].world, states[i].worker, choices[i])
  }

  ghost predicate Answered(s: World, w: Worker, c: Choice) {
    && U.Answered(s, w, c)
    && (w.phase.RecoveryList? ==> Enumerates(c.order, Members(s.keys.cleanupIndex, w.Filing().scope)))
  }

  // ---------------------------------------------------------------- what holds in each phase

  function Ordinary(w: Worker): Worker {
    w.(recovery := false)
  }

  /** Nothing but the lease was written, and the filing has no active generation. */
  ghost predicate Looking(s0: World, s: World, w: Worker) {
    && U.OnlyLease(s0, s, w) && w.stage.None? && w.current.None? && !w.published && w.Filing() !in s.keys.active
  }

  ghost predicate Inv(s0: World, s: World, w: Worker) {
    match w.phase
    case Acquire => s == s0 && w.stage.None? && w.current.None? && !w.published && w.Filing() !in s.keys.leases
    case ReadActive => U.OnlyLease(s0, s, w) && w.stage.None? && w.current.None? && !w.published
    case ReadActiveRecord(_) => U.OnlyLease(s0, s, w) && w.stage.None? && !w.published && w.Filing() in s.keys.active
    case RecoveryList => Looking(s0, s, w)
    case RecoveryLoad(keys) => Looking(s0, s, w) && Enumerates(keys, Members(s.keys.cleanupIndex, w.Filing().scope))
    case RecoveryStage => Looking(s0, s, w) && U.NothingAwaits(s0, w.Filing())
    case RecoveryInspect => Looking(s0, s, w) && U.NothingAwaits(s0, w.Filing()) && Marked(s0, w.manifest)
    case Release => Accepted(s0, s, w) || (!Recoverable(s0, w.manifest) && U.OnlyLease(s0, s, w))
    case Finished => Ends(s0, s, w)
    case _ => Accepted(s0, s, w)
  }

  /** The recovery was let through; from there on it is an ordinary ingestion. */
  ghost predicate Accepted(s0: World, s: World, w: Worker) {
    Recoverable(s0, w.manifest) && U.Publishable(s0, w.manifest) && U.Inv(s0, s, Ordinary(w))
  }

  ghost predicate Ends(s0: World, t: World, w: Worker) {
    && t.keys.leases == s0.keys.leases
    && if Recoverable(s0, w.manifest) then U.Ingested(s0, t, w.manifest) else U.Untouched(s0, t)
  }

  ghost predicate Ok(s0: World, s: World, w: Worker) {
    KeysOk(s) && WorkerOk(s, w) && Inv(s0, s, w) && w.recovery
  }

  // ---------------------------------------------------------------- each phase leads to the next

  lemma FirstReads(s0: World, s: World, w: Worker, c: Choice)
    requires Ok(s0, s, w) && Answered(s, w, c) && (w.phase.Acquire? || w.phase.ReadActive? || w.phase.ReadActiveRecord?)
    ensures var e := Step(s, w, c); Inv(s0, e.world, e.worker)
  {
    hide KeysOk, WorkerOk, LeaseSeconds, U.NothingAwaits, Marked, PublishedAs;
    if w.phase.ReadActiveRecord? {
      assert !Recoverable(s0, w.manifest);
    }
  }

  lemma ListNext(s0: World, s: World, w: Worker, c: Choice)
    requires Ok(s0, s, w) && Answered(s, w, c) && w.phase.RecoveryList?
    ensures var e := Step(s, w, c); Inv(s0, e.world, e.worker)
  {
    hide KeysOk, WorkerOk, Distinct, U.NothingAwaits;
    if c.order == [] {
      U.NoneListed(s, w.Filing());
      SameAwaits(s0, s, w);
    }
  }

  lemma SameAwaits(s0: World, s: World, w: Worker)
    requires U.OnlyLease(s0, s, w)
    ensures U.NothingAwaits(s0, w.Filing()) <==> U.NothingAwaits(s, w.Filing())
  {
    assert forall p :: U.Awaits(s, p) <==> U.Awaits(s0, p);
  }

  lemma LoadNext(s0: World, s: World, w: Worker, c: Choice)
    requires Ok(s0, s, w) && Answered(s, w, c) && w.phase.RecoveryLoad?
    ensures var e := Step(s, w, c); Inv(s0, e.world, e.worker)
  {
    hide KeysOk, WorkerOk, Distinct, U.NothingAwaits, LoadPending, Enumerates, ForFiling, Marked;
    var keys := w.phase.keys;
    U.AllAccepted(s, w.Filing().scope, keys);
    SameAwaits(s0, s, w);
    LoadedIsAwaited(s, w.Filing(), keys);
  }

  /** The listing finds a cleanup of the filing exactly when one awaits. */
  lemma LoadedIsAwaited(s: World, a: Accession, keys: seq<CleanupKey>)
    requires KeysOk(s) && Enumerates(keys, Members(s.keys.cleanupIndex, a.scope)) && LoadPending(s.keys, a.scope, keys).Some?
    ensures ForFiling(LoadPending(s.keys, a.scope, keys).value, a) == [] <==> U.NothingAwaits(s, a)
  {
    hide KeysOk, LoadPending, ForFiling, Enumerates, Members;
    var records := LoadPending(s.keys, a.scope, keys).value;
    U.AllAccepted(s, a.scope, keys);
    forall p | U.Awaits(s, p) && p.superseded.accession == a ensures p in ForFiling(records, a) {
      U.AwaitedIsIndexed(s, p);
    }
    if ForFiling(records, a) != [] {
      var p := ForFiling(records, a)[0];
      assert p in ForFiling(records, a) && p in records;
      LoadedCleanupKnown(s, a, keys, p);
      assert U.Awaits(s, p);
    }
  }

  lemma StageRead(s0: World, s: World, w: Worker, c: Choice)
    requires Ok(s0, s, w) && Answered(s, w, c) && w.phase.RecoveryStage?
    ensures var e := Step(s, w, c); Inv(s0, e.world, e.worker)
  {
    hide KeysOk, WorkerOk, U.NothingAwaits;
  }

  lemma InspectNext(s0: World, s: World, w: Worker, c: Choice)
    requires Ok(s0, s, w) && Answered(s, w, c) && w.phase.RecoveryInspect?
    ensures var e := Step(s, w, c); Inv(s0, e.world, e.worker)
  {
    hide KeysOk, WorkerOk, U.NothingAwaits, U.Publishable;
    MarkedIsPublishable(s0, s, w);
  }

  lemma MarkedIsPublishable(s0: World, s: World, w: Worker)
    requires KeysOk(s) && U.OnlyLease(s0, s, w) && Marked(s0, w.manifest) && WorkerOk(s, w)
    ensures U.Publishable(s0, w.manifest)
  {
    hide HistoryOk, IndexOk, CleanupsOk, CleanupsComplete, CleanupIndexOk, RecoverableRecords, Distinct, PhaseOk, PublishedAs;
    RecoverableExactly(w.manifest, s.keys.gens[KeyOf(w.manifest)].value);
  }

  /** The flag matters only to the two reads of the active generation. */
  lemma FlagForgotten(s: World, w: Worker, c: Choice)
    requires !w.phase.ReadActive? && !w.phase.ReadActiveRecord?
    ensures var e := Step(s, w, c); Step(s, Ordinary(w), c) == Effect(e.world, Ordinary(e.worker))
  {
    hide Step, Ordinary;
    if w.phase.Embed? || w.phase.Upsert? || w.phase.Verify? || w.phase.MarkVerified? || w.phase.Publish? || w.phase.Stage? {
      FlagForgottenStaging(s, w, c);
    } else if w.phase.AbortStage? || w.phase.AbortDelete? || w.phase.AbortClean? || w.phase.CleanupDelete? || w.phase.CleanupMark? {
      FlagForgottenCleaning(s, w, c);
    } else {
      FlagForgottenReading(s, w, c);
    }
  }

  lemma FlagForgottenStaging(s: World, w: Worker, c: Choice)
    requires w.phase.Embed? || w.phase.Upsert? || w.phase.Verify? || w.phase.MarkVerified? || w.phase.Publish? || w.phase.Stage?
    ensures var e := Step(s, w, c); Step(s, Ordinary(w), c) == Effect(e.world, Ordinary(e.worker))
  {
    hide StageScript, SwapScript, PublishScript, BatchEnd, RecoverableRecords, StepCleanupDelete, StepCleanupMark, StepAbort,
         StepRecoveryLoad, StepCleanupLoad, StepRelease, StepAcquire, StepReadActiveRecord, StepConfirmRecord;
  }

  lemma FlagForgottenCleaning(s: World, w: Worker, c: Choice)
    requires w.phase.AbortStage? || w.phase.AbortDelete? || w.phase.AbortClean? || w.phase.CleanupDelete? || w.phase.CleanupMark?
    ensures var e := Step(s, w, c); Step(s, Ordinary(w), c) == Effect(e.world, Ordinary(e.worker))
  {
    hide SwapScript, CleanSupersededScript, Deleted, StepStage, StepUpsert, StepVerify, StepMarkVerified, StepPublish,
         StepRecoveryLoad, StepCleanupLoad, StepRelease, StepAcquire, StepReadActiveRecord, StepConfirmRecord;
  }

  lemma FlagForgottenReading(s: World, w: Worker, c: Choice)
    requires !w.phase.ReadActive? && !w.phase.ReadActiveRecord? && !w.phase.Embed? && !w.phase.Upsert? && !w.phase.Verify?
    requires !w.phase.MarkVerified? && !w.phase.Publish? && !w.phase.Stage? && !w.phase.AbortStage? && !w.phase.AbortDelete?
    requires !w.phase.AbortClean? && !w.phase.CleanupDelete? && !w.phase.CleanupMark?
    ensures var e := Step(s, w, c); Step(s, Ordinary(w), c) == Effect(e.world, Ordinary(e.worker))
  {
    hide StepCleanupDelete, StepCleanupMark, StepAbort, StepStage, StepUpsert, StepVerify, StepMarkVerified, StepPublish,
         LoadPending, ForFiling, LeaseSeconds, LeaseReleaseScript, ActiveRecordAccepted;
  }

  // ---------------------------------------------------------------- whole recoveries

  lemma AcceptedNext(s0: World, s: World, w: Worker, c: Choice)
    requires Ok(s0, s, w) && Answered(s, w, c) && Accepted(s0, s, w) && !Looks(w.phase)
    ensures var e := Step(s, w, c); Inv(s0, e.world, e.worker)
  {
    hide KeysOk, WorkerOk, Step, U.Inv, Recoverable, U.Publishable, U.ActiveIs;
    SameKnowledge(s, w);
    FlagForgotten(s, w, c);
    U.NextOk(s0, s, Ordinary(w), c);
    var e := Step(s, w, c);
    U.NoOtherPhase(s0, e.world, Ordinary(e.worker));
    LooksNoMore(s, w, c);
    if e.worker.phase == Finished {
      EndOfInv(s0, e.world, Ordinary(e.worker));
    }
  }

  ghost predicate Looks(p: Phase) {
    || p.Acquire? || p.ReadActive? || p.ReadActiveRecord? || p.RecoveryList? || p.RecoveryLoad? || p.RecoveryStage? || p.RecoveryInspect?
  }

  lemma LooksNoMore(s: World, w: Worker, c: Choice)
    requires !Looks(w.phase)
    ensures !Looks(Step(s, w, c).worker.phase)
  {
    hide Step, Looks;
    if w.phase.Embed? || w.phase.Upsert? || w.phase.Verify? || w.phase.MarkVerified? || w.phase.Publish? || w.phase.Stage? {
      StagingLooksNoMore(s, w, c);
    } else {
      CleaningLooksNoMore(s, w, c);
    }
  }

  lemma StagingLooksNoMore(s: World, w: Worker, c: Choice)
    requires w.phase.Embed? || w.phase.Upsert? || w.phase.Verify? || w.phase.MarkVerified? || w.phase.Publish? || w.phase.Stage?
    ensures !Looks(Step(s, w, c).worker.phase)
  {
    hide StageScript, SwapScript, PublishReply, BatchEnd, RecoverableRecords, StepCleanupDelete, StepCleanupMark, StepAbort,
         StepRecoveryLoad, StepCleanupLoad, StepRelease, StepAcquire, StepReadActiveRecord, StepConfirmRecord;
  }

  lemma CleaningLooksNoMore(s: World, w: Worker, c: Choice)
    requires !Looks(w.phase)
    requires !w.phase.Embed? && !w.phase.Upsert? && !w.phase.Verify? && !w.phase.MarkVerified? && !w.phase.Publish? && !w.phase.Stage?
    ensures !Looks(Step(s, w, c).worker.phase)
  {
    hide SwapScript, CleanSupersededScript, LoadPending, ForFiling, LeaseReleaseScript, ActiveRecordAccepted, Deleted,
         StepStage, StepUpsert, StepVerify, StepMarkVerified, StepPublish, StepAcquire, StepReadActive, StepReadActiveRecord,
         StepRecoveryList, StepRecoveryLoad, StepRecoveryStage, StepRecoveryInspect;
  }

  lemma SameKnowledge(s: World, w: Worker)
    requires WorkerOk(s, w)
    ensures WorkerOk(s, Ordinary(w))
  {
    hide PublishedAs, Distinct, AllCleanupsKnown;
  }

  lemma EndOfInv(s0: World, t: World, w: Worker)
    requires U.Inv(s0, t, w) && w.phase == Finished && U.Publishable(s0, w.manifest)
    ensures t.keys.leases == s0.keys.leases && U.Ingested(s0, t, w.manifest)
  {
    hide U.Ingested, U.Publishable, U.ActiveIs;
  }

  /** A refused recovery gives up its lease. */
  lemma RefusedNext(s0: World, s: World, w: Worker, c: Choice)
    requires w.phase.Release? && !Recoverable(s0, w.manifest) && U.OnlyLease(s0, s, w) && c.fate == Delivered
    ensures var e := Step(s, w, c); e.worker.phase == Finished && Ends(s0, e.world, e.worker)
  {
    hide Recoverable;
    C.ReleaseCommand(s, w, c);
    assert Step(s, w, c).world.keys.leases == s0.keys.leases;
  }

  lemma NextOk(s0: World, s: World, w: Worker, c: Choice)
    requires Ok(s0, s, w) && Answered(s, w, c)
    ensures var e := Step(s, w, c); Ok(s0, e.world, e.worker)
  {
    StepKeeps(s, w, c);
    hide KeysOk, WorkerOk, Step, Accepted, Recoverable;
    match w.phase
    case Acquire => FirstReads(s0, s, w, c);
    case ReadActive => FirstReads(s0, s, w, c);
    case ReadActiveRecord(_) => FirstReads(s0, s, w, c);
    case RecoveryList => ListNext(s0, s, w, c);
    case RecoveryLoad(_) => LoadNext(s0, s, w, c);
    case RecoveryStage => StageRead(s0, s, w, c);
    case RecoveryInspect => InspectNext(s0, s, w, c);
    case Release =>
      if Accepted(s0, s, w) {
        AcceptedNext(s0, s, w, c);
      } else {
        RefusedNext(s0, s, w, c);
      }
    case Finished => FinishedNext(s0, s, w, c);
    case _ => AcceptedNext(s0, s, w, c);
  }

  lemma FinishedNext(s0: World, s: World, w: Worker, c: Choice)
    requires Inv(s0, s, w) && w.phase.Finished?
    ensures var e := Step(s, w, c); Inv(s0, e.world, e.worker)
  {
  }

  lemma {:induction false} AloneOk(states: seq<Effect>, choices: seq<Choice>, i: nat)
    requires Alone(states, choices) && Starts(states[0].world, states[0].worker) && i < |states|
    ensures Ok(states[0].world, states[i].world, states[i].worker) && states[0].worker.SameRun(states[i].worker)
  {
    hide Ok, Step, Answered;
    if i == 0 {
      StartsOk(states[0].world, states[0].worker);
    } else {
      AloneOk(states, choices, i - 1);
      NextOk(states[0].world, states[i - 1].world, states[i - 1].worker, choices[i - 1]);
    }
  }

  lemma StartsOk(s: World, w: Worker)
    requires Starts(s, w)
    ensures Ok(s, s, w)
  {
    hide KeysOk;
  }

  /** An undisturbed recovery is let through exactly when nothing of the filing is active or awaits cleanup,
      the generation has its CLEANED marker and none of its points is left: then it publishes the generation
      with all its points. Otherwise it changes nothing. In either case its lease is released. */
  lemma UndisturbedRecovery(states: seq<Effect>, choices: seq<Choice>)
    requires Alone(states, choices) && Starts(states[0].world, states[0].worker)
    requires states[|choices|].worker.phase == Finished
    ensures var s0 := states[0].world; var t := states[|choices|].world; var m := states[0].worker.manifest;
            && t.keys.leases == s0.keys.leases
            && (Recoverable(s0, m) ==> U.Ingested(s0, t, m) && m.Chunks() <= t.PointsOf(KeyOf(m)))
            && (!Recoverable(s0, m) ==> U.Untouched(s0, t))
  {
    hide KeysOk, WorkerOk, Recoverable, U.Untouched, U.Publishable, U.ActiveIs, Answered, Step;
    AloneOk(states, choices, |choices|);
    if Recoverable(states[0].world, states[0].worker.manifest) {
      StartPublishable(states[0].world, states[0].worker);
    }
  }

  lemma StartPublishable(s: World, w: Worker)
    requires Starts(s, w) && Recoverable(s, w.manifest)
    ensures U.Publishable(s, w.manifest)
  {
    hide HistoryOk, IndexOk, CleanupsOk, CleanupsComplete, CleanupIndexOk, RecoverableRecords, Distinct, U.NothingAwaits;
    RecoverableExactly(w.manifest, s.keys.gens[KeyOf(w.manifest)].value);
  }

  /** What a compensation leaves of a filing never published before is what a recovery needs. */
  lemma CompensatedIsRecoverable(s: World, t: World, m: Manifest)
    requires KeysOk(t) && C.Compensated(s, t, m) && m.accession !in s.keys.active
    ensures Recoverable(t, m)
  {
    hide RecordsOk, IndexOk, CleanupsComplete, CleanupIndexOk, Distinct;
    forall p | U.Awaits(t, p) ensures p.superseded.accession != m.accession {
      assert CleanupOk(t.keys.gens, t.history, t.cleaned, p.Key(), t.keys.cleanups[p.Key()]);
    }
  }

  // ---------------------------------------------------------------- recoveries end

  ghost function LooksLeft(p: Phase): nat {
    match p
    case Acquire => 7
    case ReadActive => 6
    case ReadActiveRecord(_) => 5
    case RecoveryList => 4
    case RecoveryLoad(_) => 3
    case RecoveryStage => 2
    case RecoveryInspect => 1
    case _ => 0
  }

  /** Every answered command brings an unfinished undisturbed recovery closer to its end: first the looks
      left, then the phases of the ingestion and the work in them. */
  lemma RecoveryAdvances(states: seq<Effect>, choices: seq<Choice>, i: nat)
    requires Alone(states, choices) && Starts(states[0].world, states[0].worker)
    requires i < |choices| && states[i].worker.phase != Finished
    ensures var w, v := states[i].worker, states[i + 1].worker;
            LooksLeft(v.phase) < LooksLeft(w.phase) || (LooksLeft(v.phase) == LooksLeft(w.phase) && U.Closer(Ordinary(w), Ordinary(v)))
  {
    hide KeysOk, Step, Answered, Ok, U.Closer;
    AloneOk(states, choices, i);
    AloneOk(states, choices, i + 1);
    assert states[i + 1] == Step(states[i].world, states[i].worker, choices[i]) && Answered(states[i].world, states[i].worker, choices[i]);
    AnswerAdvances(states[0].world, states[i].world, states[i].worker, choices[i]);
  }

  lemma AnswerAdvances(s0: World, s: World, w: Worker, c: Choice)
    requires Ok(s0, s, w) && Answered(s, w, c) && w.phase != Finished
    ensures var v := Step(s, w, c).worker;
            LooksLeft(v.phase) < LooksLeft(w.phase) || (LooksLeft(v.phase) == LooksLeft(w.phase) && U.Closer(Ordinary(w), Ordinary(v)))
  {
    hide KeysOk, WorkerOk, Step, U.Inv, U.Closer, Recoverable, U.Publishable;
    if Looks(w.phase) {
      LookAdvances(s, w, c);
    } else if Accepted(s0, s, w) {
      SameKnowledge(s, w);
      FlagForgotten(s, w, c);
      LooksNoMore(s, w, c);
      U.NextOk(s0, s, Ordinary(w), c);
      var e := Step(s, Ordinary(w), c);
      StepKeeps(s, Ordinary(w), c);
      OkOf(s, e);
      U.StepAdvances(s0, s, Ordinary(w), c);
    } else {
      C.ReleaseCommand(s, w, c);
      ReleasedIsCloser(w);
    }
  }

  lemma OkOf(s: World, e: Effect)
    requires StepOk(s, e)
    ensures WorkerOk(e.world, e.worker)
  {
  }

  lemma ReleasedIsCloser(w: Worker)
    requires w.phase.Release?
    ensures U.Closer(Ordinary(w), Ordinary(w.(phase := Finished)))
  {
  }

  lemma LookAdvances(s: World, w: Worker, c: Choice)
    requires Looks(w.phase) && w.recovery && WorkerOk(s, w)
    ensures LooksLeft(Step(s, w, c).worker.phase) < LooksLeft(w.phase)
  {
    hide LoadPending, ForFiling, ActiveRecordAccepted, Distinct, LeaseSeconds, AllCleanupsKnown, PublishedAs,
         StepCleanupDelete, StepCleanupMark, StepAbort, StepStage, StepUpsert, StepVerify, StepMarkVerified, StepPublish;
  }
}
