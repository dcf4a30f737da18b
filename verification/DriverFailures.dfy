/** Failures of the driver outside compensation: before it staged, in the cleanup of superseded
    generations, and at its end. */
module DriverFailures {
  import opened Domain
  import opened RedisKeys
  import opened Lifecycle
  import opened Fencing
  import opened FencedRuns
  import opened Compensation
  import T = FencingTheorems
  import U = Undisturbed

  // ---------------------------------------------------------------- before staging

  /** The staging script would be accepted: the generation's key is free or holds an unpublished record of
      this manifest. */
  ghost predicate StageOpen(s: World, w: Worker) {
    && s.keys.Owns(w.Filing(), w.owner)
    && (KeyOf(w.manifest) in s.keys.gens ==>
          && s.keys.gens[KeyOf(w.manifest)].value.manifest == w.manifest
          && s.keys.gens[KeyOf(w.manifest)].value.state != Published)
  }

  ghost function LeaseGone(k: Keys, a: Accession, owner: string): Keys {
    if k.Owns(a, owner) then k.(leases := k.leases - {a}) else k
  }

  /** A command before the upserts that is not answered ends the run with its next command, the release of
      its lease. Nothing else is changed, unless it is a staging whose reply was lost. */
  lemma EarlyFailureLeavesNothing(states: seq<System>, events: seq<Event>, i: nat, id: nat, c: Choice,
                                  effects: seq<Effect>, choices: seq<Choice>)
    requires Run(None, states, events) && i < |states| && id in states[i].workers && c.fate != Delivered
    requires BeforeStaging(states[i].workers[id].phase) && !states[i].workers[id].phase.Acquire?
    requires Answered(effects, choices) && |effects| == |choices| + 1 >= 2
    requires effects[0] == Step(states[i].world, states[i].workers[id], c)
    ensures var s := states[i].world; var w := states[i].workers[id]; var e := effects[|choices|];
            && e.worker.phase == Finished
            && e.world.points == s.points && e.world.history == s.history && e.world.cleaned == s.cleaned
            && e.world.keys == LeaseGone(if w.phase.Stage? && c.fate == ReplyLost && StageOpen(s, w)
                                         then s.keys.(gens := s.keys.gens[KeyOf(w.manifest) := Kept(StagedRecord(w.manifest), false)])
                                         else s.keys, w.Filing(), w.owner)
  {
    hide SystemOk, Run, Step, Answered, StageOpen;
    RunKeeps(states, events, i, i);
    var s, w := states[i].world, states[i].workers[id];
    PartsKnown(states[i], id);
    EarlyFailure(s, w, c);
    ReleaseNow(effects, choices);
    FinishedStays(effects, choices, 1, |choices|);
  }

  lemma PartsKnown(s: System, id: nat)
    requires SystemOk(s) && id in s.workers
    ensures KeysOk(s.world) && WorkerOk(s.world, s.workers[id])
  {
  }

  lemma ReleaseNow(effects: seq<Effect>, choices: seq<Choice>)
    requires Answered(effects, choices) && |effects| == |choices| + 1 >= 2 && effects[0].worker.phase == Release
    ensures var s := effects[0].world; var w := effects[0].worker;
            && effects[1].worker.phase == Finished
            && effects[1].world == s.(keys := LeaseGone(s.keys, w.Filing(), w.owner))
  {
    hide Step;
    ReleaseCommand(effects[0].world, effects[0].worker, choices[0]);
    assert effects[1] == Step(effects[0].world, effects[0].worker, choices[0]);
  }

  lemma EarlyFailure(s: World, w: Worker, c: Choice)
    requires KeysOk(s) && WorkerOk(s, w) && BeforeStaging(w.phase) && !w.phase.Acquire? && c.fate != Delivered
    ensures var e := Step(s, w, c);
            && e.worker == w.(phase := Release)
            && e.world == if w.phase.Stage? && c.fate == ReplyLost && StageOpen(s, w)
                          then s.(keys := s.keys.(gens := s.keys.gens[KeyOf(w.manifest) := Kept(StagedRecord(w.manifest), false)]))
                          else s
  {
    hide HistoryOk, IndexOk, CleanupsOk, CleanupsComplete, CleanupIndexOk, RecoverableRecords, LoadPending, ForFiling, Distinct;
    if KeyOf(w.manifest) in s.keys.gens {
      RecoverableExactly(w.manifest, s.keys.gens[KeyOf(w.manifest)].value);
    }
  }

  // ---------------------------------------------------------------- cleanup

  /** The worker alone, whatever becomes of its commands. */
  ghost predicate Alone(effects: seq<Effect>, choices: seq<Choice>) {
    && |effects| == |choices| + 1
    && forall i | 0 <= i < |choices| :: effects[i + 1] == Step(effects[i].world, effects[i].worker, choices[i])
  }

  ghost function Todo(w: Worker): seq<CleanupRecord> {
    match w.phase
    case CleanupDelete(todo) => todo
    case CleanupMark(todo) => todo
    case _ => []
  }

  ghost predicate Cleaning(p: Phase) {
    p.CleanupDelete? || p.CleanupMark? || p.Release? || p.Finished?
  }

  /** The worker is about to delete the points of the generation `p` supersedes. */
  ghost predicate AtDelete(w: Worker, p: CleanupRecord) {
    w.phase.CleanupDelete? && w.phase.todo != [] && w.phase.todo[0] == p
  }

  ghost predicate AtMark(w: Worker, p: CleanupRecord) {
    w.phase.CleanupMark? && w.phase.todo != [] && w.phase.todo[0] == p
  }

  ghost predicate CleaningOk(e: Effect) {
    && KeysOk(e.world) && WorkerOk(e.world, e.worker) && Cleaning(e.worker.phase)
    && (e.worker.phase.CleanupDelete? || e.worker.phase.CleanupMark? ==> e.world.keys.Owns(e.worker.Filing(), e.worker.owner))
  }

  /** One command of the cleanup, for one awaited record. */
  ghost predicate CleaningMoves(e: Effect, c: Choice, e': Effect, p: CleanupRecord) {
    && (U.Awaits(e'.world, p) <==> U.Awaits(e.world, p) && !(AtMark(e.worker, p) && c.fate != Dropped))
    && (p in Todo(e.worker) ==> p in Todo(e'.worker) || AtDelete(e.worker, p) || AtMark(e.worker, p))
    && (AtMark(e'.worker, p) <==> AtDelete(e.worker, p) && c.fate == Delivered)
    && e'.world.PointsOf(KeyOf(p.superseded)) <= e.world.PointsOf(KeyOf(p.superseded))
    && (AtDelete(e.worker, p) && c.fate == Delivered ==> e'.world.PointsOf(KeyOf(p.superseded)) == {})
  }

  lemma CleanupDeleteMoves(s: World, w: Worker, c: Choice, p: CleanupRecord)
    requires CleaningOk(Effect(s, w)) && w.phase.CleanupDelete?
    ensures CleaningMoves(Effect(s, w), c, Step(s, w, c), p)
    ensures Cleaning(Step(s, w, c).worker.phase) && Step(s, w, c).world.keys == s.keys
  {
    hide KeysOk, AllCleanupsKnown, PublishedAs, Distinct;
  }

  lemma CleanupMarkMoves(s: World, w: Worker, c: Choice, p: CleanupRecord)
    requires CleaningOk(Effect(s, w)) && w.phase.CleanupMark?
    ensures CleaningMoves(Effect(s, w), c, Step(s, w, c), p)
    ensures Cleaning(Step(s, w, c).worker.phase) && Step(s, w, c).world.keys.leases == s.keys.leases
  {
    hide KeysOk, WorkerOk, Step, U.Awaits;
    MarkMovesWorker(s, w, c);
    MarkMovesWorld(s, w, c, p);
  }

  lemma MarkMovesWorker(s: World, w: Worker, c: Choice)
    requires WorkerOk(s, w) && w.phase.CleanupMark?
    ensures var todo := w.phase.todo; todo != [] && Step(s, w, c).worker == NextCleanup(w, todo[1..])
  {
    hide PublishedAs, Distinct, Follows, AllCleanupsKnown, CleanSupersededScript;
  }

  lemma MarkMovesWorld(s: World, w: Worker, c: Choice, p: CleanupRecord)
    requires CleaningOk(Effect(s, w)) && w.phase.CleanupMark?
    ensures var t := Step(s, w, c).world;
            && t.keys.leases == s.keys.leases && t.points == s.points
            && (U.Awaits(t, p) <==> U.Awaits(s, p) && !(AtMark(w, p) && c.fate != Dropped))
  {
    hide KeysOk, PublishedAs, Distinct, Follows, CleanupKnown, CleanSupersededScript, NextCleanup;
    var todo := w.phase.todo;
    RestKnown(s, w.Filing(), todo);
    T.KnownNotActive(s, w.Filing(), todo[0]);
    U.KnownFiling(s, w.Filing(), todo[0]);
    U.MarkEffect(s, w.Filing(), w.owner, todo[0]);
  }

  lemma CleaningNext(s: World, w: Worker, c: Choice, p: CleanupRecord)
    requires CleaningOk(Effect(s, w))
    ensures CleaningOk(Step(s, w, c)) && CleaningMoves(Effect(s, w), c, Step(s, w, c), p)
  {
    StepKeeps(s, w, c);
    hide KeysOk, WorkerOk, Step, StepOk;
    match w.phase
    case CleanupDelete(_) => CleanupDeleteMoves(s, w, c, p);
    case CleanupMark(_) => CleanupMarkMoves(s, w, c, p);
    case _ => CleaningOver(s, w, c, p);
  }

  lemma CleaningOver(s: World, w: Worker, c: Choice, p: CleanupRecord)
    requires w.phase.Release? || w.phase.Finished?
    ensures CleaningMoves(Effect(s, w), c, Step(s, w, c), p) && Step(s, w, c).worker.phase == Finished
  {
  }

  /** The delete of `p`'s points was issued before step `n`. */
  ghost predicate Attempted(effects: seq<Effect>, p: CleanupRecord, n: nat)
    requires n <= |effects|
  {
    exists j :: 0 <= j < n && AtDelete(effects[j].worker, p)
  }

  /** Before step `n` the delete of `p`'s points was answered and the mark after it was not lost. */
  ghost predicate Completed(effects: seq<Effect>, choices: seq<Choice>, p: CleanupRecord, n: nat)
    requires n <= |choices| < |effects|
  {
    exists j, k :: 0 <= j < k < n && k == j + 1 && AtDelete(effects[j].worker, p) && choices[j].fate == Delivered && choices[k].fate != Dropped
  }

  ghost predicate Starts(effects: seq<Effect>, choices: seq<Choice>, p: CleanupRecord) {
    && Alone(effects, choices) && |effects| == |choices| + 1
    && CleaningOk(effects[0]) && effects[0].worker.phase.CleanupDelete?
    && p in effects[0].worker.phase.todo && U.Awaits(effects[0].world, p)
  }

  ghost predicate TraceOk(effects: seq<Effect>, choices: seq<Choice>, p: CleanupRecord, n: nat)
    requires n <= |choices| < |effects|
  {
    && CleaningOk(effects[n])
    && (U.Awaits(effects[n].world, p) <==> !Completed(effects, choices, p, n))
    && (AtMark(effects[n].worker, p) <==> n > 0 && AtDelete(effects[n - 1].worker, p) && choices[n - 1].fate == Delivered)
    && (p in Todo(effects[n].worker) || Attempted(effects, p, n))
    && (Completed(effects, choices, p, n) || AtMark(effects[n].worker, p) ==> effects[n].world.PointsOf(KeyOf(p.superseded)) == {})
  }

  lemma {:induction false} CleanupTrace(effects: seq<Effect>, choices: seq<Choice>, p: CleanupRecord, n: nat)
    requires Starts(effects, choices, p) && n <= |choices|
    ensures TraceOk(effects, choices, p, n)
  {
    hide CleaningOk, Step, U.Awaits;
    if n > 0 {
      CleanupTrace(effects, choices, p, n - 1);
      var e, c := effects[n - 1], choices[n - 1];
      assert effects[n - 1 + 1] == Step(e.world, e.worker, c);
      CleaningNext(e.world, e.worker, c, p);
      TraceNext(effects, choices, p, n);
    }
  }

  lemma TraceNext(effects: seq<Effect>, choices: seq<Choice>, p: CleanupRecord, n: nat)
    requires 0 < n <= |choices| < |effects| && TraceOk(effects, choices, p, n - 1)
    requires CleaningOk(effects[n]) && CleaningMoves(effects[n - 1], choices[n - 1], effects[n], p)
    ensures TraceOk(effects, choices, p, n)
  {
    hide CleaningOk, U.Awaits, AtDelete, AtMark, Todo;
    CompletedNext(effects, choices, p, n);
    AttemptedNext(effects, p, n);
    AtOne(effects[n - 1].worker, p);
  }

  lemma AtOne(w: Worker, p: CleanupRecord)
    ensures !(AtMark(w, p) && AtDelete(w, p))
  {
  }

  lemma CompletedNext(effects: seq<Effect>, choices: seq<Choice>, p: CleanupRecord, n: nat)
    requires 0 < n <= |choices| < |effects|
    ensures Completed(effects, choices, p, n) <==>
              || Completed(effects, choices, p, n - 1)
              || (n > 1 && AtDelete(effects[n - 2].worker, p) && choices[n - 2].fate == Delivered && choices[n - 1].fate != Dropped)
  {
    hide AtDelete;
  }

  lemma AttemptedNext(effects: seq<Effect>, p: CleanupRecord, n: nat)
    requires 0 < n <= |effects|
    ensures Attempted(effects, p, n) <==> Attempted(effects, p, n - 1) || AtDelete(effects[n - 1].worker, p)
  {
    hide AtDelete;
  }

  /** Cleanups are independent of each other: from every reachable state with the lease held, whatever becomes
      of the commands, when the worker comes to give up its lease it has tried every cleanup it loaded, and one
      that was still awaited is completed exactly when its own delete was answered and its own mark not lost. A
      completed one has no points left. */
  lemma CleanupsAreIndependent(states: seq<System>, events: seq<Event>, i: nat, id: nat,
                               effects: seq<Effect>, choices: seq<Choice>, p: CleanupRecord)
    requires Run(None, states, events) && i < |states| && id in states[i].workers
    requires var s := states[i].world; var w := states[i].workers[id];
             && w.phase.CleanupDelete? && p in w.phase.todo && U.Awaits(s, p) && s.keys.Owns(w.Filing(), w.owner)
             && Alone(effects, choices) && |effects| == |choices| + 1 && effects[0] == Effect(s, w)
    requires effects[|choices|].worker.phase == Release
    ensures Attempted(effects, p, |choices|)
    ensures U.Awaits(effects[|choices|].world, p) <==> !Completed(effects, choices, p, |choices|)
    ensures Completed(effects, choices, p, |choices|) ==> effects[|choices|].world.PointsOf(KeyOf(p.superseded)) == {}
  {
    hide Attempted, Completed, KeysOk, WorkerOk, U.Awaits, AtMark, AtDelete, SystemOk, Alone, Step;
    RunKeeps(states, events, i, i);
    PartsKnown(states[i], id);
    CleanupTrace(effects, choices, p, |choices|);
  }

  // ---------------------------------------------------------------- the end of a run

  /** Worker `id` issued the release of its lease between states `i` and `j`. */
  ghost predicate ReleaseIssued(states: seq<System>, events: seq<Event>, i: nat, j: nat, id: nat)
    requires i <= j <= |events| < |states|
  {
    exists k :: i <= k < j && events[k].Act? && events[k].id == id && id in states[k].workers && states[k].workers[id].phase == Release
  }

  /** No run ends without giving up its lease: between any moment at which a worker has one and the end of
      its run it issued the release, whatever failed in between. */
  lemma {:induction false} RunsEndWithRelease(states: seq<System>, events: seq<Event>, i: nat, j: nat, id: nat)
    requires Run(None, states, events) && i <= j < |states| && id in states[i].workers
    requires !states[i].workers[id].phase.Acquire? && !states[i].workers[id].phase.Finished?
    ensures id in states[j].workers && !states[j].workers[id].phase.Acquire?
    ensures states[j].workers[id].phase.Finished? ==> ReleaseIssued(states, events, i, j, id)
    decreases j
  {
    hide Step;
    if i < j {
      RunsEndWithRelease(states, events, i, j - 1, id);
      var s, e := states[j - 1], events[j - 1];
      assert Enabled(None, s, e) && states[j - 1 + 1] == Next(s, e);
      if e.Act? && e.id == id {
        OnlyReleaseEnds(s.world, s.workers[id], e.choice);
      }
      if ReleaseIssued(states, events, i, j - 1, id) {
        var k :| i <= k < j - 1 && events[k].Act? && events[k].id == id && id in states[k].workers && states[k].workers[id].phase == Release;
        assert i <= k < j;
      }
    }
  }

  ghost predicate Ends(w: Worker, v: Worker) {
    !v.phase.Acquire? && (v.phase.Finished? ==> w.phase.Release? || w.phase.Finished?)
  }

  lemma OnlyReleaseEnds(s: World, w: Worker, c: Choice)
    requires !w.phase.Acquire?
    ensures Ends(w, Step(s, w, c).worker)
  {
    hide Step, Ends;
    if BeforeStaging(w.phase) {
      EarlyEnds(s, w, c);
    } else if BeforePublication(w.phase) {
      StagingEnds(s, w, c);
    } else {
      LateEnds(s, w, c);
    }
  }

  lemma EarlyEnds(s: World, w: Worker, c: Choice)
    requires !w.phase.Acquire? && BeforeStaging(w.phase)
    ensures Ends(w, Step(s, w, c).worker)
  {
    hide StageScript, LoadPending, ForFiling, ActiveRecordAccepted, Distinct, StepUpsert, StepVerify, StepMarkVerified, StepPublish,
         StepConfirmActive, StepConfirmRecord, StepCleanupList, StepCleanupLoad, StepCleanupDelete, StepCleanupMark, StepAbort,
         StepAbortDelete, StepAbortClean, StepRelease, StepAcquire;
  }

  lemma StagingEnds(s: World, w: Worker, c: Choice)
    requires BeforePublication(w.phase) && !BeforeStaging(w.phase)
    ensures Ends(w, Step(s, w, c).worker)
  {
    hide SwapScript, PublishReply, BatchEnd, Distinct, VerifiedRecord, StagedRecord, StepReadActive, StepReadActiveRecord,
         StepRecoveryList, StepRecoveryLoad, StepRecoveryStage, StepRecoveryInspect, StepConfirmActive, StepConfirmRecord,
         StepCleanupList, StepCleanupLoad, StepCleanupDelete, StepCleanupMark, StepAbort, StepAbortDelete, StepAbortClean,
         StepRelease, StepAcquire, StepStage;
  }

  lemma LateEnds(s: World, w: Worker, c: Choice)
    requires !BeforePublication(w.phase)
    ensures Ends(w, Step(s, w, c).worker)
  {
    hide SwapScript, CleanSupersededScript, LoadPending, ForFiling, Deleted, LeaseReleaseScript, ActiveRecordAccepted, Distinct,
         StepReadActive, StepReadActiveRecord, StepRecoveryList, StepRecoveryLoad, StepRecoveryStage, StepRecoveryInspect,
         StepUpsert, StepVerify, StepMarkVerified, StepPublish, StepAcquire, StepStage;
  }
}
