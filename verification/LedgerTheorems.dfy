/** Checkpoint accounting and the retry ledger over every run: crashes, lost replies, and any number
    of racing runners of the same job. */
module LedgerTheorems {
  import opened Domain
  import opened Ledger

  // ---------------------------------------------------------------- invariants of the keys

  /** Each of the first `n` references has an outcome among these such that `processed` of them were ingested
      and `failed` were not. */
  ghost predicate Tallies(outcomes: set<(nat, bool)>, n: nat, processed: nat, failed: nat) {
    if n == 0 then processed == 0 && failed == 0
    else
      || ((n - 1, true) in outcomes && processed > 0 && Tallies(outcomes, n - 1, processed - 1, failed))
      || ((n - 1, false) in outcomes && failed > 0 && Tallies(outcomes, n - 1, processed, failed - 1))
  }

  lemma {:induction false} TalliesGrow(before: set<(nat, bool)>, after: set<(nat, bool)>, n: nat, processed: nat, failed: nat)
    requires Tallies(before, n, processed, failed) && before <= after
    ensures Tallies(after, n, processed, failed) && processed + failed == n
  {
    if n > 0 {
      if (n - 1, true) in before && processed > 0 && Tallies(before, n - 1, processed - 1, failed) {
        TalliesGrow(before, after, n - 1, processed - 1, failed);
      } else {
        TalliesGrow(before, after, n - 1, processed, failed - 1);
      }
    }
  }

  ghost predicate AttemptedAt(outcomes: set<(nat, bool)>, j: nat) {
    (j, true) in outcomes || (j, false) in outcomes
  }

  lemma {:induction false} TalliedAreAttempted(outcomes: set<(nat, bool)>, n: nat, processed: nat, failed: nat, j: nat)
    requires Tallies(outcomes, n, processed, failed) && j < n
    ensures AttemptedAt(outcomes, j)
  {
    if j < n - 1 {
      if (n - 1, true) in outcomes && processed > 0 && Tallies(outcomes, n - 1, processed - 1, failed) {
        TalliedAreAttempted(outcomes, n - 1, processed - 1, failed, j);
      } else {
        TalliedAreAttempted(outcomes, n - 1, processed, failed - 1, j);
      }
    }
  }

  /** A checkpoint counts exactly the references before its cursor, by outcomes each of them really had. */
  ghost predicate Exact(plan: seq<string>, outcomes: set<(nat, bool)>, c: Checkpoint) {
    && CursorIndex(plan, c.cursor) == Some(c.processed + c.failed)
    && (c.complete ==> c.processed + c.failed == |plan|)
    && Tallies(outcomes, c.processed + c.failed, c.processed, c.failed)
  }

  /** Accounting is exact for plans without a repeated accession number. */
  ghost predicate CheckpointOk(plan: seq<string>, outcomes: set<(nat, bool)>, c: Checkpoint) {
    Distinct(plan) ==> Exact(plan, outcomes, c)
  }

  ghost predicate RetryOk(plan: seq<string>, k: Keys) {
    && (k.claim.Some? ==>
          && |plan| == 1 && k.checkpoint == Some(k.claim.value.checkpoint) && OneFailure(k.claim.value.checkpoint)
          && k.claim.value.checkpoint.cursor == Some(k.claim.value.cursor) && k.claim.value.cursor == plan[0])
    && (k.result.Some? ==> k.claim.Some? && k.result.value.attempt == k.claim.value.attempt)
    && (k.secondClaim.Some? ==>
          && k.claim == Some(k.secondClaim.value.firstClaim) && k.result == Some(k.secondClaim.value.firstResult)
          && k.checkpoint == Some(k.secondClaim.value.checkpoint)
          && Some(k.secondClaim.value.cursor) == k.secondClaim.value.checkpoint.cursor
          && k.secondClaim.value.attempt != k.claim.value.attempt
          && k.result.value.Failed? && k.result.value.stage == VectorVerification)
    && (k.secondResult.Some? ==> k.secondClaim.Some? && k.secondResult.value.attempt == k.secondClaim.value.attempt)
  }

  /** Every recovery ran under a claim of the ledger, at most once per claim. */
  ghost predicate RecoveriesOk(k: Keys, recoveries: seq<string>) {
    && Distinct(recoveries)
    && forall a | a in recoveries ::
         (k.claim.Some? && a == k.claim.value.attempt) || (k.secondClaim.Some? && a == k.secondClaim.value.attempt)
  }

  /** A result says how the attempt under its claim went. */
  ghost predicate Tells(result: RetryResult, reports: map<string, Report>) {
    && result.attempt in reports
    && result == match reports[result.attempt]
                 case Ingested(inserted, removed) => Succeeded(result.attempt, inserted, removed)
                 case Broken(stage) => Failed(result.attempt, stage)
                 case Undiscovered => Failed(result.attempt, SecFetch)
                 case PlanChanged => Failed(result.attempt, Checkpointing)
  }

  ghost predicate Executed(attempt: string, s: World) {
    attempt in s.recoveries && attempt in s.reports && (s.reports[attempt].Ingested? || s.reports[attempt].Broken?)
  }

  ghost predicate TruthOk(s: World) {
    && (s.keys.result.Some? ==> Tells(s.keys.result.value, s.reports) && Executed(s.keys.result.value.attempt, s))
    && (s.keys.secondResult.Some? ==> Tells(s.keys.secondResult.value, s.reports))
    && (forall a | a in s.reports ::
          && ((s.keys.claim.Some? && a == s.keys.claim.value.attempt) || (s.keys.secondClaim.Some? && a == s.keys.secondClaim.value.attempt))
          && (s.reports[a].Ingested? || s.reports[a].Broken? <==> a in s.recoveries))
  }

  ghost predicate WorldOk(plan: seq<string>, s: World) {
    && (s.keys.checkpoint.Some? ==> CheckpointOk(plan, s.outcomes, s.keys.checkpoint.value))
    && RetryOk(plan, s.keys)
    && RecoveriesOk(s.keys, s.recoveries)
    && TruthOk(s)
  }

  // ---------------------------------------------------------------- what a runner knows

  /** The loop's accounts: skipped, processed and newly failed references add up to the position. */
  ghost predicate Accounts(plan: seq<string>, s: World, r: Runner) {
    && r.resume <= r.index <= |plan|
    && r.resume + r.processed + r.NewFailures() == r.index
    && (Distinct(plan) ==>
          && r.successes + r.failures == r.index
          && CursorIndex(plan, r.cursor) == Some(r.index)
          && Tallies(s.outcomes, r.index, r.successes, r.failures))
  }

  /** The remembered record: the runner's own accounts, or those before the last attempt. */
  ghost predicate Remembers(plan: seq<string>, r: Runner, saved: bool) {
    if r.previous.None? then Distinct(plan) ==> r.index == if saved then 0 else 1
    else
      var p := r.previous.value;
      && p.processed <= r.successes && p.failed <= r.failures
      && (saved ==> p.processed == r.successes && p.failed == r.failures && p.cursor == r.cursor)
      && (Distinct(plan) && saved && p.complete ==> r.index == |plan|)
      && (Distinct(plan) && !saved ==> p.processed + p.failed + 1 == r.index && !p.complete)
  }

  /** Neither claim of the ledger is this attempt's, nor did it ever recover. */
  ghost predicate Unused(s: World, attempt: string) {
    && (s.keys.claim.Some? ==> s.keys.claim.value.attempt != attempt)
    && (s.keys.secondClaim.Some? ==> s.keys.secondClaim.value.attempt != attempt)
    && attempt !in s.recoveries && attempt !in s.reports
  }

  ghost predicate SecondFits(k: Keys, attempt: string, c: SecondClaim) {
    && c.attempt == attempt && Some(c.cursor) == c.checkpoint.cursor
    && k.claim == Some(c.firstClaim) && k.result == Some(c.firstResult) && k.checkpoint == Some(c.checkpoint)
    && c.firstClaim.attempt != attempt
    && c.firstResult.Failed? && c.firstResult.stage == VectorVerification
  }

  ghost predicate SecondPending(s: World, r: Runner, second: SecondClaim) {
    && s.keys.secondClaim == Some(second) && second.attempt == r.attempt
    && r.attempt !in s.recoveries && r.attempt !in s.reports
  }

  ghost predicate PhaseOk(plan: seq<string>, s: World, r: Runner) {
    match r.phase
    case Load => Unused(s, r.attempt)
    case Attempt => Accounts(plan, s, r) && Remembers(plan, r, true) && r.index < |plan|
    case Save => Accounts(plan, s, r) && Remembers(plan, r, false)
    case FinalSave => Accounts(plan, s, r) && Remembers(plan, r, true) && r.index == |plan|
    case LoadSnapshot => Unused(s, r.attempt)
    case ClaimRetry(claim) =>
      && Unused(s, r.attempt) && claim.attempt == r.attempt
      && |plan| == 1 && OneFailure(claim.checkpoint) && claim.checkpoint.cursor == Some(claim.cursor) && claim.cursor == plan[0]
    case Recover(claim) => s.keys.claim == Some(claim) && claim.attempt == r.attempt && r.attempt !in s.recoveries && r.attempt !in s.reports
    case FinishRetry(claim, result) =>
      && s.keys.claim == Some(claim) && claim.attempt == r.attempt == result.attempt
      && Tells(result, s.reports) && Executed(result.attempt, s)
    case LoadSecondSnapshot => Unused(s, r.attempt)
    case ClaimSecond(second) => Unused(s, r.attempt) && SecondFits(s.keys, r.attempt, second)
    case Discover(second) => SecondPending(s, r, second)
    case RecoverSecond(second) => SecondPending(s, r, second)
    case FinishSecond(second, result) =>
      && s.keys.secondClaim == Some(second) && second.attempt == r.attempt == result.attempt && Tells(result, s.reports)
    case Returned => r.mode == Ordinary ==>
      && Accounts(plan, s, r) && r.index == |plan|
      && s.keys.checkpoint == Some(FinalRecord(plan, r)) && FinalRecord(plan, r).complete
    case Stopped => true
  }

  ghost predicate RunnerOk(plan: seq<string>, s: World, r: Runner) {
    && (r.phase.Attempt? || r.phase.Save? || r.phase.FinalSave? ==> r.mode == Ordinary)
    && (r.mode == Ordinary ==> r.phase.Load? || r.phase.Attempt? || r.phase.Save? || r.phase.FinalSave? || r.phase.Returned? || r.phase.Stopped?)
    && (r.mode.AttemptTwo? ==> !r.phase.Load?)
    && PhaseOk(plan, s, r)
  }

  ghost predicate Known(runners: map<nat, Runner>, attempt: string) {
    exists id :: id in runners && runners[id].attempt == attempt
  }

  /** The claims of the ledger were made by runners of this system. */
  ghost predicate ClaimsKnown(k: Keys, runners: map<nat, Runner>) {
    && (k.claim.Some? ==> Known(runners, k.claim.value.attempt))
    && (k.secondClaim.Some? ==> Known(runners, k.secondClaim.value.attempt))
  }

  ghost predicate SystemOk(plan: seq<string>, s: System) {
    && WorldOk(plan, s.world) && ClaimsKnown(s.world.keys, s.runners)
    && (forall id | id in s.runners :: RunnerOk(plan, s.world, s.runners[id]))
    && (forall i, j | i in s.runners && j in s.runners && i != j :: s.runners[i].attempt != s.runners[j].attempt)
  }

  // ---------------------------------------------------------------- how the world evolves

  ghost predicate Advances(s: Option<Checkpoint>, t: Option<Checkpoint>) {
    s.Some? ==>
      && t.Some? && s.value.processed <= t.value.processed && s.value.failed <= t.value.failed
      && (s.value.complete ==> t == s)
  }

  /** Checkpoints only advance and a complete one stays; claims and results are immutable. */
  ghost predicate Evolves(s: World, t: World) {
    && Advances(s.keys.checkpoint, t.keys.checkpoint)
    && (s.keys.claim.Some? ==> t.keys.claim == s.keys.claim)
    && (s.keys.result.Some? ==> t.keys.result == s.keys.result)
    && (s.keys.secondClaim.Some? ==> t.keys.secondClaim == s.keys.secondClaim)
    && (s.keys.secondResult.Some? ==> t.keys.secondResult == s.keys.secondResult)
    && s.outcomes <= t.outcomes && s.recoveries <= t.recoveries
    && forall a | a in s.reports :: a in t.reports && t.reports[a] == s.reports[a]
  }

  /** A step claims and recovers only under its own attempt digest. */
  ghost predicate OnlyOwn(s: World, t: World, attempt: string) {
    && (t.keys.claim == s.keys.claim || (t.keys.claim.Some? && t.keys.claim.value.attempt == attempt))
    && (t.keys.secondClaim == s.keys.secondClaim || (t.keys.secondClaim.Some? && t.keys.secondClaim.value.attempt == attempt))
    && (t.recoveries == s.recoveries || t.recoveries == s.recoveries + [attempt])
    && forall a | a != attempt :: a in t.reports <==> a in s.reports
  }

  lemma EvolvesTransitive(s: World, t: World, u: World)
    requires Evolves(s, t) && Evolves(t, u)
    ensures Evolves(s, u)
  {
  }

  lemma OthersStayOk(plan: seq<string>, s: World, t: World, attempt: string, r: Runner)
    requires WorldOk(plan, s) && RunnerOk(plan, s, r) && Evolves(s, t) && OnlyOwn(s, t, attempt) && r.attempt != attempt
    ensures RunnerOk(plan, t, r)
  {
    hide RecoveriesOk, CheckpointOk, CursorIndex, Tallies, Distinct, TruthOk;
    if Tallies(s.outcomes, r.index, r.successes, r.failures) {
      TalliesGrow(s.outcomes, t.outcomes, r.index, r.successes, r.failures);
    }
  }

  // ---------------------------------------------------------------- one step

  ghost predicate Good(plan: seq<string>, s: World, r: Runner, e: Effect) {
    && WorldOk(plan, e.world) && Evolves(s, e.world) && OnlyOwn(s, e.world, r.attempt)
    && RunnerOk(plan, e.world, e.runner) && e.runner.attempt == r.attempt
  }

  lemma LoadGood(plan: seq<string>, s: World, r: Runner, c: Choice)
    requires WorldOk(plan, s) && RunnerOk(plan, s, r) && r.phase.Load?
    ensures Good(plan, s, r, Step(plan, s, r, c))
  {
    hide RetryOk, RecoveriesOk;
  }

  lemma AttemptGood(plan: seq<string>, s: World, r: Runner, c: Choice)
    requires WorldOk(plan, s) && RunnerOk(plan, s, r) && r.phase.Attempt?
    ensures Good(plan, s, r, Step(plan, s, r, c))
  {
    hide WorldOk, RunnerOk, Evolves, OnlyOwn;
    AttemptKeepsWorld(plan, s, s.outcomes + {(r.index, c.ok)});
    AttemptKeepsWorld(plan, s, s.outcomes);
    AttemptKeepsRunner(plan, s, r, c);
    assert s.(outcomes := s.outcomes) == s;
  }

  lemma AttemptKeepsWorld(plan: seq<string>, s: World, outcomes: set<(nat, bool)>)
    requires WorldOk(plan, s) && s.outcomes <= outcomes
    ensures var t := s.(outcomes := outcomes); WorldOk(plan, t) && Evolves(s, t) && forall a :: OnlyOwn(s, t, a)
  {
    hide RetryOk, RecoveriesOk, Distinct, CheckpointOk;
    if s.keys.checkpoint.Some? {
      OutcomesGrow(plan, s.outcomes, outcomes, s.keys.checkpoint.value);
    }
  }

  lemma AttemptKeepsRunner(plan: seq<string>, s: World, r: Runner, c: Choice)
    requires RunnerOk(plan, s, r) && r.phase.Attempt?
    ensures var e := Step(plan, s, r, c); RunnerOk(plan, e.world, e.runner) && e.runner.attempt == r.attempt
    ensures var t := Step(plan, s, r, c).world; t == s || t == s.(outcomes := s.outcomes + {(r.index, c.ok)})
  {
    hide Distinct, CursorIndex;
    CursorsLeadBack(plan);
    if Distinct(plan) {
      TalliesGrow(s.outcomes, s.outcomes + {(r.index, c.ok)}, r.index, r.successes, r.failures);
    }
    assert Distinct(plan) ==> CursorIndex(plan, Some(plan[r.index])) == Some(r.index + 1);
  }

  lemma OutcomesGrow(plan: seq<string>, before: set<(nat, bool)>, after: set<(nat, bool)>, c: Checkpoint)
    requires CheckpointOk(plan, before, c) && before <= after
    ensures CheckpointOk(plan, after, c)
  {
    if Distinct(plan) {
      TalliesGrow(before, after, c.processed + c.failed, c.processed, c.failed);
    }
  }

  /** A checkpoint that replaces the remembered one. */
  lemma ReplaceGood(plan: seq<string>, s: World, previous: Option<Checkpoint>, next: Checkpoint)
    requires WorldOk(plan, s) && Monotonic(previous, next) && CheckpointOk(plan, s.outcomes, next)
    requires previous.Some? && previous.value.complete ==> next == previous.value
    ensures var t := s.(keys := CheckpointScript(s.keys, previous, next).keys); WorldOk(plan, t) && Evolves(s, t)
  {
    hide CursorIndex, Distinct;
  }

  lemma SaveGood(plan: seq<string>, s: World, r: Runner, c: Choice)
    requires WorldOk(plan, s) && RunnerOk(plan, s, r) && r.phase.Save?
    ensures Good(plan, s, r, Step(plan, s, r, c))
  {
    hide WorldOk, RunnerOk, Evolves, Distinct;
    var next := Checkpoint(r.cursor, r.successes, r.failures, false);
    EvolvesReflexive(s);
    SaveKeepsRunner(plan, s, r, c);
    if Monotonic(r.previous, next) {
      SavedIsExact(plan, s, r);
      ReplaceGood(plan, s, r.previous, next);
    }
  }

  lemma SavedIsExact(plan: seq<string>, s: World, r: Runner)
    requires RunnerOk(plan, s, r) && r.phase.Save?
    requires Monotonic(r.previous, Checkpoint(r.cursor, r.successes, r.failures, false))
    ensures CheckpointOk(plan, s.outcomes, Checkpoint(r.cursor, r.successes, r.failures, false))
    ensures r.previous.Some? ==> !r.previous.value.complete
  {
    hide CursorIndex, Tallies, Distinct;
  }

  lemma SaveKeepsRunner(plan: seq<string>, s: World, r: Runner, c: Choice)
    requires RunnerOk(plan, s, r) && r.phase.Save?
    ensures var e := Step(plan, s, r, c); RunnerOk(plan, e.world, e.runner) && e.runner.attempt == r.attempt
  {
    hide CursorIndex, Tallies, Distinct, Unused, SecondFits, Tells, Executed, SecondPending;
  }

  lemma FinalSaveGood(plan: seq<string>, s: World, r: Runner, c: Choice)
    requires WorldOk(plan, s) && RunnerOk(plan, s, r) && r.phase.FinalSave?
    ensures Good(plan, s, r, Step(plan, s, r, c))
  {
    hide WorldOk, RunnerOk, Evolves, Distinct, FinalRecord;
    EvolvesReflexive(s);
    FinalSaveKeepsRunner(plan, s, r, c);
    if Monotonic(r.previous, FinalRecord(plan, r)) {
      FinalIsExact(plan, s, r);
      ReplaceGood(plan, s, r.previous, FinalRecord(plan, r));
    }
  }

  lemma FinalIsExact(plan: seq<string>, s: World, r: Runner)
    requires RunnerOk(plan, s, r) && r.phase.FinalSave? && Monotonic(r.previous, FinalRecord(plan, r))
    ensures CheckpointOk(plan, s.outcomes, FinalRecord(plan, r))
    ensures r.previous.Some? && r.previous.value.complete ==> FinalRecord(plan, r) == r.previous.value
  {
    hide CursorIndex, Tallies, Distinct;
  }

  lemma FinalSaveKeepsRunner(plan: seq<string>, s: World, r: Runner, c: Choice)
    requires RunnerOk(plan, s, r) && r.phase.FinalSave?
    ensures var e := Step(plan, s, r, c); RunnerOk(plan, e.world, e.runner) && e.runner.attempt == r.attempt
  {
    hide CursorIndex, Tallies, Distinct, Unused, SecondFits, Tells, Executed, SecondPending;
  }

  lemma EvolvesReflexive(s: World)
    ensures Evolves(s, s)
  {
  }

  lemma LoadSnapshotGood(plan: seq<string>, s: World, r: Runner, c: Choice)
    requires WorldOk(plan, s) && RunnerOk(plan, s, r) && r.phase.LoadSnapshot?
    ensures Good(plan, s, r, Step(plan, s, r, c))
  {
    hide RecoveriesOk, CheckpointOk;
  }

  lemma ClaimGood(plan: seq<string>, s: World, r: Runner, c: Choice)
    requires WorldOk(plan, s) && RunnerOk(plan, s, r) && r.phase.ClaimRetry?
    ensures Good(plan, s, r, Step(plan, s, r, c))
  {
    hide CheckpointOk;
  }

  lemma RecoverGood(plan: seq<string>, s: World, r: Runner, c: Choice)
    requires WorldOk(plan, s) && RunnerOk(plan, s, r) && r.phase.Recover?
    ensures Good(plan, s, r, Step(plan, s, r, c))
  {
    hide CheckpointOk, RetryOk, Distinct, Accounts, Remembers;
    DistinctAppend(s.recoveries, r.attempt);
  }

  lemma RecoverSecondGood(plan: seq<string>, s: World, r: Runner, c: Choice)
    requires WorldOk(plan, s) && RunnerOk(plan, s, r) && r.phase.RecoverSecond?
    ensures Good(plan, s, r, Step(plan, s, r, c))
  {
    hide CheckpointOk, RetryOk, Distinct, Accounts, Remembers;
    DistinctAppend(s.recoveries, r.attempt);
  }

  lemma FinishGood(plan: seq<string>, s: World, r: Runner, c: Choice)
    requires WorldOk(plan, s) && RunnerOk(plan, s, r) && r.phase.FinishRetry?
    ensures Good(plan, s, r, Step(plan, s, r, c))
  {
    hide CheckpointOk, Distinct;
  }

  lemma LoadSecondGood(plan: seq<string>, s: World, r: Runner, c: Choice)
    requires WorldOk(plan, s) && RunnerOk(plan, s, r) && r.phase.LoadSecondSnapshot?
    ensures Good(plan, s, r, Step(plan, s, r, c))
  {
    hide RecoveriesOk, CheckpointOk;
  }

  lemma ClaimSecondGood(plan: seq<string>, s: World, r: Runner, c: Choice)
    requires WorldOk(plan, s) && RunnerOk(plan, s, r) && r.phase.ClaimSecond?
    ensures Good(plan, s, r, Step(plan, s, r, c))
  {
    hide CheckpointOk, Distinct;
  }

  lemma DiscoverGood(plan: seq<string>, s: World, r: Runner, c: Choice)
    requires WorldOk(plan, s) && RunnerOk(plan, s, r) && r.phase.Discover?
    ensures Good(plan, s, r, Step(plan, s, r, c))
  {
    hide WorldOk, Evolves, OnlyOwn;
    ReportedGood(plan, s, r, Undiscovered);
    ReportedGood(plan, s, r, PlanChanged);
    EvolvesReflexive(s);
    OnlyOwnReflexive(s, r.attempt);
  }

  lemma OnlyOwnReflexive(s: World, attempt: string)
    ensures OnlyOwn(s, s, attempt)
  {
  }

  /** A second attempt that ends before its recovery. */
  lemma ReportedGood(plan: seq<string>, s: World, r: Runner, report: Report)
    requires WorldOk(plan, s) && r.phase.Discover? && SecondPending(s, r, r.phase.second) && (report.Undiscovered? || report.PlanChanged?)
    ensures var t := s.(reports := s.reports[r.attempt := report]); WorldOk(plan, t) && Evolves(s, t) && OnlyOwn(s, t, r.attempt)
  {
    hide CheckpointOk, RetryOk, Distinct;
  }

  lemma FinishSecondGood(plan: seq<string>, s: World, r: Runner, c: Choice)
    requires WorldOk(plan, s) && RunnerOk(plan, s, r) && r.phase.FinishSecond?
    ensures Good(plan, s, r, Step(plan, s, r, c))
  {
    hide CheckpointOk, Distinct, Accounts, Remembers;
  }

  lemma StepGood(plan: seq<string>, s: World, r: Runner, c: Choice)
    requires WorldOk(plan, s) && RunnerOk(plan, s, r)
    ensures Good(plan, s, r, Step(plan, s, r, c))
  {
    hide WorldOk, RunnerOk, Distinct, Good;
    match r.phase
    case Load => LoadGood(plan, s, r, c);
    case Attempt => AttemptGood(plan, s, r, c);
    case Save => SaveGood(plan, s, r, c);
    case FinalSave => FinalSaveGood(plan, s, r, c);
    case LoadSnapshot => LoadSnapshotGood(plan, s, r, c);
    case ClaimRetry(_) => ClaimGood(plan, s, r, c);
    case Recover(_) => RecoverGood(plan, s, r, c);
    case FinishRetry(_, _) => FinishGood(plan, s, r, c);
    case LoadSecondSnapshot => LoadSecondGood(plan, s, r, c);
    case ClaimSecond(_) => ClaimSecondGood(plan, s, r, c);
    case Discover(_) => DiscoverGood(plan, s, r, c);
    case RecoverSecond(_) => RecoverSecondGood(plan, s, r, c);
    case FinishSecond(_, _) => FinishSecondGood(plan, s, r, c);
    case Returned => StutterGood(plan, s, r, c);
    case Stopped => StutterGood(plan, s, r, c);
  }

  lemma StutterGood(plan: seq<string>, s: World, r: Runner, c: Choice)
    requires WorldOk(plan, s) && RunnerOk(plan, s, r) && (r.phase.Returned? || r.phase.Stopped?)
    ensures Good(plan, s, r, Step(plan, s, r, c))
  {
    hide WorldOk, RunnerOk;
  }

  lemma FreshRunnerOk(plan: seq<string>, s: System, id: nat, r: Runner)
    requires SystemOk(plan, s) && Enabled(s, Begin(id, r))
    ensures RunnerOk(plan, s.world, r)
  {
    hide RunnerOk, CheckpointOk, RetryOk, Distinct;
    assert Unused(s.world, r.attempt);
    UnusedIsOk(plan, s.world, r);
  }

  lemma UnusedIsOk(plan: seq<string>, s: World, r: Runner)
    requires Unused(s, r.attempt) && r.phase == (if r.mode.AttemptTwo? then LoadSecondSnapshot else Load)
    ensures RunnerOk(plan, s, r)
  {
  }

  lemma KnownGrows(k: Keys, runners: map<nat, Runner>, id: nat, r: Runner)
    requires ClaimsKnown(k, runners) && (id in runners ==> runners[id].attempt == r.attempt)
    ensures ClaimsKnown(k, runners[id := r])
  {
    forall a | Known(runners, a) ensures Known(runners[id := r], a) {
      var o :| o in runners && runners[o].attempt == a;
      assert runners[id := r][o].attempt == a;
    }
  }

  lemma OwnClaimsKnown(s: World, t: World, runners: map<nat, Runner>, id: nat)
    requires ClaimsKnown(s.keys, runners) && id in runners && OnlyOwn(s, t, runners[id].attempt)
    ensures ClaimsKnown(t.keys, runners)
  {
    assert Known(runners, runners[id].attempt);
  }

  lemma EventKeeps(plan: seq<string>, s: System, e: Event)
    requires SystemOk(plan, s) && Enabled(s, e)
    ensures SystemOk(plan, Next(plan, s, e)) && Evolves(s.world, Next(plan, s, e).world)
  {
    hide WorldOk, RunnerOk, Step, Evolves, OnlyOwn, Distinct, ClaimsKnown;
    var t := Next(plan, s, e);
    match e
    case Begin(id, r) =>
      FreshRunnerOk(plan, s, id, r);
      EvolvesReflexive(s.world);
      KnownGrows(s.world.keys, s.runners, id, r);
    case Act(id, c) =>
      var r := s.runners[id];
      StepGood(plan, s.world, r, c);
      OwnClaimsKnown(s.world, t.world, s.runners, id);
      KnownGrows(t.world.keys, s.runners, id, t.runners[id]);
      forall other | other in t.runners ensures RunnerOk(plan, t.world, t.runners[other]) {
        if other != id {
          OthersStayOk(plan, s.world, t.world, r.attempt, s.runners[other]);
        }
      }
  }

  // ---------------------------------------------------------------- whole runs

  lemma {:induction false} RunKeeps(plan: seq<string>, states: seq<System>, events: seq<Event>, i: nat, j: nat)
    requires Run(plan, states, events) && i <= j < |states|
    ensures SystemOk(plan, states[i]) && SystemOk(plan, states[j]) && Evolves(states[i].world, states[j].world)
    decreases j
  {
    hide SystemOk, Evolves, Next, Distinct;
    if j == 0 {
      InitialOk(plan, states[0]);
    } else if i == j {
      RunKeeps(plan, states, events, i - 1, j - 1);
      EventKeeps(plan, states[j - 1], events[j - 1]);
      EvolvesReflexive(states[i].world);
    } else {
      RunKeeps(plan, states, events, i, j - 1);
      EventKeeps(plan, states[j - 1], events[j - 1]);
      EvolvesTransitive(states[i].world, states[j - 1].world, states[j].world);
    }
  }

  lemma InitialOk(plan: seq<string>, s: System)
    requires Initial(s)
    ensures SystemOk(plan, s) && Evolves(s.world, s.world)
  {
  }

  /** At every durable checkpoint of every job the processed and failed counts add up to the cursor's
      position in the plan, and every reference before the cursor was attempted. */
  lemma CheckpointAccounting(references: seq<Reference>, states: seq<System>, events: seq<Event>, i: nat)
    requires PageAccepted(references) && Run(Accessions(references), states, events)
    requires i < |states| && states[i].world.keys.checkpoint.Some?
    ensures var c := states[i].world.keys.checkpoint.value;
            && CursorIndex(Accessions(references), c.cursor) == Some(c.processed + c.failed)
            && (c.complete ==> c.processed + c.failed == |references|)
            && Tallies(states[i].world.outcomes, c.processed + c.failed, c.processed, c.failed)
            && forall j: nat | j < c.processed + c.failed :: AttemptedAt(states[i].world.outcomes, j)
  {
    hide Accessions, Distinct, PageAccepted, Run, Tallies, AttemptedAt, CursorIndex;
    PlanIsDistinct(references);
    PlanAccounting(Accessions(references), states, events, i);
    AllAttempted(states[i].world.outcomes, states[i].world.keys.checkpoint.value.processed, states[i].world.keys.checkpoint.value.failed);
  }

  lemma AllAttempted(outcomes: set<(nat, bool)>, processed: nat, failed: nat)
    requires Tallies(outcomes, processed + failed, processed, failed)
    ensures forall j: nat | j < processed + failed :: AttemptedAt(outcomes, j)
  {
    forall j: nat | j < processed + failed ensures AttemptedAt(outcomes, j) {
      TalliedAreAttempted(outcomes, processed + failed, processed, failed, j);
    }
  }

  lemma PlanAccounting(plan: seq<string>, states: seq<System>, events: seq<Event>, i: nat)
    requires Distinct(plan) && Run(plan, states, events) && i < |states| && states[i].world.keys.checkpoint.Some?
    ensures Exact(plan, states[i].world.outcomes, states[i].world.keys.checkpoint.value)
  {
    hide Distinct, Exact;
    RunKeeps(plan, states, events, i, i);
  }

  /** Whatever races, checkpoints only advance, a complete checkpoint is never replaced, and claims
      and results are immutable. */
  lemma LedgerOnlyGrows(plan: seq<string>, states: seq<System>, events: seq<Event>, i: nat, j: nat)
    requires Run(plan, states, events) && i <= j < |states|
    ensures var k := states[i].world.keys; var k' := states[j].world.keys;
            && (k.checkpoint.Some? ==>
                  && k'.checkpoint.Some?
                  && k.checkpoint.value.processed <= k'.checkpoint.value.processed
                  && k.checkpoint.value.failed <= k'.checkpoint.value.failed
                  && (k.checkpoint.value.complete ==> k'.checkpoint == k.checkpoint))
            && (k.claim.Some? ==> k'.claim == k.claim) && (k.result.Some? ==> k'.result == k.result)
            && (k.secondClaim.Some? ==> k'.secondClaim == k.secondClaim)
            && (k.secondResult.Some? ==> k'.secondResult == k.secondResult)
  {
    RunKeeps(plan, states, events, i, j);
  }

  /** A run that returns normally has accounted for the whole plan: skipped, processed and newly
      failed references add up to it, every reference was attempted, and its complete record, whose
      counts cover the plan, stays the stored checkpoint. */
  lemma ReturnedRunIsComplete(references: seq<Reference>, states: seq<System>, events: seq<Event>, i: nat, j: nat, id: nat)
    requires PageAccepted(references) && Run(Accessions(references), states, events)
    requires i <= j < |states| && id in states[i].runners
    requires states[i].runners[id].mode == Ordinary && states[i].runners[id].phase == Returned
    ensures var r := states[i].runners[id];
            && r.resume + r.processed + r.NewFailures() == |references| == r.successes + r.failures
            && states[j].world.keys.checkpoint == Some(Checkpoint(r.cursor, r.successes, r.failures, true))
            && Tallies(states[j].world.outcomes, |references|, r.successes, r.failures)
            && forall n: nat | n < |references| :: AttemptedAt(states[j].world.outcomes, n)
  {
    hide Accessions, Distinct, PageAccepted, Run, SystemOk, RunnerOk, Tallies, AttemptedAt;
    PlanIsDistinct(references);
    RunKeeps(Accessions(references), states, events, i, j);
    ReturnedAccounts(Accessions(references), states[i], id);
    var r := states[i].runners[id];
    StaysComplete(states[i].world, states[j].world, r);
    AllAttempted(states[j].world.outcomes, r.successes, r.failures);
  }

  lemma ReturnedAccounts(plan: seq<string>, s: System, id: nat)
    requires SystemOk(plan, s) && id in s.runners && s.runners[id].mode == Ordinary && s.runners[id].phase == Returned && Distinct(plan)
    ensures var r := s.runners[id];
            && r.resume + r.processed + r.NewFailures() == |plan| == r.successes + r.failures
            && s.world.keys.checkpoint == Some(Checkpoint(r.cursor, r.successes, r.failures, true))
            && Tallies(s.world.outcomes, |plan|, r.successes, r.failures)
  {
    hide WorldOk, ClaimsKnown, Tallies;
    assert RunnerOk(plan, s.world, s.runners[id]);
  }

  lemma StaysComplete(s: World, t: World, r: Runner)
    requires Evolves(s, t) && s.keys.checkpoint == Some(Checkpoint(r.cursor, r.successes, r.failures, true))
    requires Tallies(s.outcomes, r.successes + r.failures, r.successes, r.failures)
    ensures t.keys.checkpoint == s.keys.checkpoint && Tallies(t.outcomes, r.successes + r.failures, r.successes, r.failures)
  {
    TalliesGrow(s.outcomes, t.outcomes, r.successes + r.failures, r.successes, r.failures);
  }

  /** At most two recovery ingests ever run for a job, each under its own claim, and the second only
      after the first was recorded FAILED at vector verification. */
  lemma RecoveriesBounded(plan: seq<string>, states: seq<System>, events: seq<Event>, i: nat)
    requires Run(plan, states, events) && i < |states|
    ensures var k := states[i].world.keys; var recoveries := states[i].world.recoveries;
            && |recoveries| <= 2 && Distinct(recoveries)
            && (forall a | a in recoveries ::
                  (k.claim.Some? && a == k.claim.value.attempt) || (k.secondClaim.Some? && a == k.secondClaim.value.attempt))
            && (|recoveries| == 2 || k.secondClaim.Some? ==>
                  k.claim.Some? && k.result == Some(Failed(k.claim.value.attempt, VectorVerification)))
  {
    RunKeeps(plan, states, events, i, i);
    var k, recoveries := states[i].world.keys, states[i].world.recoveries;
    DistinctSize(recoveries);
    if k.secondClaim.Some? {
      SubsetSize(Elements(recoveries), {k.claim.value.attempt, k.secondClaim.value.attempt});
    } else if k.claim.Some? {
      SubsetSize(Elements(recoveries), {k.claim.value.attempt});
    } else {
      assert Elements(recoveries) == {};
    }
  }

  /** The first result stored is true of the recovery that ran under its claim, and the second of the second
      attempt: SUCCEEDED with exactly the counts the recovery reported, or FAILED with the stage at which it
      broke. The second attempt may also have ended before its recovery: FAILED at fetching when nothing was
      discovered, FAILED at checkpointing when the job had changed. */
  lemma ResultsAreTrue(plan: seq<string>, states: seq<System>, events: seq<Event>, i: nat)
    requires Run(plan, states, events) && i < |states|
    ensures var s := states[i].world;
            s.keys.result.Some? ==>
              && s.keys.claim.Some?
              && (var a := s.keys.claim.value.attempt;
                  && a in s.recoveries && a in s.reports
                  && (forall n, d: nat :: s.keys.result.value == Succeeded(a, n, d) <==> s.reports[a] == Ingested(n, d))
                  && (forall stage :: s.keys.result.value == Failed(a, stage) <==> s.reports[a] == Broken(stage)))
    ensures var s := states[i].world;
            s.keys.secondResult.Some? ==>
              && s.keys.secondClaim.Some?
              && (var a := s.keys.secondClaim.value.attempt;
                  && a in s.reports && (a in s.recoveries <==> s.reports[a].Ingested? || s.reports[a].Broken?)
                  && (forall n, d: nat :: s.keys.secondResult.value == Succeeded(a, n, d) <==> s.reports[a] == Ingested(n, d))
                  && (forall stage :: s.keys.secondResult.value == Failed(a, stage) <==>
                        || s.reports[a] == Broken(stage)
                        || (s.reports[a] == Undiscovered && stage == SecFetch)
                        || (s.reports[a] == PlanChanged && stage == Checkpointing)))
  {
    hide Run;
    RunKeeps(plan, states, events, i, i);
  }

  /** A runner about to recover holds the ledger's claim for its own attempt, which has not run yet,
      and the checkpoint that claim pins is still the stored one. */
  lemma RecoveryHoldsClaim(plan: seq<string>, states: seq<System>, events: seq<Event>, i: nat, id: nat)
    requires Run(plan, states, events) && i < |states| && id in states[i].runners
    requires states[i].runners[id].phase.Recover? || states[i].runners[id].phase.RecoverSecond?
    ensures var k := states[i].world.keys; var r := states[i].runners[id];
            && r.attempt !in states[i].world.recoveries
            && (r.phase.Recover? ==> k.claim == Some(r.phase.claim) && r.phase.claim.attempt == r.attempt
                                     && k.checkpoint == Some(r.phase.claim.checkpoint))
            && (r.phase.RecoverSecond? ==> k.secondClaim == Some(r.phase.second) && r.phase.second.attempt == r.attempt
                                           && k.checkpoint == Some(r.phase.second.checkpoint)
                                           && k.result == Some(r.phase.second.firstResult))
  {
    RunKeeps(plan, states, events, i, i);
    assert RunnerOk(plan, states[i].world, states[i].runners[id]);
  }

  /** Every reachable combination of keys satisfies the snapshot constraints; the attempt-two
      snapshot is accepted exactly when the first attempt is recorded FAILED at vector verification. */
  lemma SnapshotsAccepted(plan: seq<string>, states: seq<System>, events: seq<Event>, i: nat)
    requires Run(plan, states, events) && i < |states|
    ensures var k := states[i].world.keys;
            && SnapshotAccepted(k)
            && (SecondSnapshotAccepted(k) <==> k.result.Some? && k.result.value.Failed? && k.result.value.stage == VectorVerification)
  {
    RunKeeps(plan, states, events, i, i);
  }

  // ---------------------------------------------------------------- plans with a repeated accession number

  ghost function Below(k: nat): set<(nat, bool)> {
    if k == 0 then {} else Below(k - 1) + {(k - 1, true)}
  }

  /** A runner alone has ingested the first `k` references of the plan. */
  ghost function SoloState(plan: seq<string>, k: nat): System
    requires k <= |plan|
  {
    var cursor := if k == 0 then None else Some(plan[k - 1]);
    var stored := if k == 0 then None else Some(Checkpoint(cursor, k, 0, false));
    var phase := if k < |plan| then Attempt else FinalSave;
    System(World(Keys(stored, None, None, None, None), Below(k), [], map[]),
           map[0 := Runner(Ordinary, "", phase, stored, None, 0, k, k, k, 0, cursor)])
  }

  ghost predicate Reachable(plan: seq<string>, s: System) {
    exists states: seq<System>, events: seq<Event> :: Run(plan, states, events) && states[|events|] == s
  }

  lemma ReachableNext(plan: seq<string>, s: System, e: Event)
    requires Reachable(plan, s) && Enabled(s, e)
    ensures Reachable(plan, Next(plan, s, e))
  {
    var states: seq<System>, events: seq<Event> :| Run(plan, states, events) && states[|events|] == s;
    var states', events' := states + [Next(plan, s, e)], events + [e];
    assert forall i | 0 <= i < |events'| :: Enabled(states'[i], events'[i]) && states'[i + 1] == Next(plan, states'[i], events'[i]);
    assert Run(plan, states', events') && states'[|events'|] == Next(plan, s, e);
  }

  const GO := Choice(Delivered, true, 0, 0, SecFetch, true)

  lemma SoloStarts(plan: seq<string>)
    ensures Reachable(plan, SoloState(plan, 0))
  {
    var s0 := System(World(Keys(None, None, None, None, None), {}, [], map[]), map[]);
    var none: seq<Event> := [];
    assert Run(plan, [s0], none) && [s0][|none|] == s0;
    var begin := Begin(0, Runner(Ordinary, "", Load, None, None, 0, 0, 0, 0, 0, None));
    hide Run, Reachable;
    ReachableNext(plan, s0, begin);
    ReachableNext(plan, Next(plan, s0, begin), Act(0, GO));
    assert Next(plan, Next(plan, s0, begin), Act(0, GO)) == SoloState(plan, 0);
  }

  /** One attempt and one save of the lone runner. */
  lemma SoloStep(plan: seq<string>, k: nat)
    requires k < |plan|
    ensures var s := SoloState(plan, k);
            Enabled(s, Act(0, GO)) && Enabled(Next(plan, s, Act(0, GO)), Act(0, GO))
            && Next(plan, Next(plan, s, Act(0, GO)), Act(0, GO)) == SoloState(plan, k + 1)
  {
    hide CursorIndex;
  }

  lemma {:induction false} SoloReachable(plan: seq<string>, k: nat)
    requires k <= |plan|
    ensures Reachable(plan, SoloState(plan, k))
  {
    hide Reachable, Next, SoloState;
    if k == 0 {
      SoloStarts(plan);
    } else {
      SoloReachable(plan, k - 1);
      SoloStep(plan, k - 1);
      var s := SoloState(plan, k - 1);
      ReachableNext(plan, s, Act(0, GO));
      ReachableNext(plan, Next(plan, s, Act(0, GO)), Act(0, GO));
    }
  }

  /** In every run, the counts of a stored checkpoint are its cursor's position. */
  ghost predicate AccountsExactly(plan: seq<string>) {
    forall s | Reachable(plan, s) && s.world.keys.checkpoint.Some? ::
      var c := s.world.keys.checkpoint.value; CursorIndex(plan, c.cursor) == Some(c.processed + c.failed)
  }

  /** Why the constructors' checks matter: the accounting holds exactly for plans whose accession
      numbers are distinct, as those of every accepted page are. */
  lemma AccountingIffDistinct(plan: seq<string>)
    ensures AccountsExactly(plan) <==> Distinct(plan)
  {
    if Distinct(plan) {
      forall s | Reachable(plan, s) && s.world.keys.checkpoint.Some?
        ensures var c := s.world.keys.checkpoint.value; CursorIndex(plan, c.cursor) == Some(c.processed + c.failed)
      {
        var states: seq<System>, events: seq<Event> :| Run(plan, states, events) && states[|events|] == s;
        RunKeeps(plan, states, events, |events|, |events|);
      }
    } else {
      var i, j :| 0 <= i < j < |plan| && plan[i] == plan[j];
      SoloReachable(plan, j + 1);
      assert plan[i] in plan[..j];
      assert CursorIndex(plan, Some(plan[j])) != Some(j + 1);
    }
  }
}
