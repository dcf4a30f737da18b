/** The ingestion runner of one job: checkpoints saved by compare-and-set, and the two-attempt retry
    ledger. Keys of different jobs are disjoint, so one job's keys are the whole state.

    Digests are injective: a cursor digest is the accession number it was made from, and a record
    digest is the record. */
module Ledger {
  import opened Domain

  datatype Stage = SecFetch | ParsingChunking | Embedding | VectorStaging | VectorVerification
                 | RedisPublication | CleanupStage | Checkpointing

  datatype Checkpoint = Checkpoint(cursor: Option<string>, processed: nat, failed: nat, complete: bool)

  datatype RetryClaim = RetryClaim(attempt: string, checkpoint: Checkpoint, cursor: string)

  datatype RetryResult =
    | Succeeded(attempt: string, inserted: nat, removed: nat)
    | Failed(attempt: string, stage: Stage)

  datatype SecondClaim = SecondClaim(
    attempt: string, checkpoint: Checkpoint, cursor: string, firstClaim: RetryClaim, firstResult: RetryResult)

  datatype Keys = Keys(
    checkpoint: Option<Checkpoint>, claim: Option<RetryClaim>, result: Option<RetryResult>,
    secondClaim: Option<SecondClaim>, secondResult: Option<RetryResult>)

  datatype Reply = Reply(keys: Keys, code: int)

  // ---------------------------------------------------------------- plans

  /** What identifies a filing reference; the rest of its metadata plays no part in a plan. */
  datatype Reference = Reference(cik: string, accession: string) {
    /** What the reference constructor requires of both, whatever it takes for a digit: the accession
        number starts with the CIK. */
    predicate Valid() {
      |cik| == 10 && |accession| == 20 && accession[10] == '-' == accession[13] && accession[..10] == cik
    }
  }

  const MAX_REFERENCES := 100

  /** What the discovery page constructor accepts: valid references, no pair of CIK and accession twice. */
  predicate PageAccepted(references: seq<Reference>) {
    && |references| <= MAX_REFERENCES
    && (forall r | r in references :: r.Valid())
    && Distinct(references)
  }

  /** The plan of a job: the accession numbers of its page, in order. */
  function Accessions(references: seq<Reference>): (plan: seq<string>)
    ensures |plan| == |references| && forall i | 0 <= i < |references| :: plan[i] == references[i].accession
  {
    if references == [] then [] else Accessions(references[..|references| - 1]) + [references[|references| - 1].accession]
  }

  /** Pairs that differ have different accession numbers, because each accession number carries its CIK. */
  lemma PlanIsDistinct(references: seq<Reference>)
    requires PageAccepted(references)
    ensures Distinct(Accessions(references))
  {
    var plan := Accessions(references);
    forall i, j | 0 <= i < j < |plan| ensures plan[i] != plan[j] {
      assert references[i] in references && references[j] in references && references[i] != references[j];
      assert references[i].cik == plan[i][..10] && references[j].cik == plan[j][..10];
    }
  }

  // ---------------------------------------------------------------- cursors

  /** The position after the first reference with this accession number; none when outside the plan. */
  function PositionOf(plan: seq<string>, accession: string): (r: Option<nat>)
    ensures r.Some? ==> 0 < r.value <= |plan| && plan[r.value - 1] == accession && accession !in plan[..r.value - 1]
    ensures r.None? <==> accession !in plan
  {
    if plan == [] then None
    else if plan[0] == accession then Some(1)
    else
      var rest := PositionOf(plan[1..], accession);
      if rest.None? then None
      else
        assert plan[..rest.value] == [plan[0]] + plan[1..][..rest.value - 1];
        Some(rest.value + 1)
  }

  function CursorIndex(plan: seq<string>, cursor: Option<string>): Option<nat> {
    if cursor.None? then Some(0) else PositionOf(plan, cursor.value)
  }

  /** The cursor saved after reference `i` leads back to the position after `i`, for every `i`,
      exactly when the accession numbers of the plan are distinct. */
  lemma CursorsLeadBack(plan: seq<string>)
    ensures (forall i | 0 <= i < |plan| :: CursorIndex(plan, Some(plan[i])) == Some(i + 1)) <==> Distinct(plan)
  {
    if forall i | 0 <= i < |plan| :: CursorIndex(plan, Some(plan[i])) == Some(i + 1) {
      forall i, j | 0 <= i < j < |plan| ensures plan[i] != plan[j] {
        assert CursorIndex(plan, Some(plan[i])) == Some(i + 1) && CursorIndex(plan, Some(plan[j])) == Some(j + 1);
      }
    }
  }

  // ---------------------------------------------------------------- scripts

  function CheckpointScript(k: Keys, expected: Option<Checkpoint>, next: Checkpoint): Reply {
    if expected.None? && k.checkpoint.Some? then Reply(k, 0)
    else if expected.Some? && k.checkpoint != expected then Reply(k, 0)
    else Reply(k.(checkpoint := Some(next)), 1)
  }

  /** The client's own check before it sends a checkpoint. */
  predicate Monotonic(expected: Option<Checkpoint>, next: Checkpoint) {
    expected.Some? ==>
      && expected.value.processed <= next.processed && expected.value.failed <= next.failed
      && (expected.value.complete ==> next.complete)
  }

  function ClaimScript(k: Keys, checkpoint: Checkpoint, claim: RetryClaim): Reply {
    if k.checkpoint != Some(checkpoint) then Reply(k, -1)
    else if k.claim.Some? || k.result.Some? then Reply(k, 0)
    else Reply(k.(claim := Some(claim)), 1)
  }

  function FinishScript(k: Keys, claim: RetryClaim, result: RetryResult): Reply {
    if k.claim != Some(claim) then Reply(k, -1)
    else if k.result == Some(result) then Reply(k, 1)
    else if k.result.Some? then Reply(k, -2)
    else Reply(k.(result := Some(result)), 1)
  }

  function ClaimSecondScript(k: Keys, c: SecondClaim): Reply {
    if k.checkpoint != Some(c.checkpoint) then Reply(k, -1)
    else if k.claim != Some(c.firstClaim) then Reply(k, -2)
    else if k.result != Some(c.firstResult) then Reply(k, -3)
    else if k.secondClaim.Some? || k.secondResult.Some? then Reply(k, 0)
    else Reply(k.(secondClaim := Some(c)), 1)
  }

  function FinishSecondScript(k: Keys, c: SecondClaim, result: RetryResult): Reply {
    if k.checkpoint != Some(c.checkpoint) then Reply(k, -1)
    else if k.claim != Some(c.firstClaim) then Reply(k, -2)
    else if k.result != Some(c.firstResult) then Reply(k, -3)
    else if k.secondClaim != Some(c) then Reply(k, -4)
    else if k.secondResult == Some(result) then Reply(k, 1)
    else if k.secondResult.Some? then Reply(k, 0)
    else Reply(k.(secondResult := Some(result)), 1)
  }

  // ---------------------------------------------------------------- snapshots

  /** What the retry snapshot constructor accepts. */
  predicate SnapshotAccepted(k: Keys) {
    && (k.result.Some? ==> k.claim.Some?)
    && (k.claim.Some? ==> k.checkpoint.Some?)
    && (k.claim.Some? && k.result.Some? ==> k.claim.value.attempt == k.result.value.attempt)
    && (k.claim.Some? && k.checkpoint.Some? ==>
          k.claim.value.checkpoint == k.checkpoint.value && Some(k.claim.value.cursor) == k.checkpoint.value.cursor)
  }

  /** A single filing that failed in a completed ordinary run. */
  predicate OneFailure(c: Checkpoint) {
    c.complete && c.processed == 0 && c.failed == 1
  }

  /** What the attempt-two snapshot constructor accepts. */
  predicate SecondSnapshotAccepted(k: Keys) {
    && k.checkpoint.Some? && k.claim.Some? && k.result.Some? && SnapshotAccepted(k)
    && OneFailure(k.checkpoint.value) && k.checkpoint.value.cursor.Some?
    && k.result.value.Failed? && k.result.value.stage == VectorVerification
    && (k.secondResult.Some? ==> k.secondClaim.Some?)
    && (k.secondClaim.Some? ==>
          && k.secondClaim.value.attempt != k.claim.value.attempt
          && k.secondClaim.value.checkpoint == k.checkpoint.value
          && Some(k.secondClaim.value.cursor) == k.checkpoint.value.cursor
          && k.secondClaim.value.firstClaim == k.claim.value
          && k.secondClaim.value.firstResult == k.result.value)
    && (k.secondClaim.Some? && k.secondResult.Some? ==> k.secondClaim.value.attempt == k.secondResult.value.attempt)
  }

  // ---------------------------------------------------------------- runners

  datatype Mode = Ordinary | Retry | AttemptTwo(authorization: string)

  datatype Phase =
    | Load
    | Attempt
    | Save
    | FinalSave
    | LoadSnapshot
    | ClaimRetry(claim: RetryClaim)
    | Recover(claim: RetryClaim)
    | FinishRetry(claim: RetryClaim, result: RetryResult)
    | LoadSecondSnapshot
    | ClaimSecond(second: SecondClaim)
    | Discover(second: SecondClaim)
    | RecoverSecond(second: SecondClaim)
    | FinishSecond(second: SecondClaim, result: RetryResult)
    | Returned
    | Stopped

  /** One invocation. `previous` is the record its checkpoint store remembers, `base` the checkpoint
      it resumed from; `attempt` is the random digest it would put in a claim. */
  datatype Runner = Runner(
    mode: Mode, attempt: string, phase: Phase, previous: Option<Checkpoint>, base: Option<Checkpoint>,
    resume: nat, index: nat, processed: nat, successes: nat, failures: nat, cursor: Option<string>)
  {
    function Stop(): Runner {
      this.(phase := Stopped)
    }

    function BaseFailed(): nat {
      if base.Some? then base.value.failed else 0
    }

    function NewFailures(): int {
      failures - BaseFailed()
    }
  }

  /** What the environment decides: the command's fate, whether the filing is ingested, and what a
      recovery reports; `samePlan` says that attempt two rediscovers the same job. */
  datatype Choice = Choice(fate: Fate, ok: bool, inserted: nat, removed: nat, stage: Stage, samePlan: bool)

  /** How the attempt under a claim went: what its recovery ingest reported, or why none was made. */
  datatype Report = Ingested(inserted: nat, removed: nat) | Broken(stage: Stage) | Undiscovered | PlanChanged

  /** The keys and their history: whether a reference was ingested in each ordinary attempt at it, the attempt
      digests under which a recovery ingest was executed, in order, and how the claimed attempts went. No
      step reads the history. */
  datatype World = World(keys: Keys, outcomes: set<(nat, bool)>, recoveries: seq<string>, reports: map<string, Report>) {
    function After(fate: Fate, reply: Reply): World {
      if fate == Dropped then this else this.(keys := reply.keys)
    }
  }

  datatype Effect = Effect(world: World, runner: Runner)

  function Outcome(attempt: string, c: Choice): RetryResult {
    if c.ok then Succeeded(attempt, c.inserted, c.removed) else Failed(attempt, c.stage)
  }

  /** A recovery ingest was executed; a runner that is cancelled meanwhile gets no report. */
  function Recovered(s: World, r: Runner, c: Choice): World {
    var report := if c.ok then Ingested(c.inserted, c.removed) else Broken(c.stage);
    s.(recoveries := s.recoveries + [r.attempt],
       reports := if c.fate == Delivered then s.reports[r.attempt := report] else s.reports)
  }

  /** The rediscovered page is the plan of the claimed job. */
  predicate SamePlan(plan: seq<string>, c: Choice, second: SecondClaim) {
    c.samePlan && |plan| == 1 && second.checkpoint.cursor == Some(plan[0])
  }

  function Discovered(plan: seq<string>, s: World, r: Runner, c: Choice, second: SecondClaim): World {
    if c.fate != Delivered then s.(reports := s.reports[r.attempt := Undiscovered])
    else if !SamePlan(plan, c, second) then s.(reports := s.reports[r.attempt := PlanChanged])
    else s
  }

  function Step(plan: seq<string>, s: World, r: Runner, c: Choice): Effect {
    match r.phase
    case Load => Effect(s, StepLoad(plan, s, r, c))
    case Attempt => StepAttempt(plan, s, r, c)
    case Save => StepSave(plan, s, r, c)
    case FinalSave => StepFinalSave(plan, s, r, c)
    case LoadSnapshot => Effect(s, StepLoadSnapshot(plan, s, r, c))
    case ClaimRetry(claim) =>
      var reply := ClaimScript(s.keys, claim.checkpoint, claim);
      Effect(s.After(c.fate, reply), if c.fate == Delivered && reply.code == 1 then r.(phase := Recover(claim)) else r.Stop())
    case Recover(claim) =>
      Effect(Recovered(s, r, c),
             if c.fate == Delivered then r.(phase := FinishRetry(claim, Outcome(r.attempt, c))) else r.Stop())
    case FinishRetry(claim, result) =>
      var reply := FinishScript(s.keys, claim, result);
      Effect(s.After(c.fate, reply), if c.fate == Delivered && reply.code == 1 then r.(phase := Returned) else r.Stop())
    case LoadSecondSnapshot => Effect(s, StepLoadSecond(s, r, c))
    case ClaimSecond(second) =>
      var reply := ClaimSecondScript(s.keys, second);
      Effect(s.After(c.fate, reply), if c.fate == Delivered && reply.code == 1 then r.(phase := Discover(second)) else r.Stop())
    case Discover(second) => Effect(Discovered(plan, s, r, c, second), StepDiscover(plan, r, c, second))
    case RecoverSecond(second) =>
      Effect(Recovered(s, r, c),
             if c.fate == Delivered then r.(phase := FinishSecond(second, Outcome(r.attempt, c))) else r.Stop())
    case FinishSecond(second, result) =>
      var reply := FinishSecondScript(s.keys, second, result);
      Effect(s.After(c.fate, reply), if c.fate == Delivered && reply.code == 1 then r.(phase := Returned) else r.Stop())
    case Returned => Effect(s, r)
    case Stopped => Effect(s, r)
  }

  function StepLoad(plan: seq<string>, s: World, r: Runner, c: Choice): Runner {
    var seen := s.keys.checkpoint;
    if c.fate != Delivered then r.Stop()
    else if r.mode.Retry? then r.(previous := seen, base := seen, phase := LoadSnapshot)
    else
      var resume := if seen.Some? then CursorIndex(plan, seen.value.cursor) else Some(0);
      if resume.None? then r.Stop()
      else
        var i := resume.value;
        r.(previous := seen, base := seen, resume := i, index := i, processed := 0,
           successes := if seen.Some? then seen.value.processed else 0,
           failures := if seen.Some? then seen.value.failed else 0,
           cursor := if seen.Some? then seen.value.cursor else None,
           phase := if i < |plan| then Attempt else FinalSave)
  }

  /** Fetch, parse and ingest one reference; every failure is counted and the loop goes on. */
  function StepAttempt(plan: seq<string>, s: World, r: Runner, c: Choice): Effect {
    if c.fate != Delivered || r.index >= |plan| then Effect(s, r.Stop())
    else
      var counted := if c.ok then r.(processed := r.processed + 1, successes := r.successes + 1)
                     else r.(failures := r.failures + 1);
      Effect(s.(outcomes := s.outcomes + {(r.index, c.ok)}),
             counted.(cursor := Some(plan[r.index]), index := r.index + 1, phase := Save))
  }

  function StepSave(plan: seq<string>, s: World, r: Runner, c: Choice): Effect {
    var next := Checkpoint(r.cursor, r.successes, r.failures, false);
    var reply := CheckpointScript(s.keys, r.previous, next);
    if !Monotonic(r.previous, next) then Effect(s, r.Stop())
    else Effect(s.After(c.fate, reply),
                if c.fate == Delivered && reply.code == 1
                then r.(previous := Some(next), phase := if r.index < |plan| then Attempt else FinalSave)
                else r.Stop())
  }

  function FinalRecord(plan: seq<string>, r: Runner): Checkpoint {
    Checkpoint(r.cursor, r.successes, r.failures, r.resume + r.processed + r.NewFailures() >= |plan|)
  }

  function StepFinalSave(plan: seq<string>, s: World, r: Runner, c: Choice): Effect {
    var next := FinalRecord(plan, r);
    var reply := CheckpointScript(s.keys, r.previous, next);
    if !Monotonic(r.previous, next) then Effect(s, r.Stop())
    else Effect(s.After(c.fate, reply),
                if c.fate == Delivered && reply.code == 1 then r.(previous := Some(next), phase := Returned) else r.Stop())
  }

  function StepLoadSnapshot(plan: seq<string>, s: World, r: Runner, c: Choice): Runner {
    var k := s.keys;
    if c.fate != Delivered || !SnapshotAccepted(k) || k.checkpoint != r.base then r.Stop()
    else if k.result.Some? then (if k.result.value.Succeeded? then r.(phase := Returned) else r.Stop())
    else if k.claim.Some? then r.Stop()
    else if r.base.None? || |plan| != 1 || !OneFailure(r.base.value) || r.base.value.cursor != Some(plan[0]) then r.Stop()
    else r.(phase := ClaimRetry(RetryClaim(r.attempt, r.base.value, plan[0])))
  }

  function StepLoadSecond(s: World, r: Runner, c: Choice): Runner {
    var k := s.keys;
    if c.fate != Delivered || !SecondSnapshotAccepted(k) then r.Stop()
    else if !r.mode.AttemptTwo? || r.mode.authorization != k.claim.value.attempt then r.Stop()
    else if k.secondResult.Some? then r.(phase := Returned)
    else if k.secondClaim.Some? || r.attempt == k.claim.value.attempt then r.Stop()
    else
      var cp := k.checkpoint.value;
      r.(base := k.checkpoint, phase := ClaimSecond(SecondClaim(r.attempt, cp, cp.cursor.value, k.claim.value, k.result.value)))
  }

  function StepDiscover(plan: seq<string>, r: Runner, c: Choice, second: SecondClaim): Runner {
    if c.fate != Delivered then r.(phase := FinishSecond(second, Failed(r.attempt, SecFetch)))
    else if !SamePlan(plan, c, second) then r.(phase := FinishSecond(second, Failed(r.attempt, Checkpointing)))
    else r.(phase := RecoverSecond(second))
  }

  // ---------------------------------------------------------------- runs

  datatype System = System(world: World, runners: map<nat, Runner>)

  datatype Event = Begin(id: nat, runner: Runner) | Act(id: nat, choice: Choice)

  predicate Enabled(s: System, e: Event) {
    match e
    case Begin(id, r) =>
      && id !in s.runners && (forall other | other in s.runners :: s.runners[other].attempt != r.attempt)
      && r == Runner(r.mode, r.attempt, if r.mode.AttemptTwo? then LoadSecondSnapshot else Load, None, None, 0, 0, 0, 0, 0, None)
    case Act(id, _) => id in s.runners
  }

  function Next(plan: seq<string>, s: System, e: Event): System
    requires Enabled(s, e)
  {
    match e
    case Begin(id, r) => s.(runners := s.runners[id := r])
    case Act(id, c) =>
      var effect := Step(plan, s.world, s.runners[id], c);
      System(effect.world, s.runners[id := effect.runner])
  }

  predicate Initial(s: System) {
    s == System(World(Keys(None, None, None, None, None), {}, [], map[]), map[])
  }

  predicate Run(plan: seq<string>, states: seq<System>, events: seq<Event>) {
    && |states| == |events| + 1
    && Initial(states[0])
    && forall i | 0 <= i < |events| :: Enabled(states[i], events[i]) && states[i + 1] == Next(plan, states[i], events[i])
  }
}
