/** What a runner decides from the ledger it loads, and what an undisturbed run, retry or second attempt
    achieves. */
module LedgerRuns {
  import opened Domain
  import opened Ledger
  import T = LedgerTheorems

  // ---------------------------------------------------------------- decisions

  /** The one reference of the plan failed in a completed ordinary run. */
  ghost predicate FailedOnce(plan: seq<string>, checkpoint: Option<Checkpoint>) {
    |plan| == 1 && checkpoint == Some(Checkpoint(Some(plan[0]), 0, 1, true))
  }

  /** A retry replays a recorded success, claims a job of one filing that failed and was never claimed, and in
      every other case stops. */
  lemma RetryDecides(plan: seq<string>, states: seq<System>, events: seq<Event>, i: nat, id: nat, c: Choice)
    requires Run(plan, states, events) && i < |states| && id in states[i].runners && states[i].runners[id].phase.LoadSnapshot?
    ensures var k := states[i].world.keys; var r := states[i].runners[id]; var e := Step(plan, states[i].world, r, c);
            var current := c.fate == Delivered && k.checkpoint == r.base;
            && e.world == states[i].world
            && (e.runner.phase == Returned <==> current && k.result.Some? && k.result.value.Succeeded?)
            && (e.runner.phase.ClaimRetry? <==> current && k.claim.None? && FailedOnce(plan, k.checkpoint))
            && (e.runner.phase.ClaimRetry? ==> e.runner.phase.claim == RetryClaim(r.attempt, k.checkpoint.value, plan[0]))
            && (e.runner.phase != Returned && !e.runner.phase.ClaimRetry? ==> e.runner.phase == Stopped)
  {
    hide Run, T.Accounts, T.Remembers, CursorIndex;
    T.RunKeeps(plan, states, events, i, i);
  }

  /** A second attempt replays whatever the second attempt before it recorded, claims when the first is recorded
      FAILED at vector verification and nobody claimed the second, and in every other case stops; it must name
      the first attempt. */
  lemma SecondDecides(plan: seq<string>, states: seq<System>, events: seq<Event>, i: nat, id: nat, c: Choice)
    requires Run(plan, states, events) && i < |states| && id in states[i].runners && states[i].runners[id].phase.LoadSecondSnapshot?
    ensures var k := states[i].world.keys; var r := states[i].runners[id]; var e := Step(plan, states[i].world, r, c);
            var open := c.fate == Delivered && k.claim.Some? && k.result == Some(Failed(k.claim.value.attempt, VectorVerification))
                        && r.mode == AttemptTwo(k.claim.value.attempt);
            && e.world == states[i].world
            && (e.runner.phase == Returned <==> open && k.secondResult.Some?)
            && (e.runner.phase.ClaimSecond? <==> open && k.secondClaim.None?)
            && (e.runner.phase.ClaimSecond? ==>
                  e.runner.phase.second == SecondClaim(r.attempt, k.checkpoint.value, k.claim.value.cursor, k.claim.value, k.result.value))
            && (e.runner.phase != Returned && !e.runner.phase.ClaimSecond? ==> e.runner.phase == Stopped)
  {
    hide Run, T.Accounts, T.Remembers, CursorIndex;
    T.RunKeeps(plan, states, events, i, i);
    assert T.RunnerOk(plan, states[i].world, states[i].runners[id]);
  }

  /** The claimed second attempt recovers exactly when its job is discovered again unchanged. */
  lemma DiscoveryDecides(plan: seq<string>, states: seq<System>, events: seq<Event>, i: nat, id: nat, c: Choice)
    requires Run(plan, states, events) && i < |states| && id in states[i].runners && states[i].runners[id].phase.Discover?
    ensures var r := states[i].runners[id]; var v := Step(plan, states[i].world, r, c).runner;
            && (v.phase == RecoverSecond(r.phase.second) <==> c.fate == Delivered && c.samePlan)
            && (v.phase != RecoverSecond(r.phase.second) ==>
                  v.phase == FinishSecond(r.phase.second, Failed(r.attempt, if c.fate == Delivered then Checkpointing else SecFetch)))
  {
    hide Run, T.Accounts, T.Remembers, CursorIndex;
    T.RunKeeps(plan, states, events, i, i);
    assert T.RunnerOk(plan, states[i].world, states[i].runners[id]);
  }

  /** A runner whose command is not answered, or which is cancelled, stops; only a second attempt that cannot
      discover its job goes on, to record that. A command that was lost changes no key and counts nothing. */
  lemma UnansweredStops(plan: seq<string>, s: World, r: Runner, c: Choice)
    requires c.fate != Delivered && !r.phase.Returned? && !r.phase.Discover?
    ensures var e := Step(plan, s, r, c);
            && e.runner == r.(phase := Stopped) && e.world.outcomes == s.outcomes && e.world.reports == s.reports
            && (c.fate == Dropped ==> e.world.keys == s.keys)
  {
    hide CheckpointScript, ClaimScript, FinishScript, ClaimSecondScript, FinishSecondScript;
  }

  // ---------------------------------------------------------------- scripts, in every state of the keys

  /** A finish succeeds exactly under its own claim when its result is then the stored one; it never replaces a
      result, so repeating it after a lost reply succeeds again and changes nothing. */
  lemma FinishRepeats(k: Keys, claim: RetryClaim, result: RetryResult)
    ensures var reply := FinishScript(k, claim, result);
            && reply.keys == k.(result := reply.keys.result) && (k.result.Some? ==> reply.keys == k)
            && (reply.code == 1 <==> k.claim == Some(claim) && reply.keys.result == Some(result))
            && (reply.code != 1 ==> reply.keys == k)
            && (reply.code == 1 ==> FinishScript(reply.keys, claim, result) == reply)
  {
  }

  lemma FinishSecondRepeats(k: Keys, c: SecondClaim, result: RetryResult)
    ensures var reply := FinishSecondScript(k, c, result);
            && reply.keys == k.(secondResult := reply.keys.secondResult) && (k.secondResult.Some? ==> reply.keys == k)
            && (reply.code == 1 <==>
                  && k.checkpoint == Some(c.checkpoint) && k.claim == Some(c.firstClaim) && k.result == Some(c.firstResult)
                  && k.secondClaim == Some(c) && reply.keys.secondResult == Some(result))
            && (reply.code != 1 ==> reply.keys == k)
            && (reply.code == 1 ==> FinishSecondScript(reply.keys, c, result) == reply)
  {
  }

  /** A claim is granted exactly for the stored checkpoint when nothing was claimed or recorded before, and is
      granted once. */
  lemma ClaimedOnce(k: Keys, claim: RetryClaim, other: RetryClaim)
    ensures var reply := ClaimScript(k, claim.checkpoint, claim);
            && (reply.code == 1 <==> k.checkpoint == Some(claim.checkpoint) && k.claim.None? && k.result.None?)
            && reply.keys == (if reply.code == 1 then k.(claim := Some(claim)) else k)
            && (reply.code == 1 ==> ClaimScript(reply.keys, other.checkpoint, other).code != 1)
  {
  }

  lemma ClaimedSecondOnce(k: Keys, c: SecondClaim, other: SecondClaim)
    ensures var reply := ClaimSecondScript(k, c);
            && (reply.code == 1 <==>
                  && k.checkpoint == Some(c.checkpoint) && k.claim == Some(c.firstClaim) && k.result == Some(c.firstResult)
                  && k.secondClaim.None? && k.secondResult.None?)
            && reply.keys == (if reply.code == 1 then k.(secondClaim := Some(c)) else k)
            && (reply.code == 1 ==> ClaimSecondScript(reply.keys, other).code != 1)
  {
  }

  // ---------------------------------------------------------------- undisturbed runs

  /** The runner alone, with every command answered. */
  ghost predicate Alone(plan: seq<string>, effects: seq<Effect>, choices: seq<Choice>) {
    && |effects| == |choices| + 1
    && forall i | 0 <= i < |choices| ::
         choices[i].fate == Delivered && effects[i + 1] == Step(plan, effects[i].world, effects[i].runner, choices[i])
  }

  function Fresh(mode: Mode, attempt: string): Runner {
    Runner(mode, attempt, if mode.AttemptTwo? then LoadSecondSnapshot else Load, None, None, 0, 0, 0, 0, 0, None)
  }

  /** How many of the first `n` attempts ingested their reference; each attempt is followed by a save. */
  ghost function Ingestions(choices: seq<Choice>, n: nat): (count: nat)
    requires 2 * n <= |choices|
    ensures count <= n
  {
    if n == 0 then 0 else Ingestions(choices, n - 1) + if choices[2 * n - 1].ok then 1 else 0
  }

  ghost function Counts(checkpoint: Option<Checkpoint>): (nat, nat) {
    if checkpoint.None? then (0, 0) else (checkpoint.value.processed, checkpoint.value.failed)
  }

  /** An ordinary runner resumed from `base` at `resume`, after `n` further references. */
  ghost function Loaded(plan: seq<string>, attempt: string, base: Option<Checkpoint>, resume: nat, n: nat, ingested: nat): Runner
    requires resume + n <= |plan| && ingested <= n
  {
    var cursor := if n == 0 then (if base.Some? then base.value.cursor else None) else Some(plan[resume + n - 1]);
    var successes, failures := Counts(base).0 + ingested, Counts(base).1 + n - ingested;
    Runner(Ordinary, attempt, if resume + n < |plan| then Attempt else FinalSave,
           if n == 0 then base else Some(Checkpoint(cursor, successes, failures, false)), base,
           resume, resume + n, ingested, successes, failures, cursor)
  }

  ghost predicate Resumes(plan: seq<string>, s: World, resume: nat) {
    && Counts(s.keys.checkpoint).0 + Counts(s.keys.checkpoint).1 == resume <= |plan|
    && (s.keys.checkpoint.Some? ==>
          CursorIndex(plan, s.keys.checkpoint.value.cursor) == Some(resume) && (s.keys.checkpoint.value.complete ==> resume == |plan|))
  }

  lemma {:induction false} LoopRuns(plan: seq<string>, effects: seq<Effect>, choices: seq<Choice>, resume: nat, n: nat)
    requires Alone(plan, effects, choices) && |effects| == |choices| + 1
    requires Resumes(plan, effects[0].world, resume) && effects[0].runner == Fresh(Ordinary, effects[0].runner.attempt)
    requires resume + n <= |plan| && 2 * n + 1 <= |choices|
    ensures var s := effects[0].world;
            var r := Loaded(plan, effects[0].runner.attempt, s.keys.checkpoint, resume, n, Ingestions(choices, n));
            && effects[2 * n + 1].runner == r
            && effects[2 * n + 1].world.keys == s.keys.(checkpoint := r.previous)
  {
    hide CursorIndex, Alone, Step;
    if n == 0 {
      LoadStep(plan, effects, choices, resume);
    } else {
      LoopRuns(plan, effects, choices, resume, n - 1);
      AttemptAndSave(plan, effects, choices, effects[0].world.keys, effects[0].runner.attempt, resume, n - 1);
    }
  }

  lemma LoadStep(plan: seq<string>, effects: seq<Effect>, choices: seq<Choice>, resume: nat)
    requires Alone(plan, effects, choices) && |effects| == |choices| + 1 >= 2
    requires Resumes(plan, effects[0].world, resume) && effects[0].runner == Fresh(Ordinary, effects[0].runner.attempt)
    ensures effects[1].world == effects[0].world
    ensures effects[1].runner == Loaded(plan, effects[0].runner.attempt, effects[0].world.keys.checkpoint, resume, 0, 0)
  {
    assert effects[0 + 1] == Step(plan, effects[0].world, effects[0].runner, choices[0]);
  }

  lemma AttemptAndSave(plan: seq<string>, effects: seq<Effect>, choices: seq<Choice>, k: Keys, attempt: string, resume: nat, n: nat)
    requires Alone(plan, effects, choices) && |effects| == |choices| + 1 && resume + n < |plan| && 2 * n + 3 <= |choices|
    requires var r := Loaded(plan, attempt, k.checkpoint, resume, n, Ingestions(choices, n));
             effects[2 * n + 1].runner == r && effects[2 * n + 1].world.keys == k.(checkpoint := r.previous)
    requires k.checkpoint.Some? ==> !k.checkpoint.value.complete
    ensures var r := Loaded(plan, attempt, k.checkpoint, resume, n + 1, Ingestions(choices, n + 1));
            effects[2 * n + 3].runner == r && effects[2 * n + 3].world.keys == k.(checkpoint := r.previous)
  {
    var e := effects[2 * n + 1];
    assert effects[2 * n + 1 + 1] == Step(plan, e.world, e.runner, choices[2 * n + 1]);
    assert effects[2 * n + 2 + 1] == Step(plan, effects[2 * n + 2].world, effects[2 * n + 2].runner, choices[2 * n + 2]);
  }

  /** An undisturbed ordinary run resumes behind the stored checkpoint, goes on whatever fails, and returns
      after one attempt and one save for each remaining reference: its complete record counts the references
      ingested and failed before and in this run. */
  lemma UndisturbedRun(plan: seq<string>, effects: seq<Effect>, choices: seq<Choice>, resume: nat)
    requires Alone(plan, effects, choices) && Resumes(plan, effects[0].world, resume)
    requires effects[0].runner == Fresh(Ordinary, effects[0].runner.attempt)
    requires |effects| == |choices| + 1 == 2 * (|plan| - resume) + 3
    ensures var before := effects[0].world.keys; var n := |plan| - resume; var ingested := Ingestions(choices, n);
            && effects[|choices|].runner.phase == Returned
            && effects[|choices|].world.keys.checkpoint.Some?
            && (var record := effects[|choices|].world.keys.checkpoint.value;
                && effects[|choices|].world.keys == before.(checkpoint := Some(record))
                && record.complete
                && (n > 0 ==> record.cursor == Some(plan[|plan| - 1]))
                && (n == 0 && before.checkpoint.Some? ==> record.cursor == before.checkpoint.value.cursor)
                && record.processed == Counts(before.checkpoint).0 + ingested
                && record.failed == Counts(before.checkpoint).1 + n - ingested)
  {
    hide CursorIndex;
    var n := |plan| - resume;
    LoopRuns(plan, effects, choices, resume, n);
    var e := effects[2 * n + 1];
    assert effects[2 * n + 1 + 1] == Step(plan, e.world, e.runner, choices[2 * n + 1]);
  }

  /** `result` reports what the recovery of choice `c` did. */
  ghost predicate Reports(result: RetryResult, attempt: string, c: Choice) {
    && (c.ok ==> result == Succeeded(attempt, c.inserted, c.removed))
    && (!c.ok ==> result == Failed(attempt, c.stage))
  }

  /** An undisturbed retry of a job whose only filing failed recovers once, under the claim it made, records
      what that recovery did, and returns, after five commands. */
  lemma UndisturbedRetry(plan: seq<string>, effects: seq<Effect>, choices: seq<Choice>)
    requires Alone(plan, effects, choices) && |effects| == |choices| + 1 == 6
    requires effects[0].runner == Fresh(Retry, effects[0].runner.attempt)
    requires var k := effects[0].world.keys; FailedOnce(plan, k.checkpoint) && k.claim.None? && k.result.None?
    ensures var s := effects[0].world; var t := effects[5].world; var attempt := effects[0].runner.attempt;
            && effects[5].runner.phase == Returned
            && t.keys.result.Some? && Reports(t.keys.result.value, attempt, choices[3])
            && t.keys == s.keys.(claim := Some(RetryClaim(attempt, s.keys.checkpoint.value, plan[0])), result := t.keys.result)
            && t.recoveries == s.recoveries + [attempt] && t.outcomes == s.outcomes
  {
    assert effects[0 + 1] == Step(plan, effects[0].world, effects[0].runner, choices[0]);
    assert effects[1 + 1] == Step(plan, effects[1].world, effects[1].runner, choices[1]);
    assert effects[2 + 1] == Step(plan, effects[2].world, effects[2].runner, choices[2]);
    assert effects[3 + 1] == Step(plan, effects[3].world, effects[3].runner, choices[3]);
    assert effects[4 + 1] == Step(plan, effects[4].world, effects[4].runner, choices[4]);
  }

  ghost predicate SecondOpen(plan: seq<string>, k: Keys, r: Runner) {
    && FailedOnce(plan, k.checkpoint)
    && k.claim.Some? && k.claim == Some(RetryClaim(k.claim.value.attempt, k.checkpoint.value, plan[0]))
    && k.result == Some(Failed(k.claim.value.attempt, VectorVerification))
    && k.secondClaim.None? && k.secondResult.None?
    && r == Fresh(AttemptTwo(k.claim.value.attempt), r.attempt) && r.attempt != k.claim.value.attempt
  }

  ghost function SecondOf(plan: seq<string>, k: Keys, r: Runner): SecondClaim
    requires SecondOpen(plan, k, r)
  {
    SecondClaim(r.attempt, k.checkpoint.value, plan[0], k.claim.value, k.result.value)
  }

  /** The same for the second attempt, authorized by the digest of the first, whose job is discovered unchanged. */
  lemma UndisturbedSecondAttempt(plan: seq<string>, effects: seq<Effect>, choices: seq<Choice>)
    requires Alone(plan, effects, choices) && |effects| == |choices| + 1 == 6 && choices[2].samePlan
    requires SecondOpen(plan, effects[0].world.keys, effects[0].runner)
    ensures var s := effects[0].world; var t := effects[5].world; var r := effects[0].runner;
            && effects[5].runner.phase == Returned
            && t.keys.secondResult.Some? && Reports(t.keys.secondResult.value, r.attempt, choices[3])
            && t.keys == s.keys.(secondClaim := Some(SecondOf(plan, s.keys, r)), secondResult := t.keys.secondResult)
            && t.recoveries == s.recoveries + [r.attempt] && t.outcomes == s.outcomes
  {
    SecondClaims(plan, effects, choices);
    assert effects[2 + 1] == Step(plan, effects[2].world, effects[2].runner, choices[2]);
    assert effects[3 + 1] == Step(plan, effects[3].world, effects[3].runner, choices[3]);
    assert effects[4 + 1] == Step(plan, effects[4].world, effects[4].runner, choices[4]);
  }

  lemma SecondClaims(plan: seq<string>, effects: seq<Effect>, choices: seq<Choice>)
    requires Alone(plan, effects, choices) && |effects| == |choices| + 1 == 6
    requires SecondOpen(plan, effects[0].world.keys, effects[0].runner)
    ensures var s := effects[0].world; var r := effects[0].runner; var second := SecondOf(plan, s.keys, r);
            && effects[2].world == s.(keys := s.keys.(secondClaim := Some(second)))
            && effects[2].runner == r.(base := s.keys.checkpoint, phase := Discover(second))
  {
    assert effects[0 + 1] == Step(plan, effects[0].world, effects[0].runner, choices[0]);
    assert effects[1 + 1] == Step(plan, effects[1].world, effects[1].runner, choices[1]);
  }
}
