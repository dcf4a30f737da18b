/** One ordinary ingestion run, undisturbed: the compare-and-set checkpoint client with its remembered
    record, and the loop over the plan that saves after every reference. */
module CheckpointRun {
  import opened Domain
  import opened Ledger

  class CheckpointControl {
    var checkpoints: map<string, Checkpoint>

    constructor ()
      ensures checkpoints == map[]
    {
      checkpoints := map[];
    }

    function At(job: string): Option<Checkpoint>
      reads this
    {
      if job in checkpoints then Some(checkpoints[job]) else None
    }

    /** None when the client refuses to send a checkpoint that loses progress. */
    method Save(job: string, expected: Option<Checkpoint>, next: Checkpoint) returns (saved: Option<bool>)
      modifies this
      ensures saved.None? <==> !Monotonic(expected, next)
      ensures saved == Some(true) <==> Monotonic(expected, next) && old(At(job)) == expected
      ensures checkpoints == if saved == Some(true) then old(checkpoints)[job := next] else old(checkpoints)
    {
      if expected.Some? {
        var e := expected.value;
        if next.processed < e.processed || next.failed < e.failed || (e.complete && !next.complete) {
          return None;
        }
      }
      if expected.None? {
        if job in checkpoints {
          return Some(false);
        }
      } else if !(job in checkpoints && checkpoints[job] == expected.value) {
        return Some(false);
      }
      checkpoints := checkpoints[job := next];
      return Some(true);
    }
  }

  class ControlCheckpointStore {
    const control: CheckpointControl
    var previous: map<string, Option<Checkpoint>>

    constructor (control: CheckpointControl)
      ensures this.control == control && previous == map[]
    {
      this.control := control;
      previous := map[];
    }

    method Load(job: string) returns (checkpoint: Option<Checkpoint>)
      modifies this
      ensures checkpoint == control.At(job)
      ensures previous == old(previous)[job := checkpoint]
    {
      checkpoint := if job in control.checkpoints then Some(control.checkpoints[job]) else None;
      previous := previous[job := checkpoint];
    }

    /** False stands for the exception of a refused or lost compare-and-set. */
    method Save(job: string, next: Checkpoint) returns (saved: bool)
      modifies this, control
      ensures var expected := if job in old(previous) then old(previous)[job] else None;
              && (saved <==> Monotonic(expected, next) && old(control.At(job)) == expected)
              && control.checkpoints == (if saved then old(control.checkpoints)[job := next] else old(control.checkpoints))
              && previous == (if saved then old(previous)[job := Some(next)] else old(previous))
    {
      var expected := if job in previous then previous[job] else None;
      var done := control.Save(job, expected, next);
      if done != Some(true) {
        return false;
      }
      previous := previous[job := Some(next)];
      return true;
    }
  }

  datatype Report = Report(planned: nat, skipped: nat, processed: nat, failed: nat)

  function Count(s: seq<bool>): nat {
    if s == [] then 0 else Count(s[..|s| - 1]) + if s[|s| - 1] then 1 else 0
  }

  lemma CountNext(ok: seq<bool>, from: nat, i: nat)
    requires from <= i < |ok|
    ensures Count(ok[from..i + 1]) == Count(ok[from..i]) + if ok[i] then 1 else 0
  {
    assert ok[from..i + 1][..i - from] == ok[from..i];
  }

  lemma CountNone(ok: seq<bool>, i: nat)
    requires i <= |ok|
    ensures Count(ok[i..i]) == 0
  {
  }

  function BaseOf(c: Option<Checkpoint>): Checkpoint {
    if c.Some? then c.value else Checkpoint(None, 0, 0, false)
  }

  function ResumeIndex(plan: seq<string>, start: Option<Checkpoint>): Option<nat> {
    if start.Some? then CursorIndex(plan, start.value.cursor) else Some(0)
  }

  /** Accounts of the loop between two references: `ok[resume..index]` was added to the base. */
  ghost predicate LoopAccounts(plan: seq<string>, ok: seq<bool>, start: Option<Checkpoint>, resume: nat, index: nat,
                               processed: nat, failed: nat)
    requires resume <= index <= |plan| == |ok|
  {
    && processed == Count(ok[resume..index]) <= index - resume
    && failed == BaseOf(start).failed + (index - resume) - processed
  }

  function CursorAt(plan: seq<string>, start: Option<Checkpoint>, resume: nat, index: nat): Option<string>
    requires resume <= index <= |plan|
  {
    if index == resume then BaseOf(start).cursor else Some(plan[index - 1])
  }

  /** `ok[i]` says whether reference `i` is ingested. A run that returns accounts for the whole plan and
      leaves a complete checkpoint; it returns whenever the
      stored cursor is in the plan and a complete checkpoint leaves nothing to resume. */
  method RunPlan(store: ControlCheckpointStore, job: string, plan: seq<string>, ok: seq<bool>) returns (report: Option<Report>)
    requires |ok| == |plan|
    modifies store, store.control
    ensures report.Some? ==>
              var start := old(store.control.At(job)); var resume := ResumeIndex(plan, start);
              && resume.Some? && report.value.planned == |plan| && report.value.skipped == resume.value
              && report.value.processed == Count(ok[resume.value..])
              && report.value.skipped + report.value.processed + (report.value.failed - BaseOf(start).failed) == |plan|
              && store.control.At(job) == Some(Checkpoint(CursorAt(plan, start, resume.value, |plan|),
                   BaseOf(start).processed + report.value.processed, report.value.failed, true))
    ensures forall other | other != job :: store.control.At(other) == old(store.control.At(other))
    ensures ResumeIndex(plan, old(store.control.At(job))).Some?
            && (old(store.control.At(job)).Some? && BaseOf(old(store.control.At(job))).complete ==>
                  ResumeIndex(plan, old(store.control.At(job))) == Some(|plan|))
            ==> report.Some?
  {
    hide PositionOf, Count;
    var checkpoint := store.Load(job);
    var resume := 0;
    if checkpoint.Some? {
      var found := CursorIndex(plan, checkpoint.value.cursor);
      if found.None? {
        return None;
      }
      resume := found.value;
    }
    var failed: nat := if checkpoint.Some? then checkpoint.value.failed else 0;
    var successes: nat := if checkpoint.Some? then checkpoint.value.processed else 0;
    var cursor := if checkpoint.Some? then checkpoint.value.cursor else None;
    var processed: nat, index := 0, resume;
    assert Count(ok[resume..resume]) == 0 by {
      CountNone(ok, resume);
    }
    while index < |plan|
      invariant resume <= index <= |plan|
      invariant LoopAccounts(plan, ok, checkpoint, resume, index, processed, failed)
      invariant cursor == CursorAt(plan, checkpoint, resume, index)
      invariant successes == BaseOf(checkpoint).processed + processed
      invariant store.control.At(job)
                == if index == resume then checkpoint else Some(Checkpoint(cursor, successes, failed, false))
      invariant job in store.previous && store.previous[job] == store.control.At(job)
      invariant forall other | other != job :: store.control.At(other) == old(store.control.At(other))
    {
      CountNext(ok, resume, index);
      if ok[index] {
        processed, successes := processed + 1, successes + 1;
      } else {
        failed := failed + 1;
      }
      cursor := Some(plan[index]);
      var saved := store.Save(job, Checkpoint(cursor, successes, failed, false));
      if !saved {
        return None;
      }
      index := index + 1;
    }
    assert ok[resume..|plan|] == ok[resume..];
    var newFailures := failed - (if checkpoint.Some? then checkpoint.value.failed else 0);
    var complete := resume + processed + newFailures >= |plan|;
    var saved := store.Save(job, Checkpoint(cursor, successes, failed, complete));
    if !saved {
      return None;
    }
    return Some(Report(|plan|, resume, processed, failed));
  }
}
