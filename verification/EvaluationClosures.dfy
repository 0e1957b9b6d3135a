/**
 * The closures passed to updateEvaluation, as they mutate the record read from a snapshot. Each is
 * proved to do what EvaluationRecord.Apply says of its change.
 */
module EvaluationClosures {
  import opened Wrappers
  import opened EvaluationRecord

  /** How a closure ends: it throws RepeatSpendError, returns false, or has changed the record. */
  datatype Verdict = Threw | ReturnedFalse | Mutated

  class Record {
    const id: string
    const revision: nat
    const createdAt: string
    var status: Status
    var trials: seq<Trial>
    var finishedAt: Option<Time>
    var error: Option<string>
    var deletedAt: Option<Time>
    var deletedBy: Option<string>

    constructor (run: Run)
      ensures Snapshot() == run
    {
      id, revision, createdAt, status, trials := run.id, run.revision, run.createdAt, run.status, run.trials;
      finishedAt, error, deletedAt, deletedBy := run.finishedAt, run.error, run.deletedAt, run.deletedBy;
    }

    function Snapshot(): Run
      reads this
    {
      Run(id, revision, createdAt, status, trials, finishedAt, error, deletedAt, deletedBy)
    }

    /** The verdict and the record after it are what `Apply` says of the record before. */
    predicate Did(q: Request, now: Time, before: Run, verdict: Verdict)
      reads this
    {
      match Apply(q, now, before)
      case Refused => verdict.Threw? && Snapshot() == before
      case Unchanged => verdict.ReturnedFalse? && Snapshot() == before
      case Changed(run) => verdict.Mutated? && Snapshot() == run
    }

    /** claimTrial's own update: queued, or taken over from a lost worker, to running. */
    method ClaimTrial(claimId: ClaimId, index: nat, now: Time) returns (verdict: Verdict)
      modifies this
      ensures Did(Claim(claimId, index), now, old(Snapshot()), verdict)
    {
      var abandoned := index < |trials| && trials[index].status.Running? && trials[index].claim.Some?
                       && trials[index].solverStartedAt.None?;
      if !status.Running? || index >= |trials| || (!trials[index].status.Queued? && !abandoned) {
        return Threw;
      }
      var trial := trials[index];
      trials := trials[index := trial.(status := Running, claim := Some(claimId), startedAt := Some(now))];
      return Mutated;
    }

    /** `held`: the trial while the claim is still this attempt's. */
    method Hold(claimId: ClaimId, index: nat) returns (current: Option<Trial>)
      ensures current.Some? <==> Held(Snapshot(), claimId, index)
      ensures current.Some? ==> current.value == trials[index]
    {
      if status.Running? && index < |trials| && trials[index].status.Running? && trials[index].claim == Some(claimId) {
        return Some(trials[index]);
      }
      return None;
    }

    method StartSolver(claimId: ClaimId, index: nat, startedAt: Time, now: Time) returns (verdict: Verdict)
      modifies this
      ensures Did(Mark(claimId, index, startedAt), now, old(Snapshot()), verdict)
    {
      var current := Hold(claimId, index);
      if current.None? { return Threw; }
      trials := trials[index := current.value.(solverStartedAt := Some(startedAt))];
      return Mutated;
    }

    method SaveTrial(claimId: ClaimId, index: nat, trial: Trial, now: Time) returns (verdict: Verdict)
      modifies this
      ensures Did(Save(claimId, index, trial), now, old(Snapshot()), verdict)
    {
      var current := Hold(claimId, index);
      if current.None? { return ReturnedFalse; }
      trials := trials[index := trial];
      return Mutated;
    }

    method RequeueTrial(claimId: ClaimId, index: nat, now: Time) returns (verdict: Verdict)
      modifies this
      ensures Did(Requeue(claimId, index), now, old(Snapshot()), verdict)
    {
      var current := Hold(claimId, index);
      if current.None? { return ReturnedFalse; }
      var trial := current.value.(status := Queued);
      trial := trial.(startedAt := None);
      trial := trial.(claim := None);
      trial := trial.(solverStartedAt := None);
      trials := trials[index := trial];
      return Mutated;
    }

    /** startEvaluation's update: running, while every trial is still queued. */
    method StartRun(now: Time) returns (verdict: Verdict)
      modifies this
      ensures Did(Start, now, old(Snapshot()), verdict)
    {
      var i, some := 0, false;
      while i < |trials|
        invariant 0 <= i <= |trials|
        invariant some <==> exists k :: 0 <= k < i && !trials[k].status.Queued?
      {
        if !trials[i].status.Queued? { some := true; }
        i := i + 1;
      }
      if !(status.Queued? || status.Running?) || some { return Threw; }
      if status.Running? { return ReturnedFalse; }
      status := Running;
      return Mutated;
    }

    method FailOne(index: nat, reason: string, now: Time) returns (verdict: Verdict)
      modifies this
      ensures Did(Request.FailTrial(index, reason), now, old(Snapshot()), verdict)
    {
      if index >= |trials| || (!trials[index].status.Queued? && !trials[index].status.Running?) {
        return ReturnedFalse;
      }
      trials := trials[index := trials[index].(status := Failed, error := Some(reason), finishedAt := Some(now))];
      return Mutated;
    }

    /** The loop finishEvaluation, failEvaluation and markCancelled share: ends what has not ended. */
    method EndUnfinished(reason: string, finished: Option<Time>)
      modifies this`trials
      ensures trials == EndTrials(old(trials), reason, finished)
    {
      var i := 0;
      while i < |trials|
        invariant 0 <= i <= |trials| == |old(trials)|
        invariant forall k :: 0 <= k < i ==> trials[k] == EndTrial(old(trials)[k], reason, finished)
        invariant forall k :: i <= k < |trials| ==> trials[k] == old(trials)[k]
      {
        if trials[i].status.Queued? || trials[i].status.Running? {
          var trial := trials[i].(status := Failed, error := Some(reason));
          if finished.Some? { trial := trial.(finishedAt := finished); }
          trials := trials[i := trial];
        }
        i := i + 1;
      }
    }

    method FinishRun(now: Time) returns (verdict: Verdict)
      modifies this
      ensures Did(Finish, now, old(Snapshot()), verdict)
      ensures old(status).Running? ==>
                && finishedAt == Some(now)
                && status == if exists k :: 0 <= k < |trials| && trials[k].status.Failed? then Failed else Completed
    {
      if !status.Running? { return ReturnedFalse; }
      EndUnfinished(STOPPED, None);
      var i, failed := 0, false;
      while i < |trials|
        invariant 0 <= i <= |trials|
        invariant failed <==> exists k :: 0 <= k < i && trials[k].status.Failed?
      {
        if trials[i].status.Failed? { failed := true; }
        i := i + 1;
      }
      assert failed == AnyFailed(trials) == exists k :: 0 <= k < |trials| && trials[k].status.Failed?;
      status := if failed then Failed else Completed;
      finishedAt := Some(now);
      return Mutated;
    }

    method FailWhole(reason: string, now: Time) returns (verdict: Verdict)
      modifies this
      ensures Did(FailRun(reason), now, old(Snapshot()), verdict)
    {
      if status.Completed? || status.Failed? { return ReturnedFalse; }
      status, error, finishedAt := Failed, Some(reason), Some(now);
      EndUnfinished(INTERRUPTED, None);
      return Mutated;
    }

    method MarkCancelled(login: string, now: Time) returns (verdict: Verdict)
      modifies this
      ensures Did(Cancel(login), now, old(Snapshot()), verdict)
      ensures Snapshot() == Cancelled(old(Snapshot()), login, now)
    {
      if status.Completed? || status.Failed? { return ReturnedFalse; }
      status, error, finishedAt := Failed, Some("Cancelled by " + login + "."), Some(now);
      EndUnfinished(CANCELLED, Some(now));
      return Mutated;
    }

    method MarkDeleted(login: string, now: Time) returns (verdict: Verdict)
      modifies this
      ensures Did(Delete(login), now, old(Snapshot()), verdict)
    {
      if deletedAt.Some? { return ReturnedFalse; }
      var _ := MarkCancelled(login, now);
      deletedAt, deletedBy := Some(now), Some(login);
      return Mutated;
    }

    method AddExplanation(index: nat, summary: string, now: Time) returns (verdict: Verdict)
      modifies this
      ensures Did(Explain(index, summary), now, old(Snapshot()), verdict)
    {
      if index >= |trials| || !Explainable(trials[index]) { return ReturnedFalse; }
      trials := trials[index := trials[index].(failureSummary := Some(summary))];
      return Mutated;
    }
  }
}
