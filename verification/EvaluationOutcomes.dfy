/**
 * What each change leaves of a record, told in the record's own fields: which runs and trials it
 * applies to, what it writes there, and that everything else is as it was.
 */
module EvaluationOutcomes {
  import opened Wrappers
  import opened EvaluationRecord

  /** A change of the run's trials, status, end, error or deletion keeps the rest. */
  predicate SameRecord(a: Run, b: Run) {
    a.id == b.id && a.revision == b.revision && a.createdAt == b.createdAt
  }

  predicate SameDeletion(a: Run, b: Run) {
    a.deletedAt == b.deletedAt && a.deletedBy == b.deletedBy
  }

  /** All that ending a trial keeps: what it is, who held it since when, and what its solver left. */
  predicate SameWork(a: Trial, b: Trial) {
    && a.taskId == b.taskId && a.harness == b.harness
    && a.claim == b.claim && a.startedAt == b.startedAt && a.solverStartedAt == b.solverStartedAt
    && a.output == b.output && a.failureSummary == b.failureSummary
  }

  /** A queued or running trial failed for `reason`, dated or not; an ended one as it was. */
  predicate StoppedTrial(a: Trial, b: Trial, reason: string, at: Option<Time>) {
    if a.status.Queued? || a.status.Running? then
      && b.status == Failed && b.error == Some(reason) && SameWork(a, b)
      && (if at.Some? then b.finishedAt == at else b.finishedAt == a.finishedAt)
    else b == a
  }

  predicate Stopped(a: Run, b: Run, reason: string, at: Option<Time>) {
    |a.trials| == |b.trials| && forall i :: 0 <= i < |a.trials| ==> StoppedTrial(a.trials[i], b.trials[i], reason, at)
  }

  /** Nothing but trial `index` differs. */
  predicate OnlyTrial(a: Run, b: Run, index: nat) {
    && SameRecord(a, b) && SameDeletion(a, b)
    && a.status == b.status && a.finishedAt == b.finishedAt && a.error == b.error
    && index < |a.trials| == |b.trials|
    && forall i :: 0 <= i < |a.trials| && i != index ==> b.trials[i] == a.trials[i]
  }

  // ---- The outcome of a run ----

  /** A run that finishes is completed exactly when every one of its trials was, and failed otherwise. */
  lemma FinishRecordsOutcome(run: Run, now: Time)
    requires run.status.Running?
    ensures Apply(Finish, now, run).Changed?
    ensures var next := Apply(Finish, now, run).run;
            && (next.status == Completed <==> forall i :: 0 <= i < |run.trials| ==> run.trials[i].status == Completed)
            && (next.status != Completed ==> next.status == Failed)
            && next.finishedAt == Some(now) && next.error == run.error
            && SameRecord(run, next) && SameDeletion(run, next)
            && Stopped(run, next, "Not completed because the evaluation stopped", None)
  {
  }

  /** Failing a run or cancelling it ends it for a reason of its own, unless it has ended. */
  lemma StoppingFailsTheRun(run: Run, now: Time, text: string)
    ensures Apply(FailRun(text), now, run).Changed? <==> run.status == Queued || run.status == Running
    ensures Apply(Cancel(text), now, run).Changed? <==> run.status == Queued || run.status == Running
    ensures Apply(FailRun(text), now, run).Changed? ==>
              var next := Apply(FailRun(text), now, run).run;
              && next.status == Failed && next.error == Some(text) && next.finishedAt == Some(now)
              && SameRecord(run, next) && SameDeletion(run, next)
              && Stopped(run, next, "Evaluation interrupted before this trial completed", None)
    ensures Apply(Cancel(text), now, run).Changed? ==>
              var next := Apply(Cancel(text), now, run).run;
              && next.status == Failed && next.error == Some("Cancelled by " + text + ".") && next.finishedAt == Some(now)
              && SameRecord(run, next) && SameDeletion(run, next)
              && Stopped(run, next, "Cancelled before this trial completed", Some(now))
  {
  }

  /** A deletion is dated and signed once; the record it leaves is otherwise as cancelling leaves it. */
  lemma DeletionCancelsFirst(run: Run, now: Time, login: string)
    ensures Apply(Delete(login), now, run).Changed? <==> run.deletedAt.None?
    ensures run.deletedAt.None? ==>
              var next := Apply(Delete(login), now, run).run;
              && next.deletedAt == Some(now) && next.deletedBy == Some(login)
              && (if run.status == Completed || run.status == Failed then
                    next.(deletedAt := run.deletedAt, deletedBy := run.deletedBy) == run
                  else
                    Apply(Cancel(login), now, run) == Changed(next.(deletedAt := run.deletedAt, deletedBy := run.deletedBy)))
  {
  }

  /** A run starts from the queue with all its trials queued; one already running is left so. */
  lemma StartingOnlyStarts(run: Run, now: Time)
    ensures Apply(Start, now, run).Changed? <==> run.status == Queued && forall i :: 0 <= i < |run.trials| ==> run.trials[i].status == Queued
    ensures Apply(Start, now, run).Unchanged? <==> run.status == Running && forall i :: 0 <= i < |run.trials| ==> run.trials[i].status == Queued
    ensures Apply(Start, now, run).Changed? ==>
              var next := Apply(Start, now, run).run;
              && next.status == Running && next.trials == run.trials && next.finishedAt == run.finishedAt && next.error == run.error
              && SameRecord(run, next) && SameDeletion(run, next)
  {
  }

  // ---- One trial ----

  /** A claim is granted exactly on a running run's trial that is queued, or whose holder has not marked its solver. */
  lemma ClaimTakesTheTrial(run: Run, now: Time, id: ClaimId, index: nat)
    ensures Apply(Claim(id, index), now, run).Changed? <==>
              && run.status == Running && index < |run.trials|
              && (|| run.trials[index].status == Queued
                  || (run.trials[index].status == Running && run.trials[index].claim.Some? && run.trials[index].solverStartedAt == None))
    ensures !Apply(Claim(id, index), now, run).Unchanged?
    ensures Apply(Claim(id, index), now, run).Changed? ==>
              var next := Apply(Claim(id, index), now, run).run;
              && OnlyTrial(run, next, index)
              && var a, b := run.trials[index], next.trials[index];
              && b.status == Running && b.claim == Some(id) && b.startedAt == Some(now)
              && b.(status := a.status, claim := a.claim, startedAt := a.startedAt) == a
  {
  }

  /** While attempt `id` holds the trial; each of its writes says what it leaves. */
  predicate Holds(run: Run, id: ClaimId, index: nat) {
    run.status == Running && index < |run.trials| && run.trials[index].status == Running && run.trials[index].claim == Some(id)
  }

  lemma HolderWrites(run: Run, now: Time, id: ClaimId, index: nat, at: Time, trial: Trial)
    ensures Apply(Mark(id, index, at), now, run).Changed? <==> Holds(run, id, index)
    ensures Apply(Save(id, index, trial), now, run).Changed? <==> Holds(run, id, index)
    ensures Apply(Requeue(id, index), now, run).Changed? <==> Holds(run, id, index)
    ensures !Holds(run, id, index) ==>
              && Apply(Mark(id, index, at), now, run).Refused?
              && Apply(Save(id, index, trial), now, run).Unchanged?
              && Apply(Requeue(id, index), now, run).Unchanged?
    ensures Holds(run, id, index) ==>
              var marked, saved, requeued := Apply(Mark(id, index, at), now, run).run, Apply(Save(id, index, trial), now, run).run,
                                             Apply(Requeue(id, index), now, run).run;
              var a, b := run.trials[index], requeued.trials[index];
              && OnlyTrial(run, marked, index) && OnlyTrial(run, saved, index) && OnlyTrial(run, requeued, index)
              && marked.trials[index].solverStartedAt == Some(at)
              && marked.trials[index].(solverStartedAt := a.solverStartedAt) == a
              && saved.trials[index] == trial
              && b.status == Queued && b.claim == None && b.startedAt == None && b.solverStartedAt == None
              && b.(status := a.status, claim := a.claim, startedAt := a.startedAt, solverStartedAt := a.solverStartedAt) == a
  {
  }

  /** Failing a trial ends it, dated, unless it has ended; an explanation is added to a trial scored zero, once. */
  lemma TrialFailedOrExplained(run: Run, now: Time, index: nat, text: string)
    ensures Apply(Request.FailTrial(index, text), now, run).Changed? <==>
              index < |run.trials| && (run.trials[index].status == Queued || run.trials[index].status == Running)
    ensures Apply(Request.FailTrial(index, text), now, run).Changed? ==>
              var next := Apply(Request.FailTrial(index, text), now, run).run;
              OnlyTrial(run, next, index) && StoppedTrial(run.trials[index], next.trials[index], text, Some(now))
    ensures Apply(Explain(index, text), now, run).Changed? <==>
              && index < |run.trials| && run.trials[index].status == Completed
              && run.trials[index].output.reward == Some(0) && run.trials[index].failureSummary == None
    ensures Apply(Explain(index, text), now, run).Changed? ==>
              var next := Apply(Explain(index, text), now, run).run;
              && OnlyTrial(run, next, index) && next.trials[index].failureSummary == Some(text)
              && next.trials[index].(failureSummary := None) == run.trials[index]
  {
  }
}
