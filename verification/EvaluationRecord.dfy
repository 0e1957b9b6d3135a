/**
 * One evaluation's record and the changes the program makes to it: the closures passed to
 * updateEvaluation by claim.ts, lifecycle.ts, cancel.ts and failure-summary.ts.
 *
 * `Apply` says what each change does to a snapshot. Class `Record` is the object the closures
 * mutate in place; each of its methods is proved to do what `Apply` says.
 */
module EvaluationRecord {
  import opened Wrappers

  type ClaimId = string
  type Time = int

  datatype Status = Queued | Running | Completed | Failed

  /** What the solver leaves on a trial: its scores, log, transcript and artifact names. */
  datatype Output = Output(reward: Option<int>, log: string, steps: seq<string>, artifacts: seq<string>)

  const NO_OUTPUT := Output(None, "", [], [])

  datatype Trial = Trial(
    taskId: string,
    harness: string,
    status: Status,
    claim: Option<ClaimId>,
    startedAt: Option<Time>,
    solverStartedAt: Option<Time>,
    finishedAt: Option<Time>,
    error: Option<string>,
    output: Output,
    failureSummary: Option<string>)
  {
    predicate Ended() { status.Completed? || status.Failed? }
  }

  datatype Run = Run(
    id: string,
    revision: nat,
    createdAt: string,
    status: Status,
    trials: seq<Trial>,
    finishedAt: Option<Time>,
    error: Option<string>,
    deletedAt: Option<Time>,
    deletedBy: Option<string>)
  {
    predicate Ended() { status.Completed? || status.Failed? }
  }

  /** A trial as initialEvaluation creates it. */
  function FreshTrial(taskId: string, harness: string): Trial {
    Trial(taskId, harness, Queued, None, None, None, None, None, NO_OUTPUT, None)
  }

  /** The changes, each with what its closure captured; the clock is read when it is applied. */
  datatype Request =
    | Claim(id: ClaimId, index: nat)
    | Mark(id: ClaimId, index: nat, at: Time)
    | Save(id: ClaimId, index: nat, trial: Trial)
    | Requeue(id: ClaimId, index: nat)
    | Start
    | FailTrial(index: nat, reason: string)
    | Finish
    | FailRun(reason: string)
    | Cancel(login: string)
    | Delete(login: string)
    | Explain(index: nat, summary: string)

  /** A closure throws RepeatSpendError, returns false, or leaves the record changed. */
  datatype Outcome = Refused | Unchanged | Changed(run: Run)

  /** Whether attempt `id` holds trial `index`: the test `held` makes before every write. */
  predicate Held(run: Run, id: ClaimId, index: nat) {
    && run.status.Running?
    && index < |run.trials|
    && run.trials[index].status.Running?
    && run.trials[index].claim == Some(id)
  }

  predicate Abandoned(trial: Trial) {
    trial.status.Running? && trial.claim.Some? && trial.solverStartedAt.None?
  }

  predicate Unfinished(trial: Trial) {
    trial.status.Queued? || trial.status.Running?
  }

  function WithTrial(run: Run, index: nat, trial: Trial): Run
    requires index < |run.trials|
  {
    run.(trials := run.trials[index := trial])
  }

  /** `trial` failed if it had not ended; only a cancellation dates the end. */
  function EndTrial(trial: Trial, reason: string, finishedAt: Option<Time>): Trial {
    if Unfinished(trial) then
      trial.(status := Failed, error := Some(reason),
             finishedAt := if finishedAt.Some? then finishedAt else trial.finishedAt)
    else trial
  }

  function EndTrials(trials: seq<Trial>, reason: string, finishedAt: Option<Time>): (ended: seq<Trial>)
    ensures |ended| == |trials|
    ensures forall i :: 0 <= i < |trials| ==> ended[i] == EndTrial(trials[i], reason, finishedAt)
  {
    seq(|trials|, i requires 0 <= i < |trials| => EndTrial(trials[i], reason, finishedAt))
  }

  const INTERRUPTED := "Evaluation interrupted before this trial completed"
  const STOPPED := "Not completed because the evaluation stopped"
  const CANCELLED := "Cancelled before this trial completed"

  function Cancelled(run: Run, login: string, now: Time): Run {
    if run.Ended() then run
    else run.(status := Failed,
              error := Some("Cancelled by " + login + "."),
              finishedAt := Some(now),
              trials := EndTrials(run.trials, CANCELLED, Some(now)))
  }

  predicate AnyFailed(trials: seq<Trial>) {
    exists i :: 0 <= i < |trials| && trials[i].status.Failed?
  }

  predicate AllQueued(trials: seq<Trial>) {
    forall i :: 0 <= i < |trials| ==> trials[i].status.Queued?
  }

  /** Scored zero, and not explained so far. */
  predicate Explainable(trial: Trial) {
    trial.status.Completed? && trial.output.reward == Some(0) && trial.failureSummary.None?
  }

  function Apply(q: Request, now: Time, run: Run): Outcome {
    match q
    case Claim(id, i) =>
      if i < |run.trials| && run.status.Running? && (run.trials[i].status.Queued? || Abandoned(run.trials[i])) then
        Changed(WithTrial(run, i, run.trials[i].(status := Running, claim := Some(id), startedAt := Some(now))))
      else Refused
    case Mark(id, i, at) =>
      if Held(run, id, i) then Changed(WithTrial(run, i, run.trials[i].(solverStartedAt := Some(at))))
      else Refused
    case Save(id, i, trial) =>
      if Held(run, id, i) then Changed(WithTrial(run, i, trial)) else Unchanged
    case Requeue(id, i) =>
      if Held(run, id, i) then
        Changed(WithTrial(run, i,
          run.trials[i].(status := Queued, startedAt := None, claim := None, solverStartedAt := None)))
      else Unchanged
    case Start =>
      if run.Ended() || !AllQueued(run.trials) then Refused
      else if run.status.Running? then Unchanged
      else Changed(run.(status := Running))
    case FailTrial(i, reason) =>
      if i < |run.trials| && Unfinished(run.trials[i]) then
        Changed(WithTrial(run, i, EndTrial(run.trials[i], reason, Some(now))))
      else Unchanged
    case Finish =>
      if !run.status.Running? then Unchanged
      else
        var trials := EndTrials(run.trials, STOPPED, None);
        Changed(run.(trials := trials,
                     status := if AnyFailed(trials) then Failed else Completed,
                     finishedAt := Some(now)))
    case FailRun(reason) =>
      if run.Ended() then Unchanged
      else Changed(run.(status := Failed, error := Some(reason), finishedAt := Some(now),
                        trials := EndTrials(run.trials, INTERRUPTED, None)))
    case Cancel(login) =>
      if run.Ended() then Unchanged else Changed(Cancelled(run, login, now))
    case Delete(login) =>
      if run.deletedAt.Some? then Unchanged
      else Changed(Cancelled(run, login, now).(deletedAt := Some(now), deletedBy := Some(login)))
    case Explain(i, summary) =>
      if i < |run.trials| && Explainable(run.trials[i]) then
        Changed(WithTrial(run, i, run.trials[i].(failureSummary := Some(summary))))
      else Unchanged
  }

  /** The snapshot a change of `run` is saved as. */
  function Bumped(q: Request, now: Time, run: Run): Run
    requires Apply(q, now, run).Changed?
  {
    Apply(q, now, run).run.(revision := run.revision + 1)
  }

  /** `next` is one change applied to `run` and saved at the next revision. */
  ghost predicate Follows(run: Run, next: Run) {
    exists q, now :: Apply(q, now, run).Changed? && next == Bumped(q, now, run)
  }

  /** What a record never breaks: a requeued trial is as it was created, and a claim that has not
      marked its solver started has changed nothing but who holds the trial and since when. */
  predicate TrialOk(trial: Trial) {
    && (trial.status.Queued? ==> trial == FreshTrial(trial.taskId, trial.harness))
    && (trial.status.Running? ==> trial.claim.Some?)
    && (Abandoned(trial) ==> Untouched(trial))
  }

  /** A trial as created but for the marks of the attempt that holds it. */
  predicate Untouched(trial: Trial) {
    trial == FreshTrial(trial.taskId, trial.harness).(
      status := trial.status, claim := trial.claim, startedAt := trial.startedAt, solverStartedAt := trial.solverStartedAt)
  }

  /** How a run ended: completed with no error, failed with a failed trial or an error of its own;
      dated exactly when it ended, and deleted only after, by someone. */
  predicate OutcomeOk(run: Run) {
    && (run.finishedAt.Some? <==> run.Ended())
    && (run.error.Some? ==> run.status.Failed?)
    && (run.status.Failed? && run.error.None? ==> AnyFailed(run.trials))
    && (run.deletedAt.Some? <==> run.deletedBy.Some?)
    && (run.deletedAt.Some? ==> run.Ended())
  }

  /** An ended run holds only ended trials, a completed one only completed trials, and a run not
      yet started none that run. */
  predicate TrialsOk(run: Run) {
    && (forall i :: 0 <= i < |run.trials| ==> TrialOk(run.trials[i]))
    && (run.Ended() ==> forall i :: 0 <= i < |run.trials| ==> run.trials[i].Ended())
    && (run.status.Completed? ==> forall i :: 0 <= i < |run.trials| ==> run.trials[i].status.Completed?)
    && (run.status.Queued? ==> forall i :: 0 <= i < |run.trials| ==> !run.trials[i].status.Running?)
  }

  predicate RunOk(run: Run) {
    TrialsOk(run) && OutcomeOk(run)
  }

  /** What the attempts keep to: a save writes a trial its attempt holds, solving or ended, and
      only an attempt that has written nothing to its trial returns it to the queue. */
  predicate Proper(q: Request, run: Run) {
    && (q.Save? ==> q.trial.claim == Some(q.id) && (q.trial.Ended() || (q.trial.status.Running? && q.trial.solverStartedAt.Some?)))
    && (q.Requeue? && Held(run, q.id, q.index) ==> Untouched(run.trials[q.index]))
  }

  lemma ChangesKeepTrials(q: Request, now: Time, run: Run)
    requires TrialsOk(run) && Proper(q, run)
    requires Apply(q, now, run).Changed?
    ensures TrialsOk(Apply(q, now, run).run)
  {
  }

  lemma ChangesKeepOutcome(q: Request, now: Time, run: Run)
    requires OutcomeOk(run) && Apply(q, now, run).Changed?
    ensures OutcomeOk(Apply(q, now, run).run)
  {
    var next := Apply(q, now, run).run;
    if run.status.Failed? && run.error.None? {
      var i :| 0 <= i < |run.trials| && run.trials[i].status.Failed?;
      assert next.trials[i].status.Failed?;
    }
  }

  lemma ChangesKeepRecord(q: Request, now: Time, run: Run)
    requires RunOk(run) && Proper(q, run)
    requires Apply(q, now, run).Changed?
    ensures RunOk(Apply(q, now, run).run)
  {
    ChangesKeepTrials(q, now, run);
    ChangesKeepOutcome(q, now, run);
  }

  /** Once the run has ended, no claim or solver start is granted and nothing an attempt or the
      workflow writes late changes it; deleting it only marks it, and an explanation only adds. */
  lemma EndedRunIsFinal(q: Request, now: Time, run: Run)
    requires RunOk(run) && run.Ended()
    ensures q.Claim? || q.Mark? || q.Start? ==> Apply(q, now, run).Refused?
    ensures q.Save? || q.Requeue? || q.FailTrial? || q.Finish? || q.FailRun? || q.Cancel? ==> Apply(q, now, run).Unchanged?
    ensures q.Delete? ==> Apply(q, now, run) ==
                          if run.deletedAt.Some? then Unchanged
                          else Changed(run.(deletedAt := Some(now), deletedBy := Some(q.login)))
    ensures q.Explain? && Apply(q, now, run).Changed? ==>
              Apply(q, now, run).run == WithTrial(run, q.index, run.trials[q.index].(failureSummary := Some(q.summary)))
  {
    if q.FailTrial? && q.index < |run.trials| {
      assert run.trials[q.index].Ended();
    }
    if q.Start? {
      assert run.Ended();
    }
  }

  /** Two snapshots that differ at most in their revision and in when trial `index` was claimed. */
  predicate SameOutcome(a: Run, b: Run, q: Request) {
    if q.Claim? then
      && q.index < |a.trials| == |b.trials|
      && b.(revision := a.revision) == WithTrial(a, q.index, a.trials[q.index].(startedAt := b.trials[q.index].startedAt))
    else
      b.(revision := a.revision) == a
  }

  /**
   * A change whose write was saved but not acknowledged is applied again to its own result. It is
   * never refused, and leaves the record as its first application did: a claim only renews its
   * start time. `bumped` is the revision the first application was saved at.
   */
  lemma ReappliedChangeKeepsOutcome(q: Request, first: Time, again: Time, run: Run, bumped: nat)
    requires RunOk(run) && Proper(q, run)
    requires Apply(q, first, run).Changed?
    ensures var saved := Apply(q, first, run).run.(revision := bumped);
            var second := Apply(q, again, saved);
            || second.Unchanged?
            || (second.Changed? && SameOutcome(saved, second.run, q))
  {
    var saved := Apply(q, first, run).run.(revision := bumped);
    if q.Claim? {
      assert TrialOk(run.trials[q.index]);
      assert Abandoned(saved.trials[q.index]);
    }
  }
}
