/**
 * What the evaluation protocol guarantees over every run: every interleaving of attempts, other
 * actors, crashes and writes that land late, twice reported or never.
 */
module EvaluationGuarantees {
  import opened Wrappers
  import opened EvaluationRecord
  import opened EvaluationProtocol
  import opened EvaluationSafety
  import opened Induction

  /** The step from `s` to `t` is the one on which attempt `id` starts its solver. */
  predicate StartsSolver(s: State, t: State, id: ClaimId, index: nat) {
    && id in t.attempts && t.attempts[id].solving && t.attempts[id].index == index
    && !(id in s.attempts && s.attempts[id].solving)
  }

  lemma OneSolverPerState(s: State, a: ClaimId, b: ClaimId)
    requires MarksStay(s) && SolversMarked(s)
    requires a in s.attempts && b in s.attempts && s.attempts[a].index == s.attempts[b].index
    requires s.attempts[a].solving && s.attempts[b].solving
    ensures a == b
  {
    var index := s.attempts[a].index;
    assert HasMark(s, a, index) && HasMark(s, b, index);
    var ka :| ka in s.snapshots && MarkedBy(s.snapshots[ka], a, index);
    var kb :| kb in s.snapshots && MarkedBy(s.snapshots[kb], b, index);
    if ka <= kb {
      assert Settled(s.snapshots[kb], a, index);
    } else {
      assert Settled(s.snapshots[ka], b, index);
    }
  }

  /** What never comes back of an attempt, nor its copy of the trial. */
  predicate GoesOn(a: Attempt, b: Attempt) {
    Evolves(a, b) && (a.trial.Some? ==> b.trial.Some?)
  }

  lemma CallEvolves(id: ClaimId, a: Attempt, result: OpResult, now: Time, b: Attempt)
    requires a.op.Some? && AfterOp(id, a, result, now, b)
    ensures GoesOn(a, b)
  {
  }

  lemma WorkEvolves(id: ClaimId, a: Attempt, now: Time, b: Attempt)
    requires Works(id, a, now, b)
    ensures GoesOn(a, b)
  {
  }

  /** What a step leaves of an attempt: its index, its solving flag, its lost chance to solve. */
  lemma AttemptEvolves(s: State, t: State, step: Step, id: ClaimId)
    requires NextStep(s, t, step) && id in s.attempts
    ensures id in t.attempts && GoesOn(s.attempts[id], t.attempts[id])
  {
    match step
    case OpMoves(mover, result, now) =>
      if mover == id {
        CallEvolves(id, s.attempts[id], result, now, t.attempts[id]);
      }
    case Working(worker, now) =>
      if worker == id {
        WorkEvolves(id, s.attempts[id], now, t.attempts[id]);
      }
    case _ =>
  }

  lemma StepEvolves(states: seq<State>, i: nat, id: ClaimId)
    requires IsRun(states) && i + 1 < |states| && id in states[i].attempts
    ensures id in states[i + 1].attempts && GoesOn(states[i].attempts[id], states[i + 1].attempts[id])
  {
    var step := StepOf(states, i);
    AttemptEvolves(states[i], states[i + 1], step, id);
  }

  lemma {:induction false} AttemptEvolvesOver(states: seq<State>, i: nat, j: nat, id: ClaimId)
    requires IsRun(states) && i <= j < |states| && id in states[i].attempts
    ensures id in states[j].attempts && GoesOn(states[i].attempts[id], states[j].attempts[id])
    decreases j - i
  {
    if i < j {
      AttemptEvolvesOver(states, i, j - 1, id);
      StepEvolves(states, j - 1, id);
    }
  }

  lemma OneSolverPerTrial(states: seq<State>, i: nat, j: nat, a: ClaimId, b: ClaimId)
    requires IsRun(states) && i < |states| && j < |states|
    requires a in states[i].attempts && states[i].attempts[a].solving
    requires b in states[j].attempts && states[j].attempts[b].solving
    requires states[i].attempts[a].index == states[j].attempts[b].index
    ensures a == b
  {
    var last := |states| - 1;
    AttemptEvolvesOver(states, i, last, a);
    AttemptEvolvesOver(states, j, last, b);
    InvHolds(states, last);
    OneSolverPerState(states[last], a, b);
  }

  /** In every run a trial's solver starts at most once: on one step, for one attempt. */
  lemma SolverStartsAtMostOnce(states: seq<State>, i: nat, j: nat, a: ClaimId, b: ClaimId, index: nat)
    requires IsRun(states) && i + 1 < |states| && j + 1 < |states|
    requires StartsSolver(states[i], states[i + 1], a, index)
    requires StartsSolver(states[j], states[j + 1], b, index)
    ensures i == j && a == b
  {
    OneSolverPerTrial(states, i + 1, j + 1, a, b);
    if i < j {
      AttemptEvolvesOver(states, i + 1, j, a);
    } else if j < i {
      AttemptEvolvesOver(states, j + 1, i, a);
    }
  }

  /** Once an attempt has started its solver, the newest snapshot shows the trial running under its
      claim with the solver marked started, or ended; in every later state too. */
  lemma StartedSolverStaysOnRecord(states: seq<State>, i: nat, j: nat, id: ClaimId)
    requires IsRun(states) && i <= j < |states|
    requires id in states[i].attempts && states[i].attempts[id].solving
    ensures Dense(states[j].snapshots) && |states[j].snapshots| > 0
    ensures Settled(Latest(states[j].snapshots), id, states[i].attempts[id].index)
  {
    InvHolds(states, j);
    AttemptEvolvesOver(states, i, j, id);
    var s := states[j];
    var index := s.attempts[id].index;
    assert HasMark(s, id, index);
    var k :| k in s.snapshots && MarkedBy(s.snapshots[k], id, index);
    assert |s.snapshots| in s.snapshots;
    assert Settled(s.snapshots[|s.snapshots|], id, index);
  }

  /** The snapshots form one line of changes: revisions run from 1 without a gap, the first is the
      evaluation as created (or cancelled before it began), and each next one is exactly one change
      applied to the one before. Every one of them is a sound record of the same evaluation. */
  lemma SnapshotsFormOneHistory(states: seq<State>, i: nat)
    requires IsRun(states) && i < |states|
    ensures var m := states[i].snapshots;
            && (forall k: nat :: k in m <==> 1 <= k <= |m|)
            && (1 in m ==> FirstSnapshot(states[i].initial, m[1]))
            && (forall k :: k in m && k + 1 in m ==> Follows(m[k], m[k + 1]))
            && (forall k :: k in m ==> m[k].revision == k && RunOk(m[k]) && SameRun(states[i].initial, m[k]))
  {
    InvHolds(states, i);
  }

  /** How the evaluation ended, on every snapshot that says it has: completed with every trial completed
      and no error; failed with a failed trial, or for an error of its own. It is dated exactly when it
      has ended, and deleted only after that, by someone. */
  lemma OutcomesAreRight(states: seq<State>, i: nat, k: nat)
    requires IsRun(states) && i < |states| && k in states[i].snapshots
    ensures var run := states[i].snapshots[k];
            && (run.status == Completed ==> run.error == None && forall j :: 0 <= j < |run.trials| ==> run.trials[j].status == Completed)
            && (run.status == Failed ==>
                  && (run.error != None || exists j :: 0 <= j < |run.trials| && run.trials[j].status == Failed)
                  && forall j :: 0 <= j < |run.trials| ==> run.trials[j].status == Completed || run.trials[j].status == Failed)
            && (run.finishedAt != None <==> run.status == Completed || run.status == Failed)
            && (run.deletedAt != None ==> run.deletedBy != None && run.finishedAt != None)
  {
    SnapshotsFormOneHistory(states, i);
    assert RunOk(states[i].snapshots[k]);
  }

  /** No snapshot is ever replaced or lost: what was acknowledged stays read. */
  lemma {:induction false} SnapshotsNeverChange(states: seq<State>, i: nat, j: nat, k: nat)
    requires IsRun(states) && i <= j < |states| && k in states[i].snapshots
    ensures k in states[j].snapshots && states[j].snapshots[k] == states[i].snapshots[k]
    decreases j - i
  {
    if i < j {
      SnapshotsNeverChange(states, i, j - 1, k);
      var step := StepOf(states, j - 1);
    }
  }

  /** A trial that has ended keeps its outcome and output; it can only gain an explanation. */
  predicate KeepsOutcome(before: Trial, after: Trial) {
    after.(failureSummary := before.failureSummary) == before
    && (before.failureSummary.Some? ==> after == before)
  }

  /** A change about an ended trial can only explain its failure. */
  lemma EndedTakesOnlyExplanation(q: Request, now: Time, run: Run, index: nat)
    requires Apply(q, now, run).Changed? && Concerns(q, index) && index < |run.trials| && run.trials[index].Ended()
    ensures q.Explain? && run.trials[index].failureSummary.None?
    ensures Apply(q, now, run).run.trials == run.trials[index := run.trials[index].(failureSummary := Some(q.summary))]
  {
  }

  lemma EndedTrialKept(run: Run, next: Run, index: nat)
    requires Follows(run, next) && index < |run.trials| && run.trials[index].Ended()
    ensures index < |next.trials| && KeepsOutcome(run.trials[index], next.trials[index])
  {
    var q, now :| Apply(q, now, run).Changed? && next == Bumped(q, now, run);
    TrialsChangeAlone(q, now, run, index);
    if Concerns(q, index) {
      EndedTakesOnlyExplanation(q, now, run, index);
    }
  }

  lemma KeptTwice(before: Trial, middle: Trial, after: Trial)
    requires before.Ended() && KeepsOutcome(before, middle) && KeepsOutcome(middle, after)
    ensures KeepsOutcome(before, after)
  {
  }

  lemma EndedTrialKeptAlong(m: map<nat, Run>, k: nat, l: nat, index: nat)
    requires forall r :: k <= r <= l ==> r in m
    requires forall r :: k <= r < l ==> Follows(m[r], m[r + 1])
    requires k <= l && index < |m[k].trials| && m[k].trials[index].Ended()
    ensures index < |m[l].trials| && KeepsOutcome(m[k].trials[index], m[l].trials[index])
  {
    var ended := m[k].trials[index];
    var holds := (r: nat) => r in m && index < |m[r].trials| && KeepsOutcome(ended, m[r].trials[index]);
    forall r: nat | k <= r < l && holds(r)
      ensures holds(r + 1)
    {
      EndedTrialKept(m[r], m[r + 1], index);
      KeptTwice(ended, m[r].trials[index], m[r + 1].trials[index]);
    }
    UpTo(holds, k, l);
  }

  /** Whatever follows, an ended trial is never queued or run again, and its result never replaced. */
  lemma EndedTrialsAreFinal(states: seq<State>, i: nat, k: nat, l: nat, index: nat)
    requires IsRun(states) && i < |states|
    requires k in states[i].snapshots && l in states[i].snapshots && k <= l
    requires index < |states[i].snapshots[k].trials| && states[i].snapshots[k].trials[index].Ended()
    ensures index < |states[i].snapshots[l].trials|
    ensures KeepsOutcome(states[i].snapshots[k].trials[index], states[i].snapshots[l].trials[index])
  {
    SnapshotsFormOneHistory(states, i);
    EndedTrialKeptAlong(states[i].snapshots, k, l, index);
  }

  /** The changes that concern one trial only. */
  predicate Concerns(q: Request, index: nat) {
    match q
    case Claim(_, i) => i == index
    case Mark(_, i, _) => i == index
    case Save(_, i, _) => i == index
    case Requeue(_, i) => i == index
    case FailTrial(i, _) => i == index
    case Explain(i, _) => i == index
    case _ => false
  }

  predicate EndsRun(q: Request) {
    q.Finish? || q.FailRun? || q.Cancel? || q.Delete?
  }

  /** A trial changes only by a change about it, or by ending unfinished when its run ends; then
      only its status, error and end time change. Trials that run beside each other keep each
      other's saves. A held trial is changed only by its holder, by a failure or an end of the run,
      or, before its solver is marked started, by an attempt that takes it over. */
  lemma TrialsChangeAlone(q: Request, now: Time, run: Run, index: nat)
    requires Apply(q, now, run).Changed? && index < |run.trials|
    ensures var next := Apply(q, now, run).run;
            && |next.trials| == |run.trials|
            && (next.trials[index] != run.trials[index] ==>
                  || Concerns(q, index)
                  || (&& EndsRun(q) && Unfinished(run.trials[index])
                      && next.trials[index] == run.trials[index].(
                           status := Failed, error := next.trials[index].error, finishedAt := next.trials[index].finishedAt)))
            && (forall id :: Held(run, id, index) && next.trials[index] != run.trials[index] ==>
                  || q.FailTrial? || EndsRun(q)
                  || (q.Claim? && run.trials[index].solverStartedAt.None?)
                  || ((q.Mark? || q.Save? || q.Requeue?) && q.id == id))
  {
  }

  /** A claim lost is lost for good: once the newest snapshot no longer gives an attempt its trial,
      none ever does again, and every later save or requeue of that attempt changes nothing. */
  lemma {:induction false} LostClaimNeverReturns(states: seq<State>, i: nat, j: nat, id: ClaimId, now: Time, trial: Trial)
    requires IsRun(states) && i <= j < |states|
    requires id in states[i].attempts && states[i].attempts[id].trial.Some?
    requires Dense(states[i].snapshots) && |states[i].snapshots| > 0
    requires !Held(Latest(states[i].snapshots), id, states[i].attempts[id].index)
    ensures Dense(states[j].snapshots) && |states[j].snapshots| > 0
    ensures var latest, index := Latest(states[j].snapshots), states[i].attempts[id].index;
            && !Held(latest, id, index)
            && Apply(Save(id, index, trial), now, latest).Unchanged?
            && Apply(Requeue(id, index), now, latest).Unchanged?
    decreases j - i
  {
    if i < j {
      LostClaimNeverReturns(states, i, j - 1, id, now, trial);
      AttemptEvolvesOver(states, i, j - 1, id);
      StepStaysLost(states, j - 1, id);
    }
  }

  lemma StepStaysLost(states: seq<State>, i: nat, id: ClaimId)
    requires IsRun(states) && i + 1 < |states|
    requires id in states[i].attempts && states[i].attempts[id].trial.Some?
    requires Dense(states[i].snapshots) && |states[i].snapshots| > 0
    requires !Held(Latest(states[i].snapshots), id, states[i].attempts[id].index)
    ensures Dense(states[i + 1].snapshots) && |states[i + 1].snapshots| > 0
    ensures !Held(Latest(states[i + 1].snapshots), id, states[i].attempts[id].index)
  {
    InvHolds(states, i);
    var step := StepOf(states, i);
    if step.Arrives? {
      var put := step.put;
      ArrivesNext(states[i], states[i + 1], put);
      StaysLost(states[i], put, id);
    }
  }

  lemma StaysLost(s: State, put: Put, id: ClaimId)
    requires Inv(s) && put in s.sent && put.run.revision == |s.snapshots| + 1 && |s.snapshots| > 0
    requires id in s.attempts && s.attempts[id].trial.Some?
    requires !Held(Latest(s.snapshots), id, s.attempts[id].index)
    ensures !Held(put.run, id, s.attempts[id].index)
  {
    var index := s.attempts[id].index;
    assert put.change == Claim(id, index) ==> Awaited(|s.snapshots|, s.attempts[id], put);
    assert Fits(s, put);
    OnlyClaimGainsHold(put.change, put.now, Latest(s.snapshots), id, index);
  }

  /** A mark that is saved is cleared only by its own attempt returning the trial to the queue, and
      only when that attempt has not started its solver; in every later state it still has not. */
  lemma MarkClearedOnlyByNonSolver(states: seq<State>, i: nat, j: nat, id: ClaimId, index: nat)
    requires IsRun(states) && i + 1 <= j < |states|
    requires Dense(states[i].snapshots) && |states[i].snapshots| > 0
    requires Dense(states[i + 1].snapshots) && |states[i + 1].snapshots| > 0
    requires MarkedBy(Latest(states[i].snapshots), id, index)
    requires !Settled(Latest(states[i + 1].snapshots), id, index)
    ensures exists put ::
              && put in states[i].sent && put.change == Requeue(id, index)
              && states[i + 1].snapshots == states[i].snapshots[put.run.revision := put.run]
    ensures id in states[j].attempts && states[j].attempts[id].index == index && !states[j].attempts[id].solving
  {
    var put := ClearingStep(states, i, id, index);
    AttemptEvolvesOver(states, i, j, id);
  }

  lemma ClearingStep(states: seq<State>, i: nat, id: ClaimId, index: nat) returns (put: Put)
    requires IsRun(states) && i + 1 < |states|
    requires Dense(states[i].snapshots) && |states[i].snapshots| > 0
    requires Dense(states[i + 1].snapshots) && |states[i + 1].snapshots| > 0
    requires MarkedBy(Latest(states[i].snapshots), id, index)
    requires !Settled(Latest(states[i + 1].snapshots), id, index)
    ensures put in states[i].sent && put.change == Requeue(id, index)
    ensures states[i + 1].snapshots == states[i].snapshots[put.run.revision := put.run]
    ensures Known(states[i], id, index) && states[i].attempts[id].NeverSolves()
  {
    InvHolds(states, i);
    var step := StepOf(states, i);
    put := step.put;
    ArrivesNext(states[i], states[i + 1], put);
    ClearingWrite(states[i], put, id, index);
  }

  lemma ClearingWrite(s: State, put: Put, id: ClaimId, index: nat)
    requires Inv(s) && put in s.sent && put.run.revision == |s.snapshots| + 1 && |s.snapshots| > 0
    requires MarkedBy(Latest(s.snapshots), id, index) && !Settled(put.run, id, index)
    ensures put.change == Requeue(id, index)
    ensures Known(s, id, index) && s.attempts[id].NeverSolves()
  {
    assert Fits(s, put) && Legit(s, put.change);
    if put.change != Requeue(id, index) {
      MarkKept(put.change, put.now, Latest(s.snapshots), id, index);
    }
  }
}
