/**
 * A change saved without being acknowledged and applied again (updateEvaluation,
 * src/evaluation/store.ts) after others have saved theirs.
 */
module EvaluationReapplied {
  import opened Wrappers
  import opened EvaluationRecord

  /** Someone's change, and when it is applied. */
  datatype Change = Change(request: Request, now: Time)

  /** The attempt a change is made by; the workflow's and people's changes are no attempt's. */
  function AttemptOf(q: Request): Option<ClaimId> {
    match q
    case Claim(id, _) => Some(id)
    case Mark(id, _, _) => Some(id)
    case Save(id, _, _) => Some(id)
    case Requeue(id, _) => Some(id)
    case _ => None
  }

  /** The newest snapshot once `changes` have been saved in turn; one refused or empty saves nothing. */
  function After(run: Run, changes: seq<Change>): Run {
    if changes == [] then run
    else
      var before := After(run, changes[..|changes| - 1]);
      var last := changes[|changes| - 1];
      if Apply(last.request, last.now, before).Changed? then Bumped(last.request, last.now, before) else before
  }

  /** Each change keeps to what its maker may do, and none is made by the attempt of `q`. */
  ghost predicate Others(q: Request, run: Run, changes: seq<Change>) {
    forall i :: 0 <= i < |changes| ==>
      && Proper(changes[i].request, After(run, changes[..i]))
      && (AttemptOf(q).Some? ==> AttemptOf(changes[i].request) != AttemptOf(q))
  }

  // ---- What a saved change leaves, whatever others save after it ----

  /** The trial is as `saved` has it, or it has ended. */
  predicate KeptOrEnded(saved: Run, later: Run, index: nat)
    requires |later.trials| == |saved.trials|
  {
    index < |later.trials| && (later.trials[index].Ended() || later.trials[index] == saved.trials[index])
  }

  /** What stands of `q`, saved in `saved`, when `later` is the newest snapshot. */
  predicate Stands(q: Request, saved: Run, later: Run) {
    && |later.trials| == |saved.trials|
    && match q
       case Claim(_, i) => i < |later.trials|
       case Mark(id, i, at) =>
         KeptOrEnded(saved, later, i) && saved.trials[i].claim == Some(id) && saved.trials[i].solverStartedAt == Some(at)
       case Save(_, i, trial) => KeptOrEnded(saved, later, i) && saved.trials[i] == trial
       case Requeue(id, i) => i < |later.trials| && later.trials[i].claim != Some(id)
       case Start => !later.status.Queued?
       case FailTrial(i, _) => i < |later.trials| && later.trials[i].Ended()
       case Finish => later.Ended()
       case FailRun(_) => later.Ended()
       case Cancel(_) => later.Ended()
       case Delete(_) => later.deletedAt.Some?
       case Explain(i, _) => i < |later.trials| && later.trials[i].Ended() && later.trials[i].failureSummary.Some?
  }

  /** Attempt `id` holds the trial past its mark, or it has ended. */
  predicate MarkedOrEnded(id: ClaimId, trial: Trial) {
    trial.Ended() || (trial.status.Running? && trial.claim == Some(id) && trial.solverStartedAt.Some?)
  }

  lemma SavedStands(q: Request, now: Time, run: Run)
    requires RunOk(run) && Proper(q, run) && Apply(q, now, run).Changed?
    ensures var saved := Bumped(q, now, run);
            && RunOk(saved) && Stands(q, saved, saved)
            && (q.Mark? || q.Save? ==> MarkedOrEnded(q.id, saved.trials[q.index]))
  {
    ChangesKeepRecord(q, now, run);
  }

  /** A marked trial in hand of `id` is another's to end, not to take over or write. */
  lemma MarkedKept(id: ClaimId, index: nat, other: Request, now: Time, run: Run)
    requires RunOk(run) && Proper(other, run) && Apply(other, now, run).Changed? && AttemptOf(other) != Some(id)
    requires index < |run.trials| && MarkedOrEnded(id, run.trials[index])
    ensures var next := Bumped(other, now, run);
            && |next.trials| == |run.trials|
            && (next.trials[index].Ended() || next.trials[index] == run.trials[index])
  {
  }

  lemma EndedKept(index: nat, other: Request, now: Time, run: Run)
    requires Apply(other, now, run).Changed? && index < |run.trials| && run.trials[index].Ended()
    ensures var next := Bumped(other, now, run);
            && |next.trials| == |run.trials|
            && next.trials[index].Ended()
            && (run.trials[index].failureSummary.Some? ==> next.trials[index].failureSummary.Some?)
  {
  }

  lemma ClaimStaysAway(id: ClaimId, index: nat, other: Request, now: Time, run: Run)
    requires Proper(other, run) && Apply(other, now, run).Changed? && AttemptOf(other) != Some(id)
    requires index < |run.trials| && run.trials[index].claim != Some(id)
    ensures var next := Bumped(other, now, run);
            |next.trials| == |run.trials| && next.trials[index].claim != Some(id)
  {
  }

  /** Runs never return to the queue, ended ones never run again, deleted ones are never restored. */
  lemma RunOnlyAdvances(other: Request, now: Time, run: Run)
    requires Apply(other, now, run).Changed?
    ensures var next := Bumped(other, now, run);
            && |next.trials| == |run.trials|
            && (!run.status.Queued? ==> !next.status.Queued?)
            && (run.Ended() ==> next.Ended())
            && (run.deletedAt.Some? ==> next.deletedAt.Some?)
  {
  }

  lemma StandsStill(q: Request, saved: Run, later: Run, other: Request, now: Time)
    requires RunOk(later) && Stands(q, saved, later)
    requires Proper(other, later) && Apply(other, now, later).Changed?
    requires AttemptOf(q).Some? ==> AttemptOf(other) != AttemptOf(q)
    requires q.Mark? || q.Save? ==> MarkedOrEnded(q.id, saved.trials[q.index])
    ensures Stands(q, saved, Bumped(other, now, later))
  {
    RunOnlyAdvances(other, now, later);
    match q
    case Mark(id, i, _) => MarkedKept(id, i, other, now, later);
    case Save(id, i, _) => MarkedKept(id, i, other, now, later);
    case Requeue(id, i) => ClaimStaysAway(id, i, other, now, later);
    case FailTrial(i, _) => EndedKept(i, other, now, later);
    case Explain(i, _) => EndedKept(i, other, now, later);
    case _ =>
  }

  lemma {:induction false} StandsAmongOthers(q: Request, first: Time, run: Run, changes: seq<Change>)
    requires RunOk(run) && Proper(q, run) && Apply(q, first, run).Changed?
    requires Others(q, Bumped(q, first, run), changes)
    ensures var saved := Bumped(q, first, run);
            RunOk(After(saved, changes)) && Stands(q, saved, After(saved, changes))
  {
    var saved := Bumped(q, first, run);
    SavedStands(q, first, run);
    if changes != [] {
      var n := |changes| - 1;
      var before, last := After(saved, changes[..n]), changes[n];
      assert forall i :: 0 <= i < n ==> changes[..n][..i] == changes[..i];
      StandsAmongOthers(q, first, run, changes[..n]);
      if Apply(last.request, last.now, before).Changed? {
        ChangesKeepRecord(last.request, last.now, before);
        StandsStill(q, saved, before, last.request, last.now);
      }
    }
  }

  // ---- Applied again ----

  /** A claim on a trial that is in the queue or whose holder has not marked its solver. */
  predicate Claimable(run: Run, index: nat) {
    && run.status.Running? && index < |run.trials|
    && (run.trials[index].status.Queued? || Abandoned(run.trials[index]))
    && run.trials[index].solverStartedAt.None?
  }

  lemma StandingReapplied(q: Request, saved: Run, later: Run, again: Time)
    requires RunOk(later) && Stands(q, saved, later)
    ensures var second := Apply(q, again, later);
            && (second.Refused? ==> q.Claim? || q.Mark? || q.Start?)
            && (second.Changed? ==> if q.Claim? then Claimable(later, q.index) else second.run == later)
  {
    var second := Apply(q, again, later);
    if q.Claim? && second.Changed? {
      assert TrialOk(later.trials[q.index]);
    }
    if (q.Mark? || q.Save?) && second.Changed? {
      assert later.trials[q.index] == saved.trials[q.index];
      assert second.run.trials == later.trials;
    }
  }

  /**
   * A change saved but not acknowledged and applied again, after any others have saved any changes
   * of theirs: what it did still stands, or its trial has ended. A claim is made again only where it
   * may be, on a trial no solver was started for. Nothing else changes anything: it is refused, as
   * only a claim, a mark or a start can be, or leaves the record as the others left it.
   */
  lemma ReappliedAmongOthers(q: Request, first: Time, run: Run, changes: seq<Change>, again: Time)
    requires RunOk(run) && Proper(q, run) && Apply(q, first, run).Changed?
    requires Others(q, Bumped(q, first, run), changes)
    ensures var saved := Bumped(q, first, run);
            var later := After(saved, changes);
            var second := Apply(q, again, later);
            && Stands(q, saved, later)
            && (second.Refused? ==> q.Claim? || q.Mark? || q.Start?)
            && (second.Changed? ==> if q.Claim? then Claimable(later, q.index) else second.run == later)
  {
    StandsAmongOthers(q, first, run, changes);
    StandingReapplied(q, Bumped(q, first, run), After(Bumped(q, first, run), changes), again);
  }
}
