/**
 * What holds in every state the processes of EvaluationProtocol can reach: the invariant, and the
 * proof that each step keeps it.
 */
module EvaluationSafety {
  import opened Wrappers
  import opened EvaluationRecord
  import opened EvaluationProtocol

  /** Attempt `id` runs trial `index` with its solver started. */
  predicate MarkedBy(run: Run, id: ClaimId, index: nat) {
    && index < |run.trials|
    && run.trials[index].status.Running?
    && run.trials[index].claim == Some(id)
    && run.trials[index].solverStartedAt.Some?
  }

  /** ... or that trial has ended. */
  predicate Settled(run: Run, id: ClaimId, index: nat) {
    && index < |run.trials|
    && (MarkedBy(run, id, index) || run.trials[index].Ended())
  }

  predicate SameTrial(a: Trial, b: Trial) {
    a.taskId == b.taskId && a.harness == b.harness
  }

  /** The same evaluation: its id, date and list of trials never change. */
  predicate SameRun(a: Run, b: Run) {
    && a.id == b.id && a.createdAt == b.createdAt
    && |a.trials| == |b.trials|
    && forall i :: 0 <= i < |a.trials| ==> SameTrial(a.trials[i], b.trials[i])
  }

  predicate Dense(snapshots: map<nat, Run>) {
    && (forall k :: k in snapshots ==> 1 <= k <= |snapshots|)
    && (forall k: nat :: 1 <= k <= |snapshots| ==> k in snapshots)
  }

  function Latest(snapshots: map<nat, Run>): Run
    requires Dense(snapshots) && |snapshots| > 0
  {
    snapshots[|snapshots|]
  }

  predicate Known(s: State, id: ClaimId, index: nat) {
    id in s.attempts && s.attempts[id].index == index
  }

  /** Every snapshot is a sound record of the evaluation, under its own revision, none skipped. */
  predicate RecordsSound(s: State) {
    && RunOk(s.initial) && s.initial.status.Queued? && AllQueued(s.initial.trials)
    && Dense(s.snapshots)
    && forall k :: k in s.snapshots ==> s.snapshots[k].revision == k && RunOk(s.snapshots[k]) && SameRun(s.initial, s.snapshots[k])
  }

  predicate ClaimsKnown(s: State) {
    forall k, i :: k in s.snapshots && 0 <= i < |s.snapshots[k].trials| && s.snapshots[k].trials[i].claim.Some? ==>
      Known(s, s.snapshots[k].trials[i].claim.value, i)
  }

  predicate LogInv(s: State) {
    RecordsSound(s) && ClaimsKnown(s)
  }

  ghost predicate HistoryInv(s: State) {
    && (1 in s.snapshots ==> FirstSnapshot(s.initial, s.snapshots[1]))
    && forall k :: k in s.snapshots && k + 1 in s.snapshots ==> Follows(s.snapshots[k], s.snapshots[k + 1])
  }

  /** What each attempt may ask for, given how far it has come. */
  predicate Legit(s: State, q: Request) {
    match q
    case Claim(id, i) => Known(s, id, i)
    case Mark(id, i, _) => Known(s, id, i)
    case Requeue(id, i) => Known(s, id, i) && s.attempts[id].NeverSolves()
    case Save(id, i, trial) =>
      && Known(s, id, i)
      && trial.claim == Some(id)
      && i < |s.initial.trials| && SameTrial(s.initial.trials[i], trial)
      && if s.attempts[id].solving then trial.Ended() || (trial.status.Running? && trial.solverStartedAt.Some?)
         else s.attempts[id].NeverSolves() && trial.Ended()
    case _ => true
  }

  /** What a write holds, by the change that produced it. */
  predicate Carries(put: Put) {
    match put.change
    case Claim(id, i) =>
      && i < |put.run.trials|
      && put.run.trials[i].claim == Some(id)
      && Abandoned(put.run.trials[i]) && Untouched(put.run.trials[i])
    case Mark(id, i, _) => MarkedBy(put.run, id, i)
    case _ => true
  }

  ghost predicate Fits(s: State, put: Put)
    requires Dense(s.snapshots)
  {
    && 1 <= put.run.revision <= |s.snapshots| + 1
    && (put.run.revision == |s.snapshots| + 1 ==>
          if |s.snapshots| == 0 then FirstSnapshot(s.initial, put.run)
          else Apply(put.change, put.now, Latest(s.snapshots)).Changed? && put == PutOf(put.change, put.now, Latest(s.snapshots)))
  }

  ghost predicate SentInv(s: State)
    requires Dense(s.snapshots)
  {
    forall put :: put in s.sent ==> Legit(s, put.change) && Fits(s, put) && Carries(put) && SameRun(s.initial, put.run)
  }

  /** An attempt's own copy of its trial. */
  predicate OwnTrial(s: State, id: ClaimId, a: Attempt) {
    a.trial.Some? ==>
      var trial := a.trial.value;
      && trial.claim == Some(id)
      && a.index < |s.initial.trials| && SameTrial(s.initial.trials[a.index], trial)
      && (a.solving ==> trial.solverStartedAt.Some?)
  }

  predicate InPhase(id: ClaimId, a: Attempt) {
    match a.phase
    case Claiming => a.op.Some? && a.op.value.request == Claim(id, a.index) && a.trial.None? && !a.solving && !a.refused
    case SettingUp => a.op.None? && a.trial.Some? && a.trial.value.status.Running? && !a.solving && !a.refused
    case Marking =>
      && a.op.Some? && a.op.value.request.Mark? && a.op.value.request.id == id && a.op.value.request.index == a.index
      && a.trial.Some? && a.trial.value.status.Running? && !a.solving && !a.refused
    case Solving => a.op.None? && a.trial.Some? && a.trial.value.status.Running? && a.solving && !a.refused
    case SavingLive =>
      && a.trial.Some? && a.trial.value.status.Running? && a.solving && !a.refused
      && a.op.Some? && a.op.value.request == Save(id, a.index, a.trial.value)
    case Requeueing => a.op.Some? && a.op.value.request == Requeue(id, a.index) && a.trial.Some? && !a.solving && !a.refused
    case Recording =>
      && a.trial.Some? && a.op.Some? && a.op.value.request == Save(id, a.index, a.trial.value)
      && (a.refused || a.trial.value.Ended())
    case Left => a.op.None?
  }

  predicate OpInv(s: State, op: Op) {
    match op.stage
    case Reading => true
    case Putting(put) => put in s.sent && put.change == op.request
    case Checking(put) => put in s.sent && put.change == op.request
  }

  predicate AttemptInv(s: State, id: ClaimId, a: Attempt) {
    && InPhase(id, a)
    && OwnTrial(s, id, a)
    && (a.refused ==> a.trial.Some? && !a.solving)
    && (a.op.Some? ==> OpInv(s, a.op.value))
  }

  predicate AttemptsInv(s: State) {
    && (forall id :: id in s.attempts ==> AttemptInv(s, id, s.attempts[id]))
    && (forall w :: w in s.actors ==> !WorkerRequest(s.actors[w].request))
  }

  /** Among `saved` snapshots, claim `put` is overtaken, or is the one its attempt waits for (or it left). */
  predicate Awaited(saved: nat, a: Attempt, put: Put) {
    || put.run.revision <= saved
    || (a.trial.None? && (a.phase.Claiming? ==> a.op.Some? && (a.op.value.stage == Putting(put) || a.op.value.stage == Checking(put))))
  }

  /** Every claim an attempt sent before the one it now waits for is overtaken. */
  predicate ClaimsOvertaken(s: State) {
    forall put :: put in s.sent && put.change.Claim? && put.change.id in s.attempts ==>
      Awaited(|s.snapshots|, s.attempts[put.change.id], put)
  }

  /** An attempt refused its solver no longer holds its trial. */
  predicate LostInv(s: State)
    requires Dense(s.snapshots)
  {
    forall id :: id in s.attempts && s.attempts[id].refused ==>
      |s.snapshots| > 0 && !Held(Latest(s.snapshots), id, s.attempts[id].index)
  }

  /** Only a solving attempt writes to a trial it runs. */
  predicate UntouchedInv(s: State) {
    forall k, id :: k in s.snapshots && id in s.attempts && !s.attempts[id].solving && Held(s.snapshots[k], id, s.attempts[id].index) ==>
      Untouched(s.snapshots[k].trials[s.attempts[id].index])
  }

  /** A mark stays, or its trial ends, while its attempt may still solve or did. */
  predicate MarksStay(s: State) {
    forall k, l, id | k in s.snapshots && l in s.snapshots && k <= l && id in s.attempts && !s.attempts[id].NeverSolves() ::
      MarkedBy(s.snapshots[k], id, s.attempts[id].index) ==> Settled(s.snapshots[l], id, s.attempts[id].index)
  }

  predicate HasMark(s: State, id: ClaimId, index: nat) {
    exists k :: k in s.snapshots && MarkedBy(s.snapshots[k], id, index)
  }

  predicate SolversMarked(s: State) {
    forall id :: id in s.attempts && s.attempts[id].solving ==> HasMark(s, id, s.attempts[id].index)
  }

  ghost predicate Inv(s: State) {
    && LogInv(s) && HistoryInv(s) && SentInv(s) && AttemptsInv(s) && ClaimsOvertaken(s)
    && LostInv(s) && UntouchedInv(s) && MarksStay(s) && SolversMarked(s)
  }

  // ---- What a change does to one trial ----

  lemma MarkKept(q: Request, now: Time, run: Run, id: ClaimId, index: nat)
    requires Apply(q, now, run).Changed?
    requires Settled(run, id, index)
    requires q.Save? && q.id == id && q.index == index ==>
               q.trial.claim == Some(id) && (q.trial.Ended() || (q.trial.status.Running? && q.trial.solverStartedAt.Some?))
    requires q != Requeue(id, index)
    ensures Settled(Apply(q, now, run).run, id, index)
  {
  }

  lemma OnlyClaimGainsHold(q: Request, now: Time, run: Run, id: ClaimId, index: nat)
    requires Apply(q, now, run).Changed?
    requires q.Save? ==> q.trial.claim == Some(q.id)
    requires !Held(run, id, index)
    ensures Held(Apply(q, now, run).run, id, index) ==> q == Claim(id, index)
  {
  }

  lemma OnlySaveTouches(q: Request, now: Time, run: Run, id: ClaimId, index: nat)
    requires RunOk(run) && Apply(q, now, run).Changed?
    requires q.Save? ==> q.trial.claim == Some(q.id)
    requires Held(run, id, index) ==> Untouched(run.trials[index])
    requires !(q.Save? && q.id == id && q.index == index && q.trial.status.Running?)
    requires Held(Apply(q, now, run).run, id, index)
    ensures Untouched(Apply(q, now, run).run.trials[index])
  {
    assert TrialOk(run.trials[index]);
    if !Held(run, id, index) {
      OnlyClaimGainsHold(q, now, run, id, index);
    }
  }

  lemma ClaimsComeFromAttempts(q: Request, now: Time, run: Run, index: nat)
    requires Apply(q, now, run).Changed?
    requires index < |run.trials|
    requires q.Save? ==> q.trial.claim == Some(q.id)
    ensures var next := Apply(q, now, run).run;
            && |next.trials| == |run.trials|
            && (next.trials[index].claim.Some? ==>
                  || next.trials[index].claim == run.trials[index].claim
                  || (q.Claim? && q.index == index && next.trials[index].claim == Some(q.id)))
  {
  }

  lemma ChangesKeepIdentity(q: Request, now: Time, run: Run)
    requires Apply(q, now, run).Changed?
    requires q.Save? && q.index < |run.trials| ==> SameTrial(run.trials[q.index], q.trial)
    ensures SameRun(run, Apply(q, now, run).run)
  {
  }

  // ---- A write reaches the store ----

  /** A write that reaches the store is the next revision: keys never skip. */
  lemma ArrivesNext(s: State, t: State, put: Put)
    requires LogInv(s) && SentInv(s) && NextStep(s, t, Arrives(put))
    ensures put.run.revision == |s.snapshots| + 1 == |t.snapshots|
    ensures Dense(t.snapshots) && Latest(t.snapshots) == put.run
  {
    assert Fits(s, put);
    assert |t.snapshots| == |s.snapshots| + 1;
  }

  /** What an arriving write holds, and whose claims. */
  lemma ArrivedSnapshot(s: State, put: Put)
    requires LogInv(s) && SentInv(s) && UntouchedInv(s) && put in s.sent && put.run.revision == |s.snapshots| + 1
    ensures RunOk(put.run) && SameRun(s.initial, put.run)
    ensures |s.snapshots| == 0 ==> FirstSnapshot(s.initial, put.run)
    ensures |s.snapshots| > 0 ==> Follows(Latest(s.snapshots), put.run)
    ensures forall i :: 0 <= i < |put.run.trials| && put.run.trials[i].claim.Some? ==> Known(s, put.run.trials[i].claim.value, i)
  {
    var n := |s.snapshots|;
    assert Fits(s, put) && Legit(s, put.change);
    if n > 0 {
      var run := Latest(s.snapshots);
      assert n in s.snapshots;
      ChangesKeepRecord(put.change, put.now, run);
      forall i | 0 <= i < |put.run.trials| && put.run.trials[i].claim.Some?
        ensures Known(s, put.run.trials[i].claim.value, i)
      {
        ClaimsComeFromAttempts(put.change, put.now, run, i);
      }
    }
  }

  lemma ArrivesClaims(s: State, t: State, put: Put)
    requires LogInv(s) && t == s.(snapshots := s.snapshots[put.run.revision := put.run])
    requires forall i :: 0 <= i < |put.run.trials| && put.run.trials[i].claim.Some? ==> Known(s, put.run.trials[i].claim.value, i)
    ensures ClaimsKnown(t)
  {
    forall k, i | k in t.snapshots && 0 <= i < |t.snapshots[k].trials| && t.snapshots[k].trials[i].claim.Some?
      ensures Known(t, t.snapshots[k].trials[i].claim.value, i)
    {
      if k == put.run.revision {
        assert Known(s, put.run.trials[i].claim.value, i);
      } else {
        assert Known(s, s.snapshots[k].trials[i].claim.value, i);
      }
    }
  }

  lemma ArrivesRecords(s: State, t: State, put: Put)
    requires LogInv(s) && t == s.(snapshots := s.snapshots[put.run.revision := put.run])
    requires put.run.revision == |s.snapshots| + 1 && RunOk(put.run) && SameRun(s.initial, put.run)
    ensures RecordsSound(t)
  {
    assert |t.snapshots| == |s.snapshots| + 1;
    forall k | k in t.snapshots
      ensures t.snapshots[k].revision == k && RunOk(t.snapshots[k]) && SameRun(t.initial, t.snapshots[k])
    {
      if k != put.run.revision {
        assert k in s.snapshots;
      }
    }
  }

  lemma ArrivesLog(s: State, t: State, put: Put)
    requires LogInv(s)
    requires put.run.revision == |s.snapshots| + 1
    requires t == s.(snapshots := s.snapshots[put.run.revision := put.run])
    requires RunOk(put.run) && SameRun(s.initial, put.run)
    requires forall i :: 0 <= i < |put.run.trials| && put.run.trials[i].claim.Some? ==> Known(s, put.run.trials[i].claim.value, i)
    ensures LogInv(t)
  {
    ArrivesRecords(s, t, put);
    ArrivesClaims(s, t, put);
  }

  lemma ArrivesHistory(s: State, t: State, put: Put)
    requires Dense(s.snapshots) && HistoryInv(s)
    requires put.run.revision == |s.snapshots| + 1
    requires t == s.(snapshots := s.snapshots[put.run.revision := put.run])
    requires |s.snapshots| == 0 ==> FirstSnapshot(s.initial, put.run)
    requires |s.snapshots| > 0 ==> Follows(Latest(s.snapshots), put.run)
    ensures HistoryInv(t)
  {
    forall k | k in t.snapshots && k + 1 in t.snapshots ensures Follows(t.snapshots[k], t.snapshots[k + 1]) {
      assert k in s.snapshots;
    }
  }

  lemma ArrivesSent(s: State, t: State, put: Put)
    requires LogInv(s) && SentInv(s) && NextStep(s, t, Arrives(put))
    ensures Dense(t.snapshots) && SentInv(t) && ClaimsOvertaken(t)
  {
    ArrivesNext(s, t, put);
    forall p | p in t.sent
      ensures Legit(t, p.change) && Fits(t, p) && Carries(p) && SameRun(t.initial, p.run)
    {
      assert Legit(s, p.change) && Fits(s, p);
    }
  }

  lemma ArrivesLost(s: State, t: State, put: Put)
    requires Inv(s) && NextStep(s, t, Arrives(put))
    ensures Dense(t.snapshots) && LostInv(t)
  {
    ArrivesNext(s, t, put);
    forall id | id in t.attempts && t.attempts[id].refused
      ensures !Held(Latest(t.snapshots), id, t.attempts[id].index)
    {
      RefusedStaysLost(s, put, id);
    }
  }

  lemma RefusedStaysLost(s: State, put: Put, id: ClaimId)
    requires LogInv(s) && SentInv(s) && AttemptsInv(s) && ClaimsOvertaken(s) && LostInv(s) && put in s.sent && put.run.revision == |s.snapshots| + 1
    requires id in s.attempts && s.attempts[id].refused
    ensures |s.snapshots| > 0 && !Held(put.run, id, s.attempts[id].index)
  {
    var index := s.attempts[id].index;
    assert AttemptInv(s, id, s.attempts[id]);
    assert put.change != Claim(id, index);
    assert Fits(s, put);
    OnlyClaimGainsHold(put.change, put.now, Latest(s.snapshots), id, index);
  }

  lemma ArrivedUntouched(s: State, put: Put, id: ClaimId)
    requires LogInv(s) && SentInv(s) && UntouchedInv(s) && put in s.sent && put.run.revision == |s.snapshots| + 1
    requires id in s.attempts && !s.attempts[id].solving && Held(put.run, id, s.attempts[id].index)
    ensures Untouched(put.run.trials[s.attempts[id].index])
  {
    assert Fits(s, put) && Legit(s, put.change);
    if |s.snapshots| > 0 {
      OnlySaveTouches(put.change, put.now, Latest(s.snapshots), id, s.attempts[id].index);
    }
  }

  lemma ArrivesUntouched(s: State, t: State, put: Put)
    requires LogInv(s) && SentInv(s) && UntouchedInv(s) && NextStep(s, t, Arrives(put))
    ensures UntouchedInv(t)
  {
    ArrivesNext(s, t, put);
    forall id | id in t.attempts && !t.attempts[id].solving && Held(put.run, id, t.attempts[id].index)
      ensures Untouched(put.run.trials[t.attempts[id].index])
    {
      ArrivedUntouched(s, put, id);
    }
  }

  lemma ArrivedKeepsMark(s: State, put: Put, id: ClaimId)
    requires LogInv(s) && SentInv(s) && put in s.sent && put.run.revision == |s.snapshots| + 1 && |s.snapshots| > 0
    requires id in s.attempts && !s.attempts[id].NeverSolves()
    requires Settled(Latest(s.snapshots), id, s.attempts[id].index)
    ensures Settled(put.run, id, s.attempts[id].index)
  {
    assert Fits(s, put) && Legit(s, put.change);
    MarkKept(put.change, put.now, Latest(s.snapshots), id, s.attempts[id].index);
  }

  lemma ArrivesMarks(s: State, t: State, put: Put)
    requires Dense(s.snapshots) && MarksStay(s) && SolversMarked(s)
    requires put.run.revision == |s.snapshots| + 1
    requires t == s.(snapshots := s.snapshots[put.run.revision := put.run])
    requires forall id | id in s.attempts && !s.attempts[id].NeverSolves() && |s.snapshots| > 0 ::
               Settled(Latest(s.snapshots), id, s.attempts[id].index) ==> Settled(put.run, id, s.attempts[id].index)
    ensures MarksStay(t) && SolversMarked(t)
  {
    var n := |s.snapshots|;
    assert |t.snapshots| == n + 1;
    forall k, l, id | k in t.snapshots && l in t.snapshots && k <= l && id in t.attempts && !t.attempts[id].NeverSolves()
      ensures MarkedBy(t.snapshots[k], id, t.attempts[id].index) ==> Settled(t.snapshots[l], id, t.attempts[id].index)
    {
      if k <= n < l {
        assert k in s.snapshots && n in s.snapshots;
      }
    }
    forall id | id in t.attempts && t.attempts[id].solving
      ensures HasMark(t, id, t.attempts[id].index)
    {
      var k :| k in s.snapshots && MarkedBy(s.snapshots[k], id, s.attempts[id].index);
      assert t.snapshots[k] == s.snapshots[k];
    }
  }

  lemma ArrivesMarksStay(s: State, t: State, put: Put)
    requires LogInv(s) && SentInv(s) && MarksStay(s) && SolversMarked(s) && put in s.sent
    requires put.run.revision == |s.snapshots| + 1
    requires t == s.(snapshots := s.snapshots[put.run.revision := put.run])
    ensures MarksStay(t) && SolversMarked(t)
  {
    forall id | id in s.attempts && !s.attempts[id].NeverSolves() && |s.snapshots| > 0
      ensures Settled(Latest(s.snapshots), id, s.attempts[id].index) ==> Settled(put.run, id, s.attempts[id].index)
    {
      if Settled(Latest(s.snapshots), id, s.attempts[id].index) {
        ArrivedKeepsMark(s, put, id);
      }
    }
    ArrivesMarks(s, t, put);
  }

  /** What attempts know of themselves does not depend on the snapshots. */
  lemma AttemptsStay(s: State, t: State)
    requires AttemptsInv(s) && t.initial == s.initial && t.attempts == s.attempts && s.sent <= t.sent
    requires forall w :: w in t.actors ==> !WorkerRequest(t.actors[w].request)
    ensures AttemptsInv(t)
  {
    forall id | id in t.attempts ensures AttemptInv(t, id, t.attempts[id]) {
      assert AttemptInv(s, id, s.attempts[id]);
    }
  }

  lemma ArrivesKeeps(s: State, t: State, put: Put)
    requires Inv(s) && NextStep(s, t, Arrives(put))
    ensures Inv(t)
  {
    ArrivesNext(s, t, put);
    ArrivedSnapshot(s, put);
    ArrivesLog(s, t, put);
    ArrivesHistory(s, t, put);
    ArrivesSent(s, t, put);
    ArrivesLost(s, t, put);
    ArrivesUntouched(s, t, put);
    ArrivesMarksStay(s, t, put);
    AttemptsStay(s, t);
  }

  // ---- An attempt or another actor moves ----

  /** What never comes back: an attempt's index, its solver, its chance to start one. */
  predicate Evolves(a: Attempt, b: Attempt) {
    && a.index == b.index
    && (a.solving ==> b.solving)
    && (a.NeverSolves() ==> b.NeverSolves())
  }

  ghost predicate NewPutOk(s: State, put: Put)
    requires Dense(s.snapshots)
  {
    Legit(s, put.change) && Fits(s, put) && Carries(put) && SameRun(s.initial, put.run)
  }

  /** Attempt `id` becomes `b`, having sent `puts`: what must hold for the invariant to stay. */
  ghost predicate MovesSoundly(s: State, t: State, id: ClaimId, b: Attempt, puts: set<Put>)
    requires Dense(s.snapshots)
  {
    && id in s.attempts
    && t == s.(sent := s.sent + puts, attempts := s.attempts[id := b])
    && Evolves(s.attempts[id], b) && (b.solving ==> s.attempts[id].solving || s.attempts[id].phase.Marking?)
    && AttemptInv(t, id, b)
    && (forall put :: put in puts ==> NewPutOk(s, put))
    && (b.refused ==> |s.snapshots| > 0 && !Held(Latest(s.snapshots), id, b.index))
    && (b.solving ==> HasMark(s, id, b.index))
    && (forall put :: put in t.sent && put.change.Claim? && put.change.id == id ==> Awaited(|s.snapshots|, b, put))
    && (forall put :: put in puts && put.change.Claim? ==> put.change.id == id)
  }

  lemma AttemptMoves(s: State, t: State, id: ClaimId, b: Attempt, puts: set<Put>)
    requires Inv(s) && MovesSoundly(s, t, id, b, puts)
    ensures Inv(t)
  {
    ClaimsStay(s, t, id, puts);
    SentStays(s, t, id, puts);
    OthersKeepInv(s, t, id);
    LogStays(s, t);
    LostStays(s, t, id);
    MarksStayStill(s, t, id);
  }

  lemma ClaimsStay(s: State, t: State, id: ClaimId, puts: set<Put>)
    requires ClaimsOvertaken(s) && t.snapshots == s.snapshots && t.sent == s.sent + puts
    requires id in t.attempts && t.attempts == s.attempts[id := t.attempts[id]]
    requires forall put :: put in t.sent && put.change.Claim? && put.change.id == id ==> Awaited(|s.snapshots|, t.attempts[id], put)
    requires forall put :: put in puts && put.change.Claim? ==> put.change.id == id
    ensures ClaimsOvertaken(t)
  {
  }

  lemma SentStays(s: State, t: State, id: ClaimId, puts: set<Put>)
    requires Dense(s.snapshots) && SentInv(s)
    requires id in s.attempts && t.snapshots == s.snapshots && t.initial == s.initial && t.sent == s.sent + puts
    requires id in t.attempts && t.attempts == s.attempts[id := t.attempts[id]]
    requires Evolves(s.attempts[id], t.attempts[id]) && (t.attempts[id].solving ==> s.attempts[id].solving || s.attempts[id].phase.Marking?)
    requires forall put :: put in puts ==> NewPutOk(s, put)
    ensures SentInv(t)
  {
    forall put | put in t.sent ensures Legit(t, put.change) && Fits(t, put) && Carries(put) && SameRun(t.initial, put.run) {
      assert NewPutOk(s, put);
    }
  }

  lemma OthersKeepInv(s: State, t: State, id: ClaimId)
    requires AttemptsInv(s)
    requires t.initial == s.initial && t.actors == s.actors && s.sent <= t.sent
    requires id in t.attempts && t.attempts == s.attempts[id := t.attempts[id]] && AttemptInv(t, id, t.attempts[id])
    ensures AttemptsInv(t)
  {
    forall other | other in t.attempts ensures AttemptInv(t, other, t.attempts[other]) {
      if other != id {
        assert AttemptInv(s, other, s.attempts[other]);
      }
    }
  }

  predicate SameLog(s: State, t: State) {
    && t.snapshots == s.snapshots && t.initial == s.initial
    && forall id :: id in s.attempts ==> id in t.attempts && t.attempts[id].index == s.attempts[id].index
  }

  lemma LogStays(s: State, t: State)
    requires LogInv(s) && HistoryInv(s) && SameLog(s, t)
    ensures LogInv(t) && HistoryInv(t)
  {
    forall k, i | k in t.snapshots && 0 <= i < |t.snapshots[k].trials| && t.snapshots[k].trials[i].claim.Some?
      ensures Known(t, t.snapshots[k].trials[i].claim.value, i)
    {
      assert Known(s, t.snapshots[k].trials[i].claim.value, i);
    }
  }

  lemma LostStays(s: State, t: State, id: ClaimId)
    requires Dense(s.snapshots) && LostInv(s) && UntouchedInv(s)
    requires t.snapshots == s.snapshots
    requires id in s.attempts && id in t.attempts && t.attempts == s.attempts[id := t.attempts[id]]
    requires Evolves(s.attempts[id], t.attempts[id])
    requires t.attempts[id].refused ==> |s.snapshots| > 0 && !Held(Latest(s.snapshots), id, t.attempts[id].index)
    ensures LostInv(t) && UntouchedInv(t)
  {
  }

  lemma MarksStayStill(s: State, t: State, id: ClaimId)
    requires MarksStay(s) && SolversMarked(s)
    requires t.snapshots == s.snapshots
    requires id in s.attempts && id in t.attempts && t.attempts == s.attempts[id := t.attempts[id]]
    requires Evolves(s.attempts[id], t.attempts[id])
    requires t.attempts[id].solving ==> HasMark(s, id, t.attempts[id].index)
    ensures MarksStay(t) && SolversMarked(t)
  {
    forall other | other in t.attempts && t.attempts[other].solving ensures HasMark(t, other, t.attempts[other].index) {
      assert HasMark(s, other, t.attempts[other].index);
      var k :| k in s.snapshots && MarkedBy(s.snapshots[k], other, t.attempts[other].index);
      assert t.snapshots[k] == s.snapshots[k];
    }
  }

  lemma LatestKey(snapshots: map<nat, Run>, k: nat)
    requires Dense(snapshots) && IsLatest(snapshots, k)
    ensures |snapshots| > 0 && k == |snapshots|
  {
    assert |snapshots| in snapshots;
  }

  lemma NewPut(s: State, q: Request, now: Time)
    requires LogInv(s) && |s.snapshots| > 0
    requires Apply(q, now, Latest(s.snapshots)).Changed? && Legit(s, q)
    ensures NewPutOk(s, PutOf(q, now, Latest(s.snapshots)))
    ensures PutOf(q, now, Latest(s.snapshots)).run.revision == |s.snapshots| + 1
  {
    var n := |s.snapshots|;
    assert n in s.snapshots;
    var run := s.snapshots[n];
    assert SameRun(s.initial, run) && RunOk(run) && run.revision == n;
    ChangesKeepIdentity(q, now, run);
    if q.Claim? {
      assert TrialOk(run.trials[q.index]);
    }
  }

  lemma RequestLegit(s: State, id: ClaimId)
    requires AttemptsInv(s) && id in s.attempts && s.attempts[id].op.Some? && !s.attempts[id].refused
    ensures Legit(s, s.attempts[id].op.value.request)
  {
    assert AttemptInv(s, id, s.attempts[id]);
  }

  predicate OpKeepsShape(a: Attempt, b: Attempt) {
    && a.op.Some? && b.op.Some? && b.op.value.request == a.op.value.request
    && b == a.(op := b.op)
  }

  lemma ShapeKept(s: State, t: State, id: ClaimId, a: Attempt, b: Attempt)
    requires AttemptInv(s, id, a) && OpKeepsShape(a, b)
    requires t.initial == s.initial
    requires OpInv(t, b.op.value)
    ensures AttemptInv(t, id, b) && Evolves(a, b)
  {
  }

  /** The closure changed the record: the new snapshot is sent. */
  lemma SendsSoundly(s: State, t: State, id: ClaimId, now: Time, put: Put)
    requires LogInv(s) && AttemptsInv(s) && ClaimsOvertaken(s) && SolversMarked(s) && id in s.attempts && id in t.attempts
    requires s.attempts[id].op.Some? && s.attempts[id].op.value.stage.Reading? && !s.attempts[id].refused
    requires |s.snapshots| > 0 && Apply(s.attempts[id].op.value.request, now, Latest(s.snapshots)).Changed?
    requires put == PutOf(s.attempts[id].op.value.request, now, Latest(s.snapshots))
    requires t.attempts[id] == s.attempts[id].(op := Some(Op(s.attempts[id].op.value.request, Putting(put))))
    requires t == s.(sent := s.sent + {put}, attempts := s.attempts[id := t.attempts[id]])
    ensures MovesSoundly(s, t, id, t.attempts[id], {put})
  {
    var a, b := s.attempts[id], t.attempts[id];
    assert AttemptInv(s, id, a);
    RequestLegit(s, id);
    NewPut(s, a.op.value.request, now);
    ShapeKept(s, t, id, a, b);
    SendingAwaited(s, t, id, b, put);
  }

  /** A refused attempt's call is its last write, on a trial it no longer holds: it sends nothing. */
  lemma RefusedSendsNothing(s: State, id: ClaimId, now: Time)
    requires LogInv(s) && AttemptsInv(s) && LostInv(s) && id in s.attempts && s.attempts[id].refused
    requires s.attempts[id].op.Some? && |s.snapshots| > 0
    ensures !Apply(s.attempts[id].op.value.request, now, Latest(s.snapshots)).Changed?
  {
    assert AttemptInv(s, id, s.attempts[id]);
  }

  lemma CallSends(s: State, t: State, id: ClaimId, now: Time, put: Put)
    requires Inv(s) && id in s.attempts && id in t.attempts
    requires s.attempts[id].op.Some? && s.attempts[id].op.value.stage.Reading?
    requires |s.snapshots| > 0 && Apply(s.attempts[id].op.value.request, now, Latest(s.snapshots)).Changed?
    requires put == PutOf(s.attempts[id].op.value.request, now, Latest(s.snapshots))
    requires t.attempts[id] == s.attempts[id].(op := Some(Op(s.attempts[id].op.value.request, Putting(put))))
    requires t == s.(sent := s.sent + {put}, attempts := s.attempts[id := t.attempts[id]])
    ensures Inv(t)
  {
    if s.attempts[id].refused {
      RefusedSendsNothing(s, id, now);
      assert false;
    }
    SendsSoundly(s, t, id, now, put);
    AttemptMoves(s, t, id, t.attempts[id], {put});
  }

  lemma SendingAwaited(s: State, t: State, id: ClaimId, b: Attempt, put: Put)
    requires ClaimsOvertaken(s) && id in s.attempts && t.sent == s.sent + {put}
    requires OpKeepsShape(s.attempts[id], b) && s.attempts[id].op.value.stage.Reading? && b.op.value.stage == Putting(put)
    requires InPhase(id, s.attempts[id]) && put.change == b.op.value.request
    ensures forall p :: p in t.sent && p.change.Claim? && p.change.id == id ==> Awaited(|s.snapshots|, b, p)
    ensures put.change.Claim? ==> put.change.id == id
  {
    forall p | p in t.sent && p.change.Claim? && p.change.id == id ensures Awaited(|s.snapshots|, b, p) {
      if p in s.sent {
        assert Awaited(|s.snapshots|, s.attempts[id], p);
      }
    }
  }

  lemma WaitingAwaited(s: State, id: ClaimId, b: Attempt)
    requires ClaimsOvertaken(s) && Dense(s.snapshots) && id in s.attempts && Retries(s, s.attempts[id], b)
    ensures forall p :: p in s.sent && p.change.Claim? && p.change.id == id ==> Awaited(|s.snapshots|, b, p)
  {
    forall p | p in s.sent && p.change.Claim? && p.change.id == id ensures Awaited(|s.snapshots|, b, p) {
      assert Awaited(|s.snapshots|, s.attempts[id], p);
    }
  }

  /** The write failed: its key is checked, and once it exists the record is read again. */
  predicate Retries(s: State, a: Attempt, b: Attempt) {
    && OpKeepsShape(a, b)
    && match a.op.value.stage
       case Reading => false
       case Putting(put) => b.op.value.stage == Checking(put)
       case Checking(put) => b.op.value.stage.Reading? && put.run.revision in s.snapshots
  }

  lemma RetriesSoundly(s: State, t: State, id: ClaimId)
    requires LogInv(s) && AttemptsInv(s) && ClaimsOvertaken(s) && LostInv(s) && SolversMarked(s)
    requires id in s.attempts && id in t.attempts && Retries(s, s.attempts[id], t.attempts[id])
    requires t == s.(attempts := s.attempts[id := t.attempts[id]])
    ensures MovesSoundly(s, t, id, t.attempts[id], {})
  {
    assert AttemptInv(s, id, s.attempts[id]);
    ShapeKept(s, t, id, s.attempts[id], t.attempts[id]);
    WaitingAwaited(s, id, t.attempts[id]);
    assert s.sent + {} == s.sent;
  }

  lemma CallRetries(s: State, t: State, id: ClaimId)
    requires Inv(s) && id in s.attempts && id in t.attempts && Retries(s, s.attempts[id], t.attempts[id])
    requires t == s.(attempts := s.attempts[id := t.attempts[id]])
    ensures Inv(t)
  {
    RetriesSoundly(s, t, id);
    AttemptMoves(s, t, id, t.attempts[id], {});
  }

  /** A call that goes on has sent its change to the newest snapshot, or will check or read again. */
  lemma GoingOn(snapshots: map<nat, Run>, op: Op, now: Time, result: OpResult)
    requires Dense(snapshots) && OpStep(snapshots, op, now, result) && result.Continues?
    ensures result.op.request == op.request
    ensures match op.stage
            case Reading =>
              && |snapshots| > 0 && Apply(op.request, now, Latest(snapshots)).Changed?
              && result.op.stage == Putting(PutOf(op.request, now, Latest(snapshots)))
              && SentBy(op, result) == {PutOf(op.request, now, Latest(snapshots))}
            case Putting(put) => result.op.stage == Checking(put) && SentBy(op, result) == {}
            case Checking(put) => result.op.stage.Reading? && put.run.revision in snapshots && SentBy(op, result) == {}
  {
    if op.stage.Reading? {
      var k :| IsLatest(snapshots, k) && result == ReadResult(op.request, now, snapshots[k]);
      LatestKey(snapshots, k);
    }
  }

  lemma CallShape(s: State, t: State, id: ClaimId, result: OpResult, now: Time)
    requires Dense(s.snapshots) && NextStep(s, t, OpMoves(id, result, now)) && result.Continues?
    ensures s.attempts[id].op.value.stage.Reading? ==>
              var op := s.attempts[id].op.value;
              && |s.snapshots| > 0 && Apply(op.request, now, Latest(s.snapshots)).Changed?
              && var put := PutOf(op.request, now, Latest(s.snapshots));
              && t.attempts[id] == s.attempts[id].(op := Some(Op(op.request, Putting(put))))
              && t == s.(sent := s.sent + {put}, attempts := s.attempts[id := t.attempts[id]])
    ensures !s.attempts[id].op.value.stage.Reading? ==>
              && Retries(s, s.attempts[id], t.attempts[id])
              && t == s.(attempts := s.attempts[id := t.attempts[id]])
  {
    var op := s.attempts[id].op.value;
    GoingOn(s.snapshots, op, now, result);
    if !op.stage.Reading? {
      assert s.sent + SentBy(op, result) == s.sent;
    }
  }

  lemma CallGoesOn(s: State, t: State, id: ClaimId, result: OpResult, now: Time)
    requires Inv(s) && NextStep(s, t, OpMoves(id, result, now)) && result.Continues?
    ensures Inv(t)
  {
    CallShape(s, t, id, result, now);
    if s.attempts[id].op.value.stage.Reading? {
      CallSends(s, t, id, now, PutOf(s.attempts[id].op.value.request, now, Latest(s.snapshots)));
    } else {
      CallRetries(s, t, id);
    }
  }

  /** An attempt's call or own work leads to `b`, with nothing sent. */
  predicate Turns(s: State, id: ClaimId, b: Attempt)
    requires Dense(s.snapshots)
  {
    && id in s.attempts && !s.attempts[id].phase.Claiming?
    && Evolves(s.attempts[id], b) && (b.solving ==> s.attempts[id].solving || s.attempts[id].phase.Marking?)
    && s.attempts[id].trial.Some? && b.trial.Some?
    && AttemptInv(s, id, b)
    && (b.refused ==> |s.snapshots| > 0 && !Held(Latest(s.snapshots), id, b.index))
    && (b.solving ==> HasMark(s, id, b.index))
  }

  lemma TurnsSoundly(s: State, t: State, id: ClaimId, b: Attempt)
    requires Dense(s.snapshots) && ClaimsOvertaken(s) && Turns(s, id, b) && t == s.(attempts := s.attempts[id := b])
    ensures MovesSoundly(s, t, id, b, {})
  {
    assert s.sent + {} == s.sent;
    forall put | put in t.sent && put.change.Claim? && put.change.id == id ensures Awaited(|s.snapshots|, b, put) {
      assert Awaited(|s.snapshots|, s.attempts[id], put);
    }
  }

  lemma AttemptTurns(s: State, t: State, id: ClaimId, b: Attempt)
    requires Inv(s) && Turns(s, id, b) && t == s.(attempts := s.attempts[id := b])
    ensures Inv(t)
  {
    TurnsSoundly(s, t, id, b);
    AttemptMoves(s, t, id, b, {});
  }

  lemma WorksWithin(s: State, id: ClaimId, a: Attempt, now: Time, b: Attempt)
    requires AttemptInv(s, id, a) && Works(id, a, now, b)
    ensures AttemptInv(s, id, b) && Evolves(a, b)
    ensures b.trial.Some? && a.trial.Some? && b.refused == a.refused && b.solving == a.solving && !b.phase.Claiming?
  {
  }

  lemma WorkTurns(s: State, id: ClaimId, now: Time, b: Attempt)
    requires LogInv(s) && AttemptsInv(s) && LostInv(s) && SolversMarked(s) && id in s.attempts && Works(id, s.attempts[id], now, b)
    ensures Turns(s, id, b)
  {
    assert AttemptInv(s, id, s.attempts[id]);
    WorksWithin(s, id, s.attempts[id], now, b);
  }

  lemma WorkKeeps(s: State, t: State, id: ClaimId, now: Time)
    requires Inv(s) && NextStep(s, t, Working(id, now))
    ensures Inv(t)
  {
    WorkTurns(s, id, now, t.attempts[id]);
    AttemptTurns(s, t, id, t.attempts[id]);
  }

  // ---- An attempt's call ends ----

  /** A refusal is a reading of the newest snapshot; so is a return that wrote nothing. */
  lemma EndsOf(snapshots: map<nat, Run>, op: Op, now: Time, result: OpResult)
    requires Dense(snapshots) && OpStep(snapshots, op, now, result) && !result.Continues?
    ensures result == Threw(true) ==> |snapshots| > 0 && Apply(op.request, now, Latest(snapshots)).Refused?
    ensures result.Returned? ==>
              match op.stage
              case Reading => |snapshots| > 0 && Apply(op.request, now, Latest(snapshots)).Unchanged? && result.run == Latest(snapshots)
              case Putting(put) => put.run.revision in snapshots && snapshots[put.run.revision] == put.run && result.run == put.run
              case Checking(_) => false
  {
    if op.stage.Reading? && result != Threw(false) {
      var k :| IsLatest(snapshots, k) && result == ReadResult(op.request, now, snapshots[k]);
      LatestKey(snapshots, k);
    }
  }

  lemma AfterCall(s: State, id: ClaimId, a: Attempt, result: OpResult, now: Time, b: Attempt)
    requires AttemptInv(s, id, a) && a.op.Some? && !a.phase.Claiming?
    requires AfterOp(id, a, result, now, b) && !result.Continues?
    ensures AttemptInv(s, id, b) && Evolves(a, b)
    ensures a.trial.Some? && b.trial.Some?
    ensures b.refused ==> a.refused || (result == Threw(true) && a.phase.Marking?)
    ensures b.solving ==> a.solving || (result.Returned? && a.phase.Marking?)
  {
  }

  lemma SolverMarked(s: State, id: ClaimId, result: OpResult, now: Time)
    requires Dense(s.snapshots) && SentInv(s) && id in s.attempts && AttemptInv(s, id, s.attempts[id])
    requires s.attempts[id].phase.Marking? && s.attempts[id].op.Some?
    requires OpStep(s.snapshots, s.attempts[id].op.value, now, result) && result.Returned?
    ensures HasMark(s, id, s.attempts[id].index)
  {
    var a := s.attempts[id];
    EndsOf(s.snapshots, a.op.value, now, result);
    var put := a.op.value.stage.put;
    assert Carries(put);
  }

  lemma CallTurns(s: State, id: ClaimId, result: OpResult, now: Time, b: Attempt)
    requires LogInv(s) && SentInv(s) && AttemptsInv(s) && LostInv(s) && SolversMarked(s) && id in s.attempts && s.attempts[id].op.Some? && !s.attempts[id].phase.Claiming?
    requires OpStep(s.snapshots, s.attempts[id].op.value, now, result) && !result.Continues?
    requires AfterOp(id, s.attempts[id], result, now, b)
    ensures Turns(s, id, b)
  {
    var a := s.attempts[id];
    assert AttemptInv(s, id, a);
    AfterCall(s, id, a, result, now, b);
    if b.refused && !a.refused {
      EndsOf(s.snapshots, a.op.value, now, result);
    }
    if b.solving && !a.solving {
      SolverMarked(s, id, result, now);
    }
  }

  lemma CallEndKeeps(s: State, t: State, id: ClaimId, result: OpResult, now: Time)
    requires Inv(s) && id in s.attempts && id in t.attempts && s.attempts[id].op.Some? && !s.attempts[id].phase.Claiming?
    requires OpStep(s.snapshots, s.attempts[id].op.value, now, result) && !result.Continues?
    requires AfterOp(id, s.attempts[id], result, now, t.attempts[id])
    requires t == s.(attempts := s.attempts[id := t.attempts[id]])
    ensures Inv(t)
  {
    CallTurns(s, id, result, now, t.attempts[id]);
    AttemptTurns(s, t, id, t.attempts[id]);
  }

  // ---- Claims: taken, or given up ----

  lemma ClaimTaken(s: State, id: ClaimId, a: Attempt, result: OpResult, now: Time, b: Attempt)
    requires Dense(s.snapshots) && SentInv(s) && AttemptInv(s, id, a) && a.phase.Claiming?
    requires OpStep(s.snapshots, a.op.value, now, result) && result.Returned?
    requires AfterOp(id, a, result, now, b)
    ensures AttemptInv(s, id, b) && Evolves(a, b) && !b.solving && !b.refused && !b.phase.Claiming?
    ensures a.op.value.stage.Putting? && a.op.value.stage.put.run.revision in s.snapshots
  {
    EndsOf(s.snapshots, a.op.value, now, result);
    var put := a.op.value.stage.put;
    assert Carries(put) && SameRun(s.initial, put.run);
  }

  lemma TakenAwaited(s: State, id: ClaimId, b: Attempt)
    requires ClaimsOvertaken(s) && Dense(s.snapshots) && id in s.attempts && s.attempts[id].phase.Claiming?
    requires s.attempts[id].op.Some? && s.attempts[id].op.value.stage.Putting?
    requires s.attempts[id].op.value.stage.put.run.revision in s.snapshots
    ensures forall p :: p in s.sent && p.change.Claim? && p.change.id == id ==> Awaited(|s.snapshots|, b, p)
  {
    forall p | p in s.sent && p.change.Claim? && p.change.id == id ensures Awaited(|s.snapshots|, b, p) {
      assert Awaited(|s.snapshots|, s.attempts[id], p);
    }
  }

  lemma LeftAwaited(s: State, id: ClaimId, b: Attempt)
    requires ClaimsOvertaken(s) && id in s.attempts && b.phase.Left?
    requires b.trial == s.attempts[id].trial
    ensures forall p :: p in s.sent && p.change.Claim? && p.change.id == id ==> Awaited(|s.snapshots|, b, p)
  {
    forall p | p in s.sent && p.change.Claim? && p.change.id == id ensures Awaited(|s.snapshots|, b, p) {
      assert Awaited(|s.snapshots|, s.attempts[id], p);
    }
  }

  lemma LeftInv(s: State, t: State, id: ClaimId, a: Attempt)
    requires AttemptInv(s, id, a) && t.initial == s.initial
    ensures AttemptInv(t, id, Idle(a, Left)) && Evolves(a, Idle(a, Left))
  {
  }

  /** Crashing, or giving up: what was sent stays sent. */
  lemma LeavesSoundly(s: State, t: State, id: ClaimId)
    requires Dense(s.snapshots) && AttemptsInv(s) && ClaimsOvertaken(s) && LostInv(s) && SolversMarked(s) && id in s.attempts
    requires t == s.(attempts := s.attempts[id := Idle(s.attempts[id], Left)])
    ensures MovesSoundly(s, t, id, t.attempts[id], {})
  {
    LeftInv(s, t, id, s.attempts[id]);
    LeftAwaited(s, id, t.attempts[id]);
    assert s.sent + {} == s.sent;
  }

  lemma LeavingKeeps(s: State, t: State, id: ClaimId)
    requires Inv(s) && id in s.attempts
    requires t == s.(attempts := s.attempts[id := Idle(s.attempts[id], Left)])
    ensures Inv(t)
  {
    LeavesSoundly(s, t, id);
    AttemptMoves(s, t, id, t.attempts[id], {});
  }

  lemma TakenSoundly(s: State, t: State, id: ClaimId, result: OpResult, now: Time)
    requires LogInv(s) && SentInv(s) && AttemptsInv(s) && ClaimsOvertaken(s) && id in s.attempts && id in t.attempts
    requires s.attempts[id].op.Some? && s.attempts[id].phase.Claiming?
    requires OpStep(s.snapshots, s.attempts[id].op.value, now, result) && result.Returned?
    requires AfterOp(id, s.attempts[id], result, now, t.attempts[id])
    requires t == s.(attempts := s.attempts[id := t.attempts[id]])
    ensures MovesSoundly(s, t, id, t.attempts[id], {})
  {
    assert AttemptInv(s, id, s.attempts[id]);
    ClaimTaken(s, id, s.attempts[id], result, now, t.attempts[id]);
    TakenAwaited(s, id, t.attempts[id]);
    assert s.sent + {} == s.sent;
  }

  lemma TakenKeeps(s: State, t: State, id: ClaimId, result: OpResult, now: Time)
    requires Inv(s) && id in s.attempts && id in t.attempts && s.attempts[id].op.Some? && s.attempts[id].phase.Claiming?
    requires OpStep(s.snapshots, s.attempts[id].op.value, now, result) && result.Returned?
    requires AfterOp(id, s.attempts[id], result, now, t.attempts[id])
    requires t == s.(attempts := s.attempts[id := t.attempts[id]])
    ensures Inv(t)
  {
    TakenSoundly(s, t, id, result, now);
    AttemptMoves(s, t, id, t.attempts[id], {});
  }

  lemma GivesUp(id: ClaimId, a: Attempt, result: OpResult, now: Time, b: Attempt)
    requires a.op.Some? && a.phase.Claiming? && result.Threw? && AfterOp(id, a, result, now, b)
    ensures b == Idle(a, Left)
  {
  }

  lemma ClaimEndKeeps(s: State, t: State, id: ClaimId, result: OpResult, now: Time)
    requires Inv(s) && id in s.attempts && id in t.attempts && s.attempts[id].op.Some? && s.attempts[id].phase.Claiming?
    requires OpStep(s.snapshots, s.attempts[id].op.value, now, result) && !result.Continues?
    requires AfterOp(id, s.attempts[id], result, now, t.attempts[id])
    requires t == s.(attempts := s.attempts[id := t.attempts[id]])
    ensures Inv(t)
  {
    if result.Threw? {
      GivesUp(id, s.attempts[id], result, now, t.attempts[id]);
      LeavingKeeps(s, t, id);
    } else {
      TakenKeeps(s, t, id, result, now);
    }
  }

  // ---- New attempts, first snapshots, other actors ----

  lemma BeginsKeeps(s: State, t: State, id: ClaimId, index: nat)
    requires Inv(s) && NextStep(s, t, Begins(id, index))
    ensures Inv(t)
  {
    BeginsLog(s, t, id);
    BeginsSent(s, t, id);
    BeginsRest(s, t, id);
    forall other | other in t.attempts ensures AttemptInv(t, other, t.attempts[other]) {
      if other != id {
        assert AttemptInv(s, other, s.attempts[other]);
      }
    }
  }

  lemma BeginsLog(s: State, t: State, id: ClaimId)
    requires LogInv(s) && HistoryInv(s) && id !in s.attempts && t.snapshots == s.snapshots && t.initial == s.initial
    requires id in t.attempts && t.attempts == s.attempts[id := t.attempts[id]]
    ensures LogInv(t) && HistoryInv(t)
  {
    LogStays(s, t);
  }

  lemma BeginsSent(s: State, t: State, id: ClaimId)
    requires Dense(s.snapshots) && SentInv(s) && ClaimsOvertaken(s) && id !in s.attempts
    requires t.snapshots == s.snapshots && t.initial == s.initial && t.sent == s.sent
    requires id in t.attempts && t.attempts == s.attempts[id := t.attempts[id]]
    ensures SentInv(t) && ClaimsOvertaken(t)
  {
    forall put | put in t.sent ensures Legit(t, put.change) && Fits(t, put) && Carries(put) && SameRun(t.initial, put.run) {
      assert NewPutOk(s, put);
    }
    forall put | put in t.sent && put.change.Claim? && put.change.id in t.attempts
      ensures Awaited(|t.snapshots|, t.attempts[put.change.id], put)
    {
      assert Legit(s, put.change);
    }
  }

  /** No snapshot holds a claim of an attempt that has not begun. */
  lemma UnknownHoldsNothing(s: State, id: ClaimId, k: nat, index: nat)
    requires LogInv(s) && id !in s.attempts && k in s.snapshots
    ensures !Held(s.snapshots[k], id, index) && !MarkedBy(s.snapshots[k], id, index)
  {
    if index < |s.snapshots[k].trials| && s.snapshots[k].trials[index].claim.Some? {
      assert Known(s, s.snapshots[k].trials[index].claim.value, index);
    }
  }

  lemma BeginsLost(s: State, t: State, id: ClaimId)
    requires Dense(s.snapshots) && LostInv(s) && UntouchedInv(s)
    requires id !in s.attempts && t.snapshots == s.snapshots
    requires id in t.attempts && t.attempts == s.attempts[id := t.attempts[id]] && !t.attempts[id].refused
    requires forall k :: k in s.snapshots ==> !Held(s.snapshots[k], id, t.attempts[id].index)
    ensures LostInv(t) && UntouchedInv(t)
  {
  }

  lemma BeginsRest(s: State, t: State, id: ClaimId)
    requires LogInv(s) && LostInv(s) && UntouchedInv(s) && MarksStay(s) && SolversMarked(s)
    requires id !in s.attempts && t.snapshots == s.snapshots
    requires id in t.attempts && t.attempts == s.attempts[id := t.attempts[id]]
    requires !t.attempts[id].solving && !t.attempts[id].refused
    ensures LostInv(t) && UntouchedInv(t) && MarksStay(t) && SolversMarked(t)
  {
    forall k | k in s.snapshots
      ensures !Held(s.snapshots[k], id, t.attempts[id].index) && !MarkedBy(s.snapshots[k], id, t.attempts[id].index)
    {
      UnknownHoldsNothing(s, id, k, t.attempts[id].index);
    }
    BeginsLost(s, t, id);
    BeginsMarks(s, t, id);
  }

  lemma BeginsMarks(s: State, t: State, id: ClaimId)
    requires MarksStay(s) && SolversMarked(s) && id !in s.attempts && t.snapshots == s.snapshots
    requires id in t.attempts && t.attempts == s.attempts[id := t.attempts[id]] && !t.attempts[id].solving
    requires forall k :: k in s.snapshots ==> !MarkedBy(s.snapshots[k], id, t.attempts[id].index)
    ensures MarksStay(t) && SolversMarked(t)
  {
    forall other | other in t.attempts && t.attempts[other].solving ensures HasMark(t, other, t.attempts[other].index) {
      var k :| k in s.snapshots && MarkedBy(s.snapshots[k], other, t.attempts[other].index);
      assert t.snapshots[k] == s.snapshots[k];
    }
  }

  /** Only writes and other actors change. */
  lemma SentMore(s: State, t: State, puts: set<Put>)
    requires Dense(s.snapshots) && SentInv(s) && ClaimsOvertaken(s)
    requires t.initial == s.initial && t.snapshots == s.snapshots && t.attempts == s.attempts && t.sent == s.sent + puts
    requires forall put :: put in puts ==> NewPutOk(s, put) && !put.change.Claim?
    ensures SentInv(t) && ClaimsOvertaken(t)
  {
    forall put | put in t.sent ensures NewPutOk(t, put) {
      assert NewPutOk(s, put);
    }
  }

  lemma SnapshotsStay(s: State, t: State)
    requires Dense(s.snapshots) && LostInv(s) && UntouchedInv(s) && MarksStay(s) && SolversMarked(s)
    requires t.snapshots == s.snapshots && t.attempts == s.attempts
    ensures LostInv(t) && UntouchedInv(t) && MarksStay(t) && SolversMarked(t)
  {
    forall id | id in t.attempts && t.attempts[id].solving ensures HasMark(t, id, t.attempts[id].index) {
      assert HasMark(s, id, s.attempts[id].index);
    }
  }

  lemma SendingKeeps(s: State, t: State, puts: set<Put>)
    requires Inv(s)
    requires t.initial == s.initial && t.snapshots == s.snapshots && t.attempts == s.attempts && t.sent == s.sent + puts
    requires forall w :: w in t.actors ==> !WorkerRequest(t.actors[w].request)
    requires forall put :: put in puts ==> NewPutOk(s, put) && !put.change.Claim?
    ensures Inv(t)
  {
    LogStays(s, t);
    SentMore(s, t, puts);
    AttemptsStay(s, t);
    SnapshotsStay(s, t);
  }

  lemma SendsFirstKeeps(s: State, t: State, put: Put)
    requires Inv(s) && NextStep(s, t, SendsFirst(put))
    ensures Inv(t)
  {
    SendingKeeps(s, t, {put});
  }

  lemma ActorSends(s: State, op: Op, now: Time, result: OpResult)
    requires LogInv(s) && !WorkerRequest(op.request) && OpStep(s.snapshots, op, now, result)
    ensures forall put :: put in SentBy(op, result) ==> NewPutOk(s, put) && !put.change.Claim?
    ensures result.Continues? ==> result.op.request == op.request
  {
    if result.Continues? {
      GoingOn(s.snapshots, op, now, result);
      if op.stage.Reading? {
        NewPut(s, op.request, now);
      }
    }
  }

  lemma ActorMovesKeeps(s: State, t: State, actor: nat, result: OpResult, now: Time)
    requires Inv(s) && NextStep(s, t, ActorMoves(actor, result, now))
    ensures Inv(t)
  {
    assert !WorkerRequest(s.actors[actor].request);
    ActorSends(s, s.actors[actor], now, result);
    SendingKeeps(s, t, SentBy(s.actors[actor], result));
  }

  lemma ActorsTurn(s: State, t: State, step: Step)
    requires AttemptsInv(s) && NextStep(s, t, step) && (step.ActorBegins? || step.ActorLeaves?)
    ensures t == s.(actors := t.actors) && forall w :: w in t.actors ==> !WorkerRequest(t.actors[w].request)
  {
  }

  lemma ActorTurnsKeep(s: State, t: State, step: Step)
    requires Inv(s) && NextStep(s, t, step) && (step.ActorBegins? || step.ActorLeaves?)
    ensures Inv(t)
  {
    ActorsTurn(s, t, step);
    assert s.sent + {} == s.sent;
    SendingKeeps(s, t, {});
  }

  /** A call that ends sends nothing. */
  lemma EndSendsNothing(s: State, t: State, id: ClaimId, result: OpResult, now: Time)
    requires NextStep(s, t, OpMoves(id, result, now)) && !result.Continues?
    ensures t == s.(attempts := s.attempts[id := t.attempts[id]])
  {
    assert s.sent + {} == s.sent;
  }

  lemma CallEnds(s: State, t: State, id: ClaimId, result: OpResult, now: Time)
    requires Inv(s) && NextStep(s, t, OpMoves(id, result, now)) && !result.Continues?
    ensures Inv(t)
  {
    EndSendsNothing(s, t, id, result, now);
    if s.attempts[id].phase.Claiming? {
      ClaimEndKeeps(s, t, id, result, now);
    } else {
      CallEndKeeps(s, t, id, result, now);
    }
  }

  lemma CallKeeps(s: State, t: State, id: ClaimId, result: OpResult, now: Time)
    requires Inv(s) && NextStep(s, t, OpMoves(id, result, now))
    ensures Inv(t)
  {
    if result.Continues? {
      CallGoesOn(s, t, id, result, now);
    } else {
      CallEnds(s, t, id, result, now);
    }
  }

  lemma CrashKeeps(s: State, t: State, id: ClaimId)
    requires Inv(s) && NextStep(s, t, Crashes(id))
    ensures Inv(t)
  {
    LeavingKeeps(s, t, id);
  }

  /** Every step keeps the invariant. */
  lemma NextKeepsInv(s: State, t: State, step: Step)
    requires Inv(s) && NextStep(s, t, step)
    ensures Inv(t)
  {
    match step
    case Arrives(put) => ArrivesKeeps(s, t, put);
    case SendsFirst(put) => SendsFirstKeeps(s, t, put);
    case Begins(id, index) => BeginsKeeps(s, t, id, index);
    case OpMoves(id, result, now) => CallKeeps(s, t, id, result, now);
    case Working(id, now) => WorkKeeps(s, t, id, now);
    case Crashes(id) => CrashKeeps(s, t, id);
    case ActorBegins(_, _) => ActorTurnsKeep(s, t, step);
    case ActorMoves(actor, result, now) => ActorMovesKeeps(s, t, actor, result, now);
    case ActorLeaves(_) => ActorTurnsKeep(s, t, step);
  }

  /** The step a run takes from its state `i`. */
  lemma StepOf(states: seq<State>, i: nat) returns (step: Step)
    requires IsRun(states) && i + 1 < |states|
    ensures NextStep(states[i], states[i + 1], step)
  {
    assert Next(states[i], states[i + 1]);
    step :| NextStep(states[i], states[i + 1], step);
  }

  lemma StepKeepsInv(states: seq<State>, i: nat)
    requires IsRun(states) && i + 1 < |states| && Inv(states[i])
    ensures Inv(states[i + 1])
  {
    var step := StepOf(states, i);
    NextKeepsInv(states[i], states[i + 1], step);
  }

  /** The invariant holds in every state of every run. */
  lemma {:induction false} InvHolds(states: seq<State>, i: nat)
    requires IsRun(states) && i < |states|
    ensures Inv(states[i])
  {
    if i > 0 {
      InvHolds(states, i - 1);
      StepKeepsInv(states, i - 1);
    }
  }
}
