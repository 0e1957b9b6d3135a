/**
 * The evaluation record as many processes update it: a log of create-only snapshots, the loop
 * of updateEvaluation, and the attempts of executeTrial around their claims.
 *
 * Every read, write request, write arrival, acknowledgement, existence check and crash is a step of
 * its own. A write once sent may reach the store at any later time, or never, whatever its sender
 * was told: that covers a write that is saved but reported as failed, one that lands after its
 * sender gave up or died, and one whose identical content another writer already saved.
 */
module EvaluationProtocol {
  import opened Wrappers
  import opened EvaluationRecord

  /** A snapshot on its way to the store; `change` and `now` record which change produced it (nothing for a first snapshot). */
  datatype Put = Put(run: Run, change: Request, now: Time)

  /** Where an updateEvaluation call is in its loop. */
  datatype Stage =
    | Reading
    | Putting(put: Put)
    | Checking(put: Put)

  datatype Op = Op(request: Request, stage: Stage)

  /** What one step of the loop leads to. */
  datatype OpResult =
    | Continues(op: Op)
    | Returned(run: Run)
    | Threw(repeatSpend: bool)

  /** Where an attempt of executeTrial is. */
  datatype Phase =
    | Claiming
    | SettingUp
    | Marking
    | Solving
    | SavingLive
    | Requeueing
    | Recording
    | Left

  /** `trial` is the attempt's own copy, `solving` the flag set once startSolver returned, `refused`
      that startSolver found the claim lost. */
  datatype Attempt = Attempt(index: nat, phase: Phase, op: Option<Op>, trial: Option<Trial>, solving: bool, refused: bool)
  {
    /** Past the point where it could still start its solver, without having done so. */
    predicate NeverSolves() {
      !solving && !phase.Claiming? && !phase.SettingUp? && !phase.Marking?
    }
  }

  datatype State = State(
    initial: Run,
    snapshots: map<nat, Run>,
    sent: set<Put>,
    attempts: map<ClaimId, Attempt>,
    actors: map<nat, Op>)

  /** The change a closure applies when its snapshot was read, and the write it sends. */
  function PutOf(q: Request, now: Time, run: Run): Put
    requires Apply(q, now, run).Changed?
  {
    Put(Bumped(q, now, run), q, now)
  }

  /** getEvaluation reads the snapshot with the greatest key. */
  ghost predicate IsLatest(snapshots: map<nat, Run>, k: nat) {
    k in snapshots && forall j :: j in snapshots ==> j <= k
  }

  /** One step of updateEvaluation's loop, seeing the snapshots as they are now. */
  ghost predicate OpStep(snapshots: map<nat, Run>, op: Op, now: Time, result: OpResult) {
    match op.stage
    case Reading =>
      || result == Threw(false)
      || exists k :: IsLatest(snapshots, k) && result == ReadResult(op.request, now, snapshots[k])
    case Putting(put) =>
      || result == Threw(false)
      || result == Continues(Op(op.request, Checking(put)))
      || (put.run.revision in snapshots && snapshots[put.run.revision] == put.run && result == Returned(put.run))
    case Checking(put) =>
      || result == Threw(false)
      || (put.run.revision in snapshots && result == Continues(Op(op.request, Reading)))
  }

  function ReadResult(q: Request, now: Time, latest: Run): OpResult {
    match Apply(q, now, latest)
    case Refused => Threw(true)
    case Unchanged => Returned(latest)
    case Changed(_) => Continues(Op(q, Putting(PutOf(q, now, latest))))
  }

  /** The write a step of the loop sends, if it sends one. */
  function SentBy(before: Op, result: OpResult): set<Put> {
    if before.stage.Reading? && result.Continues? && result.op.stage.Putting? then {result.op.stage.put} else {}
  }

  predicate WorkerRequest(q: Request) {
    q.Claim? || q.Mark? || q.Save? || q.Requeue?
  }

  function Idle(a: Attempt, phase: Phase): Attempt {
    a.(phase := phase, op := None)
  }

  function Doing(a: Attempt, phase: Phase, q: Request): Attempt {
    a.(phase := phase, op := Some(Op(q, Reading)))
  }

  /** An attempt whose solver never started fails before it: it returns the trial, or records why. */
  ghost predicate FailsBeforeSolver(id: ClaimId, a: Attempt, now: Time, next: Attempt)
    requires a.trial.Some?
  {
    || next == Doing(a, Requeueing, Requeue(id, a.index))
    || RecordsFailure(id, a, now, next)
  }

  ghost predicate RecordsFailure(id: ClaimId, a: Attempt, now: Time, next: Attempt)
    requires a.trial.Some?
  {
    exists reason: string :: next == RecordingFailure(id, a, now, reason)
  }

  function RecordingFailure(id: ClaimId, a: Attempt, now: Time, reason: string): Attempt
    requires a.trial.Some?
  {
    var trial := a.trial.value.(status := Failed, error := Some(reason), finishedAt := Some(now));
    Doing(a.(trial := Some(trial)), Recording, Save(id, a.index, trial))
  }

  /** What an attempt does when its updateEvaluation call returns or throws. */
  ghost predicate AfterOp(id: ClaimId, a: Attempt, result: OpResult, now: Time, next: Attempt)
    requires a.op.Some?
  {
    match result
    case Continues(op) => next == a.(op := Some(op))
    case Returned(run) =>
      (match a.phase
       case Claiming => a.index < |run.trials| && next == Idle(a, SettingUp).(trial := Some(run.trials[a.index]))
       case Marking =>
         && a.trial.Some? && a.op.value.request.Mark?
         && next == Idle(a, Solving).(solving := true, trial := Some(a.trial.value.(solverStartedAt := Some(a.op.value.request.at))))
       case SavingLive => next == Idle(a, Solving)
       case Requeueing => next == Idle(a, Left)
       case Recording => next == Idle(a, Left)
       case _ => false)
    case Threw(repeatSpend) =>
      (match a.phase
       case Claiming => next == Idle(a, Left)
       case Marking =>
         && a.trial.Some?
         && if repeatSpend then
              var trial := a.trial.value.(finishedAt := Some(now));
              next == Doing(a.(trial := Some(trial), refused := true), Recording, Save(id, a.index, trial))
            else FailsBeforeSolver(id, a, now, next)
       case SavingLive => next == Idle(a, Solving)
       case Requeueing => a.trial.Some? && RecordsFailure(id, a, now, next)
       case Recording => next == Idle(a, Left)
       case _ => false)
  }

  /** The solver's output so far, read into the attempt's copy of the trial. */
  function Writing(a: Attempt, output: Output): Attempt
    requires a.trial.Some?
  {
    a.(trial := Some(a.trial.value.(output := output)))
  }

  /** The attempt's own work between its writes. */
  ghost predicate Works(id: ClaimId, a: Attempt, now: Time, next: Attempt) {
    && a.op.None? && a.trial.Some?
    && match a.phase
       case SettingUp =>
         || next == Doing(a, Marking, Mark(id, a.index, now))
         || FailsBeforeSolver(id, a, now, next)
       case Solving =>
         || (exists output :: next == Writing(a, output))
         || next == Doing(a, SavingLive, Save(id, a.index, a.trial.value))
         || RecordsCompletion(id, a, now, next)
         || RecordsFailure(id, a, now, next)
       case _ => false
  }

  predicate RecordsCompletion(id: ClaimId, a: Attempt, now: Time, next: Attempt)
    requires a.trial.Some?
  {
    var trial := a.trial.value.(status := Completed, finishedAt := Some(now));
    next == Doing(a.(trial := Some(trial)), Recording, Save(id, a.index, trial))
  }

  /** A first snapshot: the initial record, or that record already cancelled (cancelComparison). */
  ghost predicate FirstSnapshot(initial: Run, run: Run) {
    || run == initial.(revision := 1)
    || exists login, now :: run == Cancelled(initial, login, now).(revision := 1)
  }

  datatype Step =
    | Arrives(put: Put)
    | SendsFirst(put: Put)
    | Begins(id: ClaimId, index: nat)
    | OpMoves(id: ClaimId, result: OpResult, now: Time)
    | Working(id: ClaimId, now: Time)
    | Crashes(id: ClaimId)
    | ActorBegins(actor: nat, q: Request)
    | ActorMoves(actor: nat, result: OpResult, now: Time)
    | ActorLeaves(actor: nat)

  ghost predicate NextStep(s: State, t: State, step: Step) {
    match step
    case Arrives(put) =>
      && put in s.sent
      && put.run.revision !in s.snapshots
      && t == s.(snapshots := s.snapshots[put.run.revision := put.run])
    case SendsFirst(put) =>
      && FirstSnapshot(s.initial, put.run)
      && put.change.Start?
      && t == s.(sent := s.sent + {put})
    case Begins(id, index) =>
      && id !in s.attempts
      && t == s.(attempts := s.attempts[id := Attempt(index, Claiming, Some(Op(Claim(id, index), Reading)), None, false, false)])
    case OpMoves(id, result, now) =>
      && id in s.attempts && s.attempts[id].op.Some?
      && OpStep(s.snapshots, s.attempts[id].op.value, now, result)
      && id in t.attempts
      && AfterOp(id, s.attempts[id], result, now, t.attempts[id])
      && t == s.(sent := s.sent + SentBy(s.attempts[id].op.value, result),
                 attempts := s.attempts[id := t.attempts[id]])
    case Working(id, now) =>
      && id in s.attempts && id in t.attempts
      && Works(id, s.attempts[id], now, t.attempts[id])
      && t == s.(attempts := s.attempts[id := t.attempts[id]])
    case Crashes(id) =>
      && id in s.attempts
      && t == s.(attempts := s.attempts[id := Idle(s.attempts[id], Left)])
    case ActorBegins(actor, q) =>
      && actor !in s.actors && !WorkerRequest(q)
      && t == s.(actors := s.actors[actor := Op(q, Reading)])
    case ActorMoves(actor, result, now) =>
      && actor in s.actors
      && OpStep(s.snapshots, s.actors[actor], now, result)
      && t == s.(sent := s.sent + SentBy(s.actors[actor], result),
                 actors := if result.Continues? then s.actors[actor := result.op] else s.actors - {actor})
    case ActorLeaves(actor) =>
      && actor in s.actors
      && t == s.(actors := s.actors - {actor})
  }

  ghost predicate Init(s: State) {
    && (forall i :: 0 <= i < |s.initial.trials| ==> s.initial.trials[i] == FreshTrial(s.initial.trials[i].taskId, s.initial.trials[i].harness))
    && s.initial.status.Queued? && s.initial.revision == 0
    && s.initial.finishedAt.None? && s.initial.error.None? && s.initial.deletedAt.None? && s.initial.deletedBy.None?
    && s.snapshots == map[] && s.sent == {} && s.attempts == map[] && s.actors == map[]
  }

  ghost predicate Next(s: State, t: State) {
    exists step :: NextStep(s, t, step)
  }

  /** A run of the system: every state from an initial one on, each a step after the one before. */
  ghost predicate IsRun(states: seq<State>) {
    && |states| > 0
    && Init(states[0])
    && forall i {:trigger Next(states[i], states[i + 1])} :: 0 <= i < |states| - 1 ==> Next(states[i], states[i + 1])
  }
}
