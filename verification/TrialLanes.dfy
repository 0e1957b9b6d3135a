/**
 * The lanes that run an evaluation's trials (runEvaluationTrials and runTrial, src/evaluation/workflow.ts).
 * Lanes share one counter and are interleaved between their awaits.
 */
module TrialLanes {
  import opened Wrappers
  import TrialInputs

  /** A lane about to look at the counter, running a trial, recording that it failed, or through. */
  datatype Lane = Ready | Running(index: nat) | Recording(index: nat) | Done | Rejected(index: nat)

  /** What has become of the evaluation once its lanes have settled. */
  datatype Outcome = Open | Finished | Threw

  /** `dispatched` are the indices handed out, in order; `settled` those whose runTrial returned. */
  datatype State = State(trials: nat, next: nat, lanes: seq<Lane>, dispatched: seq<nat>, settled: set<nat>, outcome: Outcome)

  /** How many lanes are made: no more than the trials, and none for a concurrency of zero or less. */
  function LaneCount(trials: nat, concurrency: int): nat {
    var least := if trials < concurrency then trials else concurrency;
    if least > 0 then least else 0
  }

  function Begun(trials: nat, concurrency: int): (s: State)
    ensures |s.lanes| == LaneCount(trials, concurrency) && forall l :: 0 <= l < |s.lanes| ==> s.lanes[l].Ready?
  {
    State(trials, 0, seq(LaneCount(trials, concurrency), _ => Ready), [], {}, Open)
  }

  datatype Step =
    | Takes(lane: nat)
    | Leaves(lane: nat)
    | Solves(lane: nat)
    | Fails(lane: nat)
    | Records(lane: nat)
    | Rejects(lane: nat)
    | Settles

  function With(s: State, lane: nat, now: Lane): State
    requires lane < |s.lanes|
  {
    s.(lanes := s.lanes[lane := now])
  }

  predicate Through(lane: Lane) {
    lane.Done? || lane.Rejected?
  }

  ghost predicate NextStep(s: State, t: State, step: Step) {
    match step
    case Takes(l) =>
      && l < |s.lanes| && s.lanes[l].Ready? && s.next < s.trials
      && t == With(s, l, Running(s.next)).(next := s.next + 1, dispatched := s.dispatched + [s.next])
    case Leaves(l) =>
      l < |s.lanes| && s.lanes[l].Ready? && s.next >= s.trials && t == With(s, l, Done)
    case Solves(l) =>
      l < |s.lanes| && s.lanes[l].Running? && t == With(s, l, Ready).(settled := s.settled + {s.lanes[l].index})
    case Fails(l) =>
      l < |s.lanes| && s.lanes[l].Running? && t == With(s, l, Recording(s.lanes[l].index))
    case Records(l) =>
      l < |s.lanes| && s.lanes[l].Recording? && t == With(s, l, Ready).(settled := s.settled + {s.lanes[l].index})
    case Rejects(l) =>
      l < |s.lanes| && (s.lanes[l].Running? || s.lanes[l].Recording?) && t == With(s, l, Rejected(s.lanes[l].index))
    case Settles =>
      && s.outcome.Open? && (forall l :: 0 <= l < |s.lanes| ==> Through(s.lanes[l]))
      && t == s.(outcome := if exists l :: 0 <= l < |s.lanes| && s.lanes[l].Rejected? then Threw else Finished)
  }

  ghost predicate Next(s: State, t: State) {
    exists step :: NextStep(s, t, step)
  }

  ghost predicate IsRun(states: seq<State>, trials: nat, concurrency: int) {
    && |states| > 0 && states[0] == Begun(trials, concurrency)
    && forall i {:trigger Next(states[i], states[i + 1])} :: 0 <= i < |states| - 1 ==> Next(states[i], states[i + 1])
  }

  /** The trial a lane has in hand, running or being recorded. */
  predicate InHand(lane: Lane, index: nat) {
    (lane.Running? || lane.Recording? || lane.Rejected?) && lane.index == index
  }

  ghost predicate InSomeHand(s: State, index: nat) {
    exists l :: 0 <= l < |s.lanes| && InHand(s.lanes[l], index)
  }

  /**
   * Indices are handed out in order, none twice; each is settled or with one lane; a lane leaves only
   * when none is left; the outcome is recorded only once every lane is through.
   */
  ghost predicate Inv(s: State) {
    Counted(s) && HeldRightly(s) && HeldOnce(s) && LeftRightly(s)
  }

  ghost predicate Counted(s: State) {
    && s.next <= s.trials
    && |s.dispatched| == s.next
    && (forall i :: 0 <= i < s.next ==> s.dispatched[i] == i)
    && (forall i :: i in s.settled ==> i < s.next)
    && (forall i: nat :: i < s.next ==> i in s.settled || InSomeHand(s, i))
  }

  ghost predicate HeldRightly(s: State) {
    forall l: nat, i: nat {:trigger InHand(s.lanes[l], i)} :: l < |s.lanes| && InHand(s.lanes[l], i) ==> i < s.next && i !in s.settled
  }

  ghost predicate HeldOnce(s: State) {
    forall l: nat, m: nat, i: nat :: l < |s.lanes| && m < |s.lanes| && InHand(s.lanes[l], i) && InHand(s.lanes[m], i) ==> l == m
  }

  ghost predicate LeftRightly(s: State) {
    && (forall l :: 0 <= l < |s.lanes| && s.lanes[l].Done? ==> s.next == s.trials)
    && (!s.outcome.Open? ==> forall l :: 0 <= l < |s.lanes| ==> Through(s.lanes[l]))
    && (s.outcome.Finished? ==> forall l :: 0 <= l < |s.lanes| ==> s.lanes[l].Done?)
  }

  lemma StillInHand(s: State, t: State, step: Step, index: nat)
    requires NextStep(s, t, step) && InSomeHand(s, index)
    ensures InSomeHand(t, index) || index in t.settled
  {
    var l :| 0 <= l < |s.lanes| && InHand(s.lanes[l], index);
    if l < |t.lanes| && InHand(t.lanes[l], index) {
      assert InSomeHand(t, index);
    }
  }

  lemma StepKeepsCounted(s: State, t: State, step: Step)
    requires Counted(s) && NextStep(s, t, step) && HeldRightly(s)
    ensures Counted(t)
  {
    forall i: nat | i < t.next
      ensures i in t.settled || InSomeHand(t, i)
    {
      if i < s.next {
        if i !in s.settled {
          StillInHand(s, t, step, i);
        }
      } else {
        assert InHand(t.lanes[step.lane], i);
      }
    }
    if step.Solves? || step.Records? {
      assert InHand(s.lanes[step.lane], s.lanes[step.lane].index);
    }
  }

  /** What lane `l` has in hand it had before, or took just now. */
  lemma HandBefore(s: State, t: State, step: Step, l: nat, i: nat)
    requires NextStep(s, t, step) && l < |t.lanes| && InHand(t.lanes[l], i)
    ensures |t.lanes| == |s.lanes|
    ensures InHand(s.lanes[l], i) || (step == Takes(l) && i == s.next)
    ensures InHand(s.lanes[l], i) ==> step != Takes(l) && step != Solves(l) && step != Records(l)
  {
  }

  /** A trial in hand before the step and not put down by it is not settled by it. */
  lemma SettledIsElsewhere(s: State, t: State, step: Step, l: nat, i: nat)
    requires NextStep(s, t, step) && HeldRightly(s) && HeldOnce(s) && l < |s.lanes|
    ensures InHand(s.lanes[l], i) && step != Solves(l) && step != Records(l) ==> i < s.next && i !in t.settled
  {
    if (step.Solves? || step.Records?) && InHand(s.lanes[l], i) {
      var m := step.lane;
      assert InHand(s.lanes[m], s.lanes[m].index);
      assert InHand(s.lanes[m], i) ==> l == m;
    }
  }

  lemma StepKeepsHands(s: State, t: State, step: Step)
    requires Counted(s) && HeldRightly(s) && HeldOnce(s) && NextStep(s, t, step)
    ensures HeldRightly(t) && HeldOnce(t)
  {
    forall l: nat, i: nat | l < |t.lanes| && InHand(t.lanes[l], i)
      ensures i < t.next && i !in t.settled
    {
      HandBefore(s, t, step, l, i);
      SettledIsElsewhere(s, t, step, l, i);
    }
    forall l: nat, m: nat, i: nat | l < |t.lanes| && m < |t.lanes| && InHand(t.lanes[l], i) && InHand(t.lanes[m], i)
      ensures l == m
    {
      HandBefore(s, t, step, l, i);
      HandBefore(s, t, step, m, i);
    }
  }

  lemma StepKeepsInv(s: State, t: State, step: Step)
    requires Inv(s) && NextStep(s, t, step)
    ensures Inv(t) && t.trials == s.trials && |t.lanes| == |s.lanes|
  {
    StepKeepsCounted(s, t, step);
    StepKeepsHands(s, t, step);
  }

  lemma StepAt(states: seq<State>, trials: nat, concurrency: int, i: nat) returns (step: Step)
    requires IsRun(states, trials, concurrency) && i + 1 < |states|
    ensures NextStep(states[i], states[i + 1], step)
  {
    assert Next(states[i], states[i + 1]);
    step :| NextStep(states[i], states[i + 1], step);
  }

  lemma {:induction false} InvHolds(states: seq<State>, trials: nat, concurrency: int, i: nat)
    requires IsRun(states, trials, concurrency) && i < |states|
    ensures Inv(states[i]) && states[i].trials == trials && |states[i].lanes| == LaneCount(trials, concurrency)
  {
    if i > 0 {
      InvHolds(states, trials, concurrency, i - 1);
      var step := StepAt(states, trials, concurrency, i - 1);
      StepKeepsInv(states[i - 1], states[i], step);
    }
  }

  // ---- What the lanes guarantee ----

  /** Every index is handed out at most once, in order. */
  lemma EachIndexOnce(states: seq<State>, trials: nat, concurrency: int, i: nat)
    requires IsRun(states, trials, concurrency) && i < |states|
    ensures forall k :: 0 <= k < |states[i].dispatched| ==> states[i].dispatched[k] == k < trials
  {
    InvHolds(states, trials, concurrency, i);
  }

  predicate InFlight(lane: Lane) {
    lane.Running? || lane.Recording?
  }

  function FlightsIn(lanes: seq<Lane>): nat {
    if lanes == [] then 0 else FlightsIn(lanes[..|lanes| - 1]) + if InFlight(lanes[|lanes| - 1]) then 1 else 0
  }

  lemma {:induction false} FlightsAtMostLanes(lanes: seq<Lane>)
    ensures FlightsIn(lanes) <= |lanes|
  {
    if lanes != [] {
      FlightsAtMostLanes(lanes[..|lanes| - 1]);
    }
  }

  /** No more than `concurrency` trials are ever in flight. */
  lemma AtMostConcurrencyInFlight(states: seq<State>, trials: nat, concurrency: int, i: nat)
    requires IsRun(states, trials, concurrency) && i < |states|
    ensures FlightsIn(states[i].lanes) <= if concurrency > 0 then concurrency else 0
  {
    InvHolds(states, trials, concurrency, i);
    FlightsAtMostLanes(states[i].lanes);
  }

  /** The first `n` lanes have each taken a trial. */
  predicate TakenUp(s: State, trials: nat, concurrency: int, n: nat) {
    && s.trials == trials && s.next == n && |s.lanes| == LaneCount(trials, concurrency) && n <= |s.lanes|
    && forall l :: 0 <= l < |s.lanes| ==> s.lanes[l] == if l < n then Running(l) else Ready
  }

  lemma {:induction false} LanesTakeUp(trials: nat, concurrency: int, n: nat) returns (states: seq<State>)
    requires n <= LaneCount(trials, concurrency)
    ensures IsRun(states, trials, concurrency) && TakenUp(states[|states| - 1], trials, concurrency, n)
  {
    if n == 0 {
      states := [Begun(trials, concurrency)];
    } else {
      var before := LanesTakeUp(trials, concurrency, n - 1);
      var s := before[|before| - 1];
      var t := With(s, n - 1, Running(s.next)).(next := s.next + 1, dispatched := s.dispatched + [s.next]);
      assert NextStep(s, t, Takes(n - 1));
      states := before + [t];
      forall i | 0 <= i < |states| - 1
        ensures Next(states[i], states[i + 1])
      {
        if i < |before| - 1 {
          assert Next(before[i], before[i + 1]);
        }
      }
    }
  }

  lemma {:induction false} AllInFlight(lanes: seq<Lane>)
    requires forall l :: 0 <= l < |lanes| ==> lanes[l].Running?
    ensures FlightsIn(lanes) == |lanes|
  {
    if lanes != [] {
      AllInFlight(lanes[..|lanes| - 1]);
    }
  }

  /** The concurrency is used: a run can have that many trials in flight at once, or all of them if they are fewer. */
  lemma ConcurrencyIsReached(trials: nat, concurrency: nat) returns (states: seq<State>)
    ensures IsRun(states, trials, concurrency)
    ensures FlightsIn(states[|states| - 1].lanes) == if trials < concurrency then trials else concurrency
  {
    states := LanesTakeUp(trials, concurrency, LaneCount(trials, concurrency));
    AllInFlight(states[|states| - 1].lanes);
  }

  /** Every trial was handed out and settled. */
  ghost predicate AllRan(s: State) {
    && s.dispatched == seq(s.trials, (i: nat) => i)
    && (forall i: nat :: i < s.trials ==> i in s.settled)
    && FlightsIn(s.lanes) == 0
  }

  lemma {:induction false} NoFlightsWhenThrough(lanes: seq<Lane>)
    requires forall l :: 0 <= l < |lanes| ==> Through(lanes[l])
    ensures FlightsIn(lanes) == 0
  {
    if lanes != [] {
      NoFlightsWhenThrough(lanes[..|lanes| - 1]);
    }
  }

  lemma FinishedAllRan(s: State, concurrency: int)
    requires Inv(s) && s.outcome.Finished? && |s.lanes| == LaneCount(s.trials, concurrency)
    requires s.trials == 0 || concurrency >= 1
    ensures AllRan(s)
  {
    NoFlightsWhenThrough(s.lanes);
    if s.trials > 0 {
      assert s.lanes[0].Done?;
    }
    forall i: nat | i < s.trials
      ensures i in s.settled
    {
      assert i in s.settled || InSomeHand(s, i);
    }
  }

  ghost predicate FinishMeansAllRan(trials: nat, concurrency: int) {
    forall states: seq<State>, i :: IsRun(states, trials, concurrency) && 0 <= i < |states| && states[i].outcome.Finished? ==> AllRan(states[i])
  }

  /** With no lanes and trials to run, the evaluation is finished at once. */
  lemma FinishesWithoutLanes(trials: nat, concurrency: int)
    requires trials > 0 && concurrency < 1
    ensures !FinishMeansAllRan(trials, concurrency)
  {
    var s := Begun(trials, concurrency);
    var t := s.(outcome := Finished);
    assert NextStep(s, t, Settles);
    var states := [s, t];
    assert Next(states[0], states[1]);
    assert IsRun(states, trials, concurrency) && states[1].outcome.Finished?;
    assert |t.dispatched| == 0;
  }

  /** The outcome is recorded only after every trial was handed out and settled exactly when there is a lane to run them. */
  lemma FinishMeansAllRanExactlyWhen(trials: nat, concurrency: int)
    ensures FinishMeansAllRan(trials, concurrency) <==> trials == 0 || concurrency >= 1
  {
    if trials == 0 || concurrency >= 1 {
      forall states: seq<State>, i | IsRun(states, trials, concurrency) && 0 <= i < |states| && states[i].outcome.Finished?
        ensures AllRan(states[i])
      {
        InvHolds(states, trials, concurrency, i);
        FinishedAllRan(states[i], concurrency);
      }
    } else {
      FinishesWithoutLanes(trials, concurrency);
    }
  }

  /** A rejected lane is never followed by the outcome being recorded as finished. */
  lemma RejectionIsNotFinished(states: seq<State>, trials: nat, concurrency: int, i: nat, l: nat)
    requires IsRun(states, trials, concurrency) && i < |states| && l < |states[i].lanes| && states[i].lanes[l].Rejected?
    ensures !states[i].outcome.Finished?
  {
    InvHolds(states, trials, concurrency, i);
  }

  // ---- The evaluations of one comparison ----

  const MAX_PENDING := 1_000

  /** The concurrency an evaluation runs at. */
  function ConcurrencyOf(input: TrialInputs.Input): int {
    if input.maxTrials.Some? && input.maxTrials.value < MAX_PENDING then input.maxTrials.value else MAX_PENDING
  }

  /** The trials in flight of the evaluations that use credential `id`; `lanes[i]` are those of input `i`. */
  function FlightsUsing(inputs: seq<TrialInputs.Input>, lanes: seq<seq<Lane>>, id: string): nat
    requires |lanes| == |inputs|
  {
    if inputs == [] then 0
    else
      var n := |inputs| - 1;
      FlightsUsing(inputs[..n], lanes[..n], id) + if TrialInputs.Uses(inputs[n], id) then FlightsIn(lanes[n]) else 0
  }

  lemma {:induction false} FlightsWithinShares(inputs: seq<TrialInputs.Input>, lanes: seq<seq<Lane>>, id: string)
    requires |lanes| == |inputs|
    requires forall i :: 0 <= i < |inputs| && TrialInputs.Uses(inputs[i], id) ==>
               inputs[i].maxTrials.Some? && FlightsIn(lanes[i]) <= ConcurrencyOf(inputs[i])
    ensures FlightsUsing(inputs, lanes, id) <= TrialInputs.Together(inputs, id)
  {
    if inputs != [] {
      var n := |inputs| - 1;
      FlightsWithinShares(inputs[..n], lanes[..n], id);
    }
  }

  /**
   * Evaluations of one comparison sharing a credential, each part way through a run of its own, have
   * no more trials in flight than its limit, or than one each if they are more.
   */
  lemma CredentialLimitIsKept(inputs: seq<TrialInputs.Input>, limitOf: string -> Option<nat>, id: string,
                              runs: seq<seq<State>>, trials: seq<nat>, at: seq<nat>, lanes: seq<seq<Lane>>)
    requires id != "" && limitOf(id).Some? && limitOf(id).value > 0
    requires |runs| == |trials| == |at| == |lanes| == |inputs|
    requires forall i :: 0 <= i < |inputs| ==>
               && IsRun(runs[i], trials[i], ConcurrencyOf(TrialInputs.Split(inputs, limitOf)[i]))
               && at[i] < |runs[i]| && lanes[i] == runs[i][at[i]].lanes
    ensures FlightsUsing(TrialInputs.Split(inputs, limitOf), lanes, id)
            <= if limitOf(id).value > TrialInputs.Sharing(inputs, id) then limitOf(id).value else TrialInputs.Sharing(inputs, id)
  {
    var split := TrialInputs.Split(inputs, limitOf);
    TrialInputs.LimitIsKept(inputs, limitOf, id);
    forall i | 0 <= i < |inputs|
      ensures FlightsIn(lanes[i]) <= ConcurrencyOf(split[i])
      ensures TrialInputs.Uses(split[i], id) ==> split[i].maxTrials.Some?
    {
      AtMostConcurrencyInFlight(runs[i], trials[i], ConcurrencyOf(split[i]), at[i]);
    }
    FlightsWithinShares(split, lanes, id);
  }

  /**
   * However a comparison's limits are split, each of its evaluations records its outcome only after
   * all its trials were handed out and settled: no share is less than one, so there is a lane.
   */
  lemma EachEvaluationRunsItsTrials(inputs: seq<TrialInputs.Input>, limitOf: string -> Option<nat>, i: nat, trials: nat)
    requires i < |inputs| && inputs[i].maxTrials != Some(0)
    ensures var split := TrialInputs.Split(inputs, limitOf)[i];
            && ConcurrencyOf(split) >= 1
            && ConcurrencyOf(split) == if split.maxTrials.Some? && split.maxTrials.value <= 1_000 then split.maxTrials.value else 1_000
    ensures FinishMeansAllRan(trials, ConcurrencyOf(TrialInputs.Split(inputs, limitOf)[i]))
  {
    FinishMeansAllRanExactlyWhen(trials, ConcurrencyOf(TrialInputs.Split(inputs, limitOf)[i]));
  }
}
