/**
 * The protocol's guarantees are about something: a run in which an attempt claims a trial and
 * starts its solver.
 */
module EvaluationWitness {
  import opened Wrappers
  import opened EvaluationRecord
  import opened EvaluationProtocol
  import opened EvaluationGuarantees

  const TRIAL := FreshTrial("task", "pi")
  const INITIAL := Run("run", 0, "2024", Queued, [TRIAL], None, None, None, None)
  const FIRST := INITIAL.(revision := 1)
  const STARTED := FIRST.(revision := 2, status := Running)
  const CLAIMED_TRIAL := TRIAL.(status := Running, claim := Some("a"), startedAt := Some(2))
  const CLAIMED := STARTED.(revision := 3, trials := [CLAIMED_TRIAL])
  const MARKED := CLAIMED.(revision := 4, trials := [CLAIMED_TRIAL.(solverStartedAt := Some(3))])

  const PUT_FIRST := Put(FIRST, Start, 0)
  const PUT_STARTED := Put(STARTED, Start, 1)
  const PUT_CLAIMED := Put(CLAIMED, Claim("a", 0), 2)
  const PUT_MARKED := Put(MARKED, Mark("a", 0, 3), 3)

  lemma Changes()
    ensures Apply(Start, 1, FIRST).Changed? && PutOf(Start, 1, FIRST) == PUT_STARTED
    ensures Apply(Claim("a", 0), 2, STARTED).Changed? && PutOf(Claim("a", 0), 2, STARTED) == PUT_CLAIMED
    ensures Apply(Mark("a", 0, 3), 3, CLAIMED).Changed? && PutOf(Mark("a", 0, 3), 3, CLAIMED) == PUT_MARKED
  {
    assert [TRIAL][0 := CLAIMED_TRIAL] == [CLAIMED_TRIAL];
    assert [CLAIMED_TRIAL][0 := CLAIMED_TRIAL.(solverStartedAt := Some(3))] == MARKED.trials;
  }

  /** The log's states: empty, then holding the first `n` snapshots. */
  function Log(n: nat): map<nat, Run> {
    if n == 0 then map[]
    else if n == 1 then map[1 := FIRST]
    else if n == 2 then map[1 := FIRST, 2 := STARTED]
    else if n == 3 then map[1 := FIRST, 2 := STARTED, 3 := CLAIMED]
    else map[1 := FIRST, 2 := STARTED, 3 := CLAIMED, 4 := MARKED]
  }

  function Sent(n: nat): set<Put> {
    if n == 0 then {}
    else if n == 1 then {PUT_FIRST}
    else if n == 2 then {PUT_FIRST, PUT_STARTED}
    else if n == 3 then {PUT_FIRST, PUT_STARTED, PUT_CLAIMED}
    else {PUT_FIRST, PUT_STARTED, PUT_CLAIMED, PUT_MARKED}
  }

  const CLAIMING := Attempt(0, Claiming, Some(Op(Claim("a", 0), Reading)), None, false, false)
  const CLAIM_SENT := CLAIMING.(op := Some(Op(Claim("a", 0), Putting(PUT_CLAIMED))))
  const SETTING_UP := Attempt(0, SettingUp, None, Some(CLAIMED_TRIAL), false, false)
  const MARKING := Attempt(0, Marking, Some(Op(Mark("a", 0, 3), Reading)), Some(CLAIMED_TRIAL), false, false)
  const MARK_SENT := MARKING.(op := Some(Op(Mark("a", 0, 3), Putting(PUT_MARKED))))
  const SOLVING := Attempt(0, Solving, None, Some(CLAIMED_TRIAL.(solverStartedAt := Some(3))), true, false)

  function At(sent: nat, log: nat, attempts: map<ClaimId, Attempt>, actors: map<nat, Op>): State {
    State(INITIAL, Log(log), Sent(sent), attempts, actors)
  }

  function Story(i: nat): State
    requires i < 14
  {
    match i
    case 0 => At(0, 0, map[], map[])
    case 1 => At(1, 0, map[], map[])
    case 2 => At(1, 1, map[], map[])
    case 3 => At(1, 1, map[], map[7 := Op(Start, Reading)])
    case 4 => At(2, 1, map[], map[7 := Op(Start, Putting(PUT_STARTED))])
    case 5 => At(2, 2, map[], map[7 := Op(Start, Putting(PUT_STARTED))])
    case 6 => At(2, 2, map["a" := CLAIMING], map[7 := Op(Start, Putting(PUT_STARTED))])
    case 7 => At(3, 2, map["a" := CLAIM_SENT], map[7 := Op(Start, Putting(PUT_STARTED))])
    case 8 => At(3, 3, map["a" := CLAIM_SENT], map[7 := Op(Start, Putting(PUT_STARTED))])
    case 9 => At(3, 3, map["a" := SETTING_UP], map[7 := Op(Start, Putting(PUT_STARTED))])
    case 10 => At(3, 3, map["a" := MARKING], map[7 := Op(Start, Putting(PUT_STARTED))])
    case 11 => At(4, 3, map["a" := MARK_SENT], map[7 := Op(Start, Putting(PUT_STARTED))])
    case 12 => At(4, 4, map["a" := MARK_SENT], map[7 := Op(Start, Putting(PUT_STARTED))])
    case 13 => At(4, 4, map["a" := SOLVING], map[7 := Op(Start, Putting(PUT_STARTED))])
  }

  lemma RecordIsCreated()
    ensures Next(Story(0), Story(1)) && Next(Story(1), Story(2))
  {
    assert NextStep(Story(0), Story(1), SendsFirst(PUT_FIRST));
    assert NextStep(Story(1), Story(2), Arrives(PUT_FIRST));
  }

  lemma RunIsStarted()
    ensures Next(Story(2), Story(3)) && Next(Story(3), Story(4)) && Next(Story(4), Story(5))
  {
    Changes();
    assert NextStep(Story(2), Story(3), ActorBegins(7, Start));
    assert IsLatest(Log(1), 1);
    assert NextStep(Story(3), Story(4), ActorMoves(7, ReadResult(Start, 1, FIRST), 1));
    assert NextStep(Story(4), Story(5), Arrives(PUT_STARTED));
  }

  lemma AttemptBegins()
    ensures Next(Story(5), Story(6))
  {
    assert NextStep(Story(5), Story(6), Begins("a", 0));
  }

  lemma TrialIsClaimed()
    ensures Next(Story(6), Story(7))
  {
    Changes();
    assert IsLatest(Log(2), 2);
    assert NextStep(Story(6), Story(7), OpMoves("a", ReadResult(Claim("a", 0), 2, STARTED), 2));
  }

  lemma ClaimIsSaved()
    ensures Next(Story(7), Story(8))
  {
    assert NextStep(Story(7), Story(8), Arrives(PUT_CLAIMED));
  }

  lemma ClaimReturns()
    ensures Next(Story(8), Story(9))
  {
    assert OpStep(Log(3), CLAIM_SENT.op.value, 3, Returned(CLAIMED));
    assert AfterOp("a", CLAIM_SENT, Returned(CLAIMED), 3, SETTING_UP);
    assert NextStep(Story(8), Story(9), OpMoves("a", Returned(CLAIMED), 3));
  }

  lemma TrialIsSetUp()
    ensures Next(Story(9), Story(10))
  {
    assert Works("a", SETTING_UP, 3, MARKING);
    assert NextStep(Story(9), Story(10), Working("a", 3));
  }

  lemma MarkIsSent()
    ensures Next(Story(10), Story(11))
  {
    Changes();
    assert IsLatest(Log(3), 3);
    assert NextStep(Story(10), Story(11), OpMoves("a", ReadResult(Mark("a", 0, 3), 3, CLAIMED), 3));
  }

  lemma MarkIsSaved()
    ensures Next(Story(11), Story(12))
  {
    assert NextStep(Story(11), Story(12), Arrives(PUT_MARKED));
  }

  lemma SolverStarts()
    ensures Next(Story(12), Story(13)) && StartsSolver(Story(12), Story(13), "a", 0)
  {
    assert OpStep(Log(4), MARK_SENT.op.value, 4, Returned(MARKED));
    assert AfterOp("a", MARK_SENT, Returned(MARKED), 4, SOLVING);
    assert NextStep(Story(12), Story(13), OpMoves("a", Returned(MARKED), 4));
  }

  lemma StoryGoesOn(i: nat)
    requires i < 13
    ensures Next(Story(i), Story(i + 1))
  {
    if i < 2 {
      RecordIsCreated();
      assert i == 0 || i == 1;
    } else if i < 5 {
      RunIsStarted();
      assert i == 2 || i == 3 || i == 4;
    } else if i < 7 {
      AttemptBegins();
      TrialIsClaimed();
      assert i == 5 || i == 6;
    } else if i < 10 {
      ClaimIsSaved();
      ClaimReturns();
      TrialIsSetUp();
      assert i == 7 || i == 8 || i == 9;
    } else if i < 12 {
      MarkIsSent();
      MarkIsSaved();
      assert i == 10 || i == 11;
    } else {
      SolverStarts();
      assert i == 12;
    }
  }

  /** There is a run in which a solver starts. */
  lemma ASolverCanStart() returns (states: seq<State>)
    ensures IsRun(states) && |states| == 14
    ensures StartsSolver(states[12], states[13], "a", 0)
  {
    states := seq(14, i requires 0 <= i < 14 => Story(i));
    forall i | 0 <= i < |states| - 1
      ensures Next(states[i], states[i + 1])
    {
      StoryGoesOn(i);
    }
    SolverStarts();
    assert Init(states[0]);
  }
}
