/**
 * An evaluation's input cut to one trial, and credentials' limits split between evaluations
 * (src/evaluation/trial-input.ts, initialEvaluation in src/evaluation/store.ts).
 */
module TrialInputs {
  import opened Wrappers
  import opened EvaluationRecord

  datatype Task = Task(taskId: string, runId: string)

  datatype Credentials = Credentials(sandboxCredentialId: string, modelCredentialId: string)

  datatype Input = Input(id: string, tasks: seq<Task>, harnesses: seq<string>, credentials: Option<Credentials>, maxTrials: Option<nat>)

  // ---- The trials of an evaluation ----

  function TrialsOfTask(task: Task, harnesses: seq<string>): (trials: seq<Trial>)
    ensures |trials| == |harnesses|
  {
    seq(|harnesses|, j requires 0 <= j < |harnesses| => FreshTrial(task.taskId, harnesses[j]))
  }

  /** The trials as initialEvaluation orders them: task by task, one per harness. */
  function InitialTrials(tasks: seq<Task>, harnesses: seq<string>): seq<Trial> {
    if tasks == [] then [] else TrialsOfTask(tasks[0], harnesses) + InitialTrials(tasks[1..], harnesses)
  }

  /** The task trial `index` runs, if there is one. */
  function TaskIndex(input: Input, index: nat): Option<nat> {
    if input.harnesses == [] || index / |input.harnesses| >= |input.tasks| then None
    else Some(index / |input.harnesses|)
  }

  function TrialInput(input: Input, index: nat): Input {
    match TaskIndex(input, index)
    case Some(t) => assert t < |input.tasks|; input.(tasks := [input.tasks[t]])
    case None => input.(tasks := [])
  }

  lemma QuotientStep(index: nat, n: nat)
    requires n > 0 && index >= n
    ensures index / n == (index - n) / n + 1 && index % n == (index - n) % n
  {
    assert index == n * (index / n) + index % n;
    assert index - n == n * (index / n - 1) + index % n;
    QuotientIs(index - n, n, index / n - 1, index % n);
  }

  lemma QuotientIs(a: nat, n: nat, q: nat, r: nat)
    requires n > 0 && a == n * q + r && r < n
    ensures a / n == q && a % n == r
  {
    var k := a / n;
    assert a == n * k + a % n;
    if k > q {
      Multiples(n, q, k);
    } else if k < q {
      Multiples(n, k, q);
    }
  }

  lemma {:induction false} Multiples(n: nat, x: nat, y: nat)
    requires x < y
    ensures n * x + n <= n * y
    decreases y - x
  {
    if y == x + 1 {
      assert n * (x + 1) == n * x + n;
    } else {
      Multiples(n, x, y - 1);
      assert n * y == n * (y - 1) + n;
    }
  }

  lemma {:induction false} TrialOfTask(tasks: seq<Task>, harnesses: seq<string>, index: nat)
    requires harnesses != []
    ensures index < |InitialTrials(tasks, harnesses)| <==> index / |harnesses| < |tasks|
    ensures index < |InitialTrials(tasks, harnesses)| ==>
              InitialTrials(tasks, harnesses)[index]
              == FreshTrial(tasks[index / |harnesses|].taskId, harnesses[index % |harnesses|])
  {
    var n := |harnesses|;
    if tasks != [] {
      if index < n {
        QuotientIs(index, n, 0, index);
      } else {
        QuotientStep(index, n);
        TrialOfTask(tasks[1..], harnesses, index - n);
      }
    }
  }

  /** A trial begins queued, with nothing done and nobody holding it. */
  lemma InitialTrialsAreUntouched(tasks: seq<Task>, harnesses: seq<string>, index: nat)
    requires harnesses != [] && index / |harnesses| < |tasks|
    ensures index < |InitialTrials(tasks, harnesses)|
    ensures var trial := InitialTrials(tasks, harnesses)[index];
            && trial.taskId == tasks[index / |harnesses|].taskId && trial.harness == harnesses[index % |harnesses|]
            && trial.status == Queued && trial.claim == None && trial.startedAt == None && trial.solverStartedAt == None
            && trial.finishedAt == None && trial.error == None && trial.failureSummary == None
            && trial.output == Output(None, "", [], [])
  {
    TrialOfTask(tasks, harnesses, index);
  }

  /** A trial's input names exactly the task of that trial in the record; there is no task for an index past the trials. */
  lemma TrialInputNamesItsTask(input: Input, index: nat)
    ensures var trials := InitialTrials(input.tasks, input.harnesses);
            if index < |trials| then
              && |TrialInput(input, index).tasks| == 1
              && trials[index].taskId == TrialInput(input, index).tasks[0].taskId
              && trials[index].harness == input.harnesses[index % |input.harnesses|]
            else TrialInput(input, index).tasks == []
    ensures TrialInput(input, index).(tasks := input.tasks) == input
    ensures input.harnesses != [] && index / |input.harnesses| < |input.tasks| ==>
              TrialInput(input, index).tasks == [input.tasks[index / |input.harnesses|]]
  {
    if input.harnesses == [] {
      NoHarnessNoTrial(input.tasks);
    } else {
      TrialOfTask(input.tasks, input.harnesses, index);
    }
  }

  lemma {:induction false} NoHarnessNoTrial(tasks: seq<Task>)
    ensures InitialTrials(tasks, []) == []
  {
    if tasks != [] {
      NoHarnessNoTrial(tasks[1..]);
    }
  }

  // ---- Credentials' limits ----

  /** The evaluation's trials hold a slot of credential `id`. */
  predicate Uses(input: Input, id: string) {
    input.credentials.Some? && (input.credentials.value.sandboxCredentialId == id || input.credentials.value.modelCredentialId == id)
  }

  function Sharing(inputs: seq<Input>, id: string): nat {
    if inputs == [] then 0
    else Sharing(inputs[..|inputs| - 1], id) + if Uses(inputs[|inputs| - 1], id) then 1 else 0
  }

  /** The share of one evaluation; none is no limit. A limit of zero counts as none. */
  function Share(inputs: seq<Input>, limitOf: string -> Option<nat>, id: string): Option<nat> {
    var limit := if id == "" then None else limitOf(id);
    if limit.None? || limit.value == 0 || Sharing(inputs, id) == 0 then None
    else Some(if limit.value / Sharing(inputs, id) > 1 then limit.value / Sharing(inputs, id) else 1)
  }

  function LeastShare(a: Option<nat>, b: Option<nat>): Option<nat> {
    if a.None? then b else if b.None? then a else if a.value < b.value then a else b
  }

  /** What splitting makes of one of `inputs`. */
  function Limited(inputs: seq<Input>, limitOf: string -> Option<nat>, input: Input): Input {
    var c := input.credentials;
    var maxTrials := if c.None? then None
                     else LeastShare(Share(inputs, limitOf, c.value.sandboxCredentialId), Share(inputs, limitOf, c.value.modelCredentialId));
    if maxTrials.Some? then input.(maxTrials := maxTrials) else input
  }

  function Split(inputs: seq<Input>, limitOf: string -> Option<nat>): (split: seq<Input>)
    ensures |split| == |inputs| && forall i :: 0 <= i < |inputs| ==> split[i] == Limited(inputs, limitOf, inputs[i])
  {
    seq(|inputs|, i requires 0 <= i < |inputs| => Limited(inputs, limitOf, inputs[i]))
  }

  /** A limit is nobody's business but the credentials': splitting some inputs changes no one's share. */
  lemma {:induction false} SharingUnchanged(a: seq<Input>, b: seq<Input>, id: string)
    requires |a| == |b| && forall i :: 0 <= i < |a| ==> a[i].credentials == b[i].credentials
    ensures Sharing(a, id) == Sharing(b, id)
  {
    if a != [] {
      SharingUnchanged(a[..|a| - 1], b[..|b| - 1], id);
    }
  }

  lemma LimitedUnchanged(a: seq<Input>, b: seq<Input>, limitOf: string -> Option<nat>, input: Input)
    requires |a| == |b| && forall i :: 0 <= i < |a| ==> a[i].credentials == b[i].credentials
    ensures Limited(a, limitOf, input) == Limited(b, limitOf, input)
  {
    if input.credentials.Some? {
      SharingUnchanged(a, b, input.credentials.value.sandboxCredentialId);
      SharingUnchanged(a, b, input.credentials.value.modelCredentialId);
    }
  }

  method SplitCredentialLimits(inputs: array<Input>, limitOf: string -> Option<nat>)
    modifies inputs
    ensures inputs[..] == Split(old(inputs[..]), limitOf)
  {
    ghost var before := inputs[..];
    for k := 0 to inputs.Length
      invariant forall i :: 0 <= i < k ==> inputs[i] == Limited(before, limitOf, before[i])
      invariant forall i :: k <= i < inputs.Length ==> inputs[i] == before[i]
    {
      var now := inputs[..];
      forall i | 0 <= i < |before|
        ensures now[i].credentials == before[i].credentials
      {
      }
      LimitedUnchanged(now, before, limitOf, before[k]);
      inputs[k] := Limited(now, limitOf, inputs[k]);
    }
  }

  /** The trials that the evaluations using `id` may run together. */
  function Together(inputs: seq<Input>, id: string): nat {
    if inputs == [] then 0
    else
      var last := inputs[|inputs| - 1];
      Together(inputs[..|inputs| - 1], id) + if Uses(last, id) && last.maxTrials.Some? then last.maxTrials.value else 0
  }

  lemma {:induction false} TogetherWithin(inputs: seq<Input>, id: string, each: nat)
    requires forall i :: 0 <= i < |inputs| && Uses(inputs[i], id) ==> inputs[i].maxTrials.Some? && inputs[i].maxTrials.value <= each
    ensures Together(inputs, id) <= Sharing(inputs, id) * each
  {
    if inputs != [] {
      TogetherWithin(inputs[..|inputs| - 1], id, each);
    }
  }

  lemma SharedOut(limit: nat, n: nat)
    requires n > 0
    ensures n * (if limit / n > 1 then limit / n else 1) <= if limit > n then limit else n
  {
    assert limit == n * (limit / n) + limit % n;
  }

  lemma {:induction false} SharedBySomeone(inputs: seq<Input>, id: string, i: nat)
    requires i < |inputs| && Uses(inputs[i], id)
    ensures Sharing(inputs, id) > 0
  {
    if i < |inputs| - 1 {
      SharedBySomeone(inputs[..|inputs| - 1], id, i);
    }
  }

  /**
   * Evaluations that split a credential's limit run at most that many trials together, or one each
   * if they are more than the limit; each may run at least one.
   */
  lemma LimitIsKept(inputs: seq<Input>, limitOf: string -> Option<nat>, id: string)
    requires id != "" && limitOf(id).Some? && limitOf(id).value > 0
    ensures var split := Split(inputs, limitOf);
            && (forall i :: 0 <= i < |inputs| && Uses(inputs[i], id) ==>
                  split[i].maxTrials.Some? && 1 <= split[i].maxTrials.value)
            && Together(split, id)
               <= if limitOf(id).value > Sharing(inputs, id) then limitOf(id).value else Sharing(inputs, id)
  {
    var split := Split(inputs, limitOf);
    SharingUnchanged(split, inputs, id);
    if Sharing(inputs, id) > 0 {
      var each := Share(inputs, limitOf, id).value;
      forall i | 0 <= i < |inputs| && Uses(inputs[i], id)
        ensures split[i].maxTrials.Some? && 1 <= split[i].maxTrials.value <= each
      {
      }
      TogetherWithin(split, id, each);
      SharedOut(limitOf(id).value, Sharing(inputs, id));
    } else {
      forall i | 0 <= i < |inputs|
        ensures !Uses(inputs[i], id)
      {
        if Uses(inputs[i], id) { SharedBySomeone(inputs, id, i); }
      }
      TogetherWithin(split, id, 0);
    }
  }

  /** A credential without a limit, or with a limit of zero, caps nothing. */
  lemma NoLimitNoCap(inputs: seq<Input>, limitOf: string -> Option<nat>, i: nat)
    requires i < |inputs| && inputs[i].credentials.Some?
    requires var c := inputs[i].credentials.value;
             forall id :: id == c.sandboxCredentialId || id == c.modelCredentialId ==>
               id == "" || limitOf(id).None? || limitOf(id).value == 0
    ensures Split(inputs, limitOf)[i] == inputs[i]
  {
  }

  // ---- Shares are as large as they may be ----

  /** Where the inputs are that use the credential. */
  function Users(inputs: seq<Input>, id: string): set<nat> {
    set k: nat | k < |inputs| && Uses(inputs[k], id)
  }

  lemma {:induction false} SharingCountsUsers(inputs: seq<Input>, id: string)
    ensures Sharing(inputs, id) == |Users(inputs, id)|
  {
    if inputs == [] {
      assert Users(inputs, id) == {};
    } else {
      var n := |inputs| - 1;
      SharingCountsUsers(inputs[..n], id);
      assert Users(inputs, id) == Users(inputs[..n], id) + if Uses(inputs[n], id) then {n} else {};
    }
  }

  /** The input uses the credential, which has a limit. */
  predicate IsLimited(input: Input, limitOf: string -> Option<nat>, id: string) {
    Uses(input, id) && id != "" && limitOf(id) != None && limitOf(id) != Some(0)
  }

  /** `trials` each for all that use the credential is within its limit, or is one. */
  predicate FitsLimit(inputs: seq<Input>, limitOf: string -> Option<nat>, id: string, trials: nat)
    requires limitOf(id).Some?
  {
    trials == 1 || trials * |Users(inputs, id)| <= limitOf(id).value
  }

  lemma ShareIsLargest(inputs: seq<Input>, limitOf: string -> Option<nat>, i: nat, id: string)
    requires i < |inputs| && IsLimited(inputs[i], limitOf, id)
    ensures var share := Share(inputs, limitOf, id);
            share.Some? && share.value >= 1
            && forall trials: nat :: trials >= 1 ==> (FitsLimit(inputs, limitOf, id, trials) <==> trials <= share.value)
  {
    SharingCountsUsers(inputs, id);
    SharedBySomeone(inputs, id, i);
    var n, limit := Sharing(inputs, id), limitOf(id).value;
    forall trials: nat | trials >= 1
      ensures FitsLimit(inputs, limitOf, id, trials) <==> trials <= Share(inputs, limitOf, id).value
    {
      WholeShares(limit, n, trials);
    }
  }

  lemma WholeShares(limit: nat, n: nat, trials: nat)
    requires n > 0
    ensures trials * n <= limit <==> trials <= limit / n
  {
    var share := limit / n;
    assert n * share <= limit < n * share + n;
    if trials < share {
      Multiples(n, trials, share);
    } else if share < trials {
      Multiples(n, share, trials);
    }
    assert trials * n == n * trials;
  }

  /** Splitting changes only how many trials an evaluation may run together: the most that fits every
      limit of its credentials when all their users run that many, and at least one. */
  lemma EachShareIsLargest(inputs: seq<Input>, limitOf: string -> Option<nat>, i: nat)
    requires i < |inputs|
    ensures var split := Split(inputs, limitOf)[i];
            && split.(maxTrials := inputs[i].maxTrials) == inputs[i]
            && ((forall id :: !IsLimited(inputs[i], limitOf, id)) ==> split == inputs[i])
            && forall id :: IsLimited(inputs[i], limitOf, id) ==>
                 && split.maxTrials.Some? && split.maxTrials.value >= 1
                 && FitsLimit(inputs, limitOf, id, split.maxTrials.value)
                 && exists other :: IsLimited(inputs[i], limitOf, other) && !FitsLimit(inputs, limitOf, other, split.maxTrials.value + 1)
  {
    var split := Split(inputs, limitOf)[i];
    if inputs[i].credentials.Some? {
      var c := inputs[i].credentials.value;
      forall id | IsLimited(inputs[i], limitOf, id)
        ensures id == c.sandboxCredentialId || id == c.modelCredentialId
        ensures var share := Share(inputs, limitOf, id);
                share.Some? && share.value >= 1
                && forall trials: nat :: trials >= 1 ==> (FitsLimit(inputs, limitOf, id, trials) <==> trials <= share.value)
      {
        ShareIsLargest(inputs, limitOf, i, id);
      }
      forall id | id == c.sandboxCredentialId || id == c.modelCredentialId
        ensures !IsLimited(inputs[i], limitOf, id) ==> Share(inputs, limitOf, id).None?
      {
      }
    }
  }

  // ---- Images built before trials ----

  /** The builds of a task's images, by task; `asked` records each request to build. */
  class TaskImages {
    const input: Input
    var builds: map<nat, Input>
    ghost var asked: seq<nat>

    constructor (input: Input)
      ensures this.input == input && Valid() && asked == []
    {
      this.input, builds, asked := input, map[], [];
    }

    /** Each task was asked for once, with the input of one of its own trials. */
    ghost predicate Valid()
      reads this
    {
      && (forall t :: t in builds <==> t in asked)
      && (forall i, j :: 0 <= i < j < |asked| ==> asked[i] != asked[j])
      && (forall t :: t in builds ==> builds[t].tasks == if t < |input.tasks| then [input.tasks[t]] else [])
    }

    /** The build that trial `index` waits for: its task's, started by the task's first trial to come. */
    method Ready(index: nat) returns (build: Input)
      requires Valid() && input.harnesses != []
      modifies this
      ensures Valid() && build.tasks == TrialInput(input, index).tasks
      ensures var task := index / |input.harnesses|;
              && builds == old(builds)[task := build]
              && (task in old(builds) ==> build == old(builds)[task])
              && asked == if task in old(builds) then old(asked) else old(asked) + [task]
    {
      var task := index / |input.harnesses|;
      if task in builds {
        build := builds[task];
      } else {
        build := TrialInput(input, index);
        builds := builds[task := build];
        asked := asked + [task];
      }
    }
  }
}
