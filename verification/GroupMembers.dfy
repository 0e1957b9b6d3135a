/**
 * A group release's scores by member (src/public/release-groups.ts). Money is real, and entries come
 * in the order the record lists them.
 */
module GroupMembers {
  import opened Wrappers

  /** One setting's result on one task. */
  datatype TaskResult = TaskResult(task: string, passed: bool, costUsd: Option<real>)

  datatype MemberScore = MemberScore(passed: nat, tasks: nat, accuracy: real, costPerTaskUsd: real, costedTasks: nat)

  datatype Setting = Setting(id: string, key: string)

  datatype Member = Member(repository: nat, tasks: nat, scores: map<string, MemberScore>)

  /** Results by setting key, in the record's order. */
  datatype SettingResults = SettingResults(key: string, results: seq<TaskResult>)

  function Owned(owner: map<string, nat>, repository: nat, results: seq<TaskResult>): seq<TaskResult> {
    if results == [] then []
    else
      var n := |results| - 1;
      Owned(owner, repository, results[..n])
      + if results[n].task in owner && owner[results[n].task] == repository then [results[n]] else []
  }

  function Passed(results: seq<TaskResult>): nat {
    if results == [] then 0 else Passed(results[..|results| - 1]) + if results[|results| - 1].passed then 1 else 0
  }

  function Priced(results: seq<TaskResult>): nat {
    if results == [] then 0 else Priced(results[..|results| - 1]) + if results[|results| - 1].costUsd.Some? then 1 else 0
  }

  function Spend(results: seq<TaskResult>): real {
    if results == [] then 0.0
    else
      var last := results[|results| - 1];
      Spend(results[..|results| - 1]) + if last.costUsd.Some? then last.costUsd.value else 0.0
  }

  function ScoreOf(mine: seq<TaskResult>): MemberScore {
    MemberScore(
      Passed(mine),
      |mine|,
      if |mine| > 0 then Passed(mine) as real / |mine| as real * 100.0 else 0.0,
      if Priced(mine) > 0 then Spend(mine) / Priced(mine) as real else 0.0,
      Priced(mine))
  }

  /** The results recorded under `key`. */
  function ResultsUnder(all: seq<SettingResults>, key: string): seq<TaskResult> {
    if all == [] then []
    else if all[0].key == key then all[0].results
    else ResultsUnder(all[1..], key)
  }

  /** Each setting's score by its id; of two with one id the later. */
  function Scores(owner: map<string, nat>, repository: nat, settings: seq<Setting>, all: seq<SettingResults>): map<string, MemberScore> {
    if settings == [] then map[]
    else
      var last := settings[|settings| - 1];
      Scores(owner, repository, settings[..|settings| - 1], all)[last.id := ScoreOf(Owned(owner, repository, ResultsUnder(all, last.key)))]
  }

  function MemberOf(owner: map<string, nat>, repository: nat, settings: seq<Setting>, all: seq<SettingResults>): Member {
    var first := if all == [] then [] else all[0].results;
    Member(repository, |Owned(owner, repository, first)|, Scores(owner, repository, settings, all))
  }

  function MembersOf(repositories: seq<nat>, owner: map<string, nat>, settings: seq<Setting>, all: seq<SettingResults>): (members: seq<Member>)
    ensures |members| == |repositories|
  {
    seq(|repositories|, i requires 0 <= i < |repositories| => MemberOf(owner, repositories[i], settings, all))
  }

  // ---- The shares add up ----

  /** A sum over results of what each is worth. */
  function SumBy(worth: TaskResult -> real, results: seq<TaskResult>): real {
    if results == [] then 0.0 else SumBy(worth, results[..|results| - 1]) + worth(results[|results| - 1])
  }

  function SumOverMembers(worth: TaskResult -> real, owner: map<string, nat>, repositories: seq<nat>, results: seq<TaskResult>): real {
    if repositories == [] then 0.0
    else
      SumOverMembers(worth, owner, repositories[..|repositories| - 1], results)
      + SumBy(worth, Owned(owner, repositories[|repositories| - 1], results))
  }

  predicate HasOwner(owner: map<string, nat>, repositories: seq<nat>, result: TaskResult) {
    result.task in owner && owner[result.task] in repositories
  }

  predicate Distinct(repositories: seq<nat>) {
    forall i, j :: 0 <= i < j < |repositories| ==> repositories[i] != repositories[j]
  }

  /** The results that belong to some member. */
  function OwnedByAny(owner: map<string, nat>, repositories: seq<nat>, results: seq<TaskResult>): seq<TaskResult> {
    if results == [] then []
    else
      var n := |results| - 1;
      OwnedByAny(owner, repositories, results[..n]) + if HasOwner(owner, repositories, results[n]) then [results[n]] else []
  }

  lemma SumByAppend(worth: TaskResult -> real, results: seq<TaskResult>, more: seq<TaskResult>)
    requires |more| <= 1
    ensures SumBy(worth, results + more) == SumBy(worth, results) + if more == [] then 0.0 else worth(more[0])
  {
    if more == [] {
      assert results + more == results;
    } else {
      assert (results + more)[..|results|] == results;
    }
  }

  lemma MemberOneMore(worth: TaskResult -> real, owner: map<string, nat>, repository: nat, results: seq<TaskResult>)
    requires results != []
    ensures var n := |results| - 1;
            SumBy(worth, Owned(owner, repository, results))
            == SumBy(worth, Owned(owner, repository, results[..n]))
               + if HasOwner(owner, [repository], results[n]) then worth(results[n]) else 0.0
  {
    var n := |results| - 1;
    SumByAppend(worth, Owned(owner, repository, results[..n]), if HasOwner(owner, [repository], results[n]) then [results[n]] else []);
  }

  lemma OwnersSplit(owner: map<string, nat>, repositories: seq<nat>, result: TaskResult)
    requires repositories != [] && Distinct(repositories)
    ensures var m := |repositories| - 1;
            var before, last := HasOwner(owner, repositories[..m], result), HasOwner(owner, [repositories[m]], result);
            Distinct(repositories[..m]) && !(before && last) && (HasOwner(owner, repositories, result) <==> before || last)
  {
    var m := |repositories| - 1;
    assert repositories == repositories[..m] + [repositories[m]];
    assert repositories[m] !in repositories[..m];
  }

  /** One more result adds its worth to its owner's sum alone. */
  lemma {:induction false} OneMoreResult(worth: TaskResult -> real, owner: map<string, nat>, repositories: seq<nat>, results: seq<TaskResult>)
    requires results != [] && Distinct(repositories)
    ensures var n := |results| - 1;
            SumOverMembers(worth, owner, repositories, results)
            == SumOverMembers(worth, owner, repositories, results[..n])
               + if HasOwner(owner, repositories, results[n]) then worth(results[n]) else 0.0
  {
    if repositories != [] {
      var m := |repositories| - 1;
      OwnersSplit(owner, repositories, results[|results| - 1]);
      OneMoreResult(worth, owner, repositories[..m], results);
      MemberOneMore(worth, owner, repositories[m], results);
    }
  }

  lemma {:induction false} NothingToShare(worth: TaskResult -> real, owner: map<string, nat>, repositories: seq<nat>)
    ensures SumOverMembers(worth, owner, repositories, []) == 0.0
  {
    if repositories != [] {
      NothingToShare(worth, owner, repositories[..|repositories| - 1]);
    }
  }

  /** Summed over the members, results are worth what the owned ones are worth together. */
  lemma {:induction false} SharesAddUp(worth: TaskResult -> real, owner: map<string, nat>, repositories: seq<nat>, results: seq<TaskResult>)
    requires Distinct(repositories)
    ensures SumOverMembers(worth, owner, repositories, results) == SumBy(worth, OwnedByAny(owner, repositories, results))
  {
    if results == [] {
      NothingToShare(worth, owner, repositories);
    } else {
      var n := |results| - 1;
      SharesAddUp(worth, owner, repositories, results[..n]);
      OneMoreResult(worth, owner, repositories, results);
      SumByAppend(worth, OwnedByAny(owner, repositories, results[..n]),
                  if HasOwner(owner, repositories, results[n]) then [results[n]] else []);
    }
  }

  lemma {:induction false} AllOwned(owner: map<string, nat>, repositories: seq<nat>, results: seq<TaskResult>)
    ensures |OwnedByAny(owner, repositories, results)| <= |results|
    ensures (forall i :: 0 <= i < |results| ==> HasOwner(owner, repositories, results[i]))
            <==> OwnedByAny(owner, repositories, results) == results
    ensures OwnedByAny(owner, repositories, results) == results <==> |OwnedByAny(owner, repositories, results)| == |results|
  {
    if results != [] {
      var n := |results| - 1;
      AllOwned(owner, repositories, results[..n]);
      assert results == results[..n] + [results[n]];
    }
  }

  // ---- The scores' own fields ----

  function WorthTask(r: TaskResult): real { 1.0 }

  function WorthPass(r: TaskResult): real { if r.passed then 1.0 else 0.0 }

  function WorthPrice(r: TaskResult): real { if r.costUsd.Some? then 1.0 else 0.0 }

  function WorthSpend(r: TaskResult): real { if r.costUsd.Some? then r.costUsd.value else 0.0 }

  lemma {:induction false} FieldsAreSums(results: seq<TaskResult>)
    ensures |results| as real == SumBy(WorthTask, results)
    ensures Passed(results) as real == SumBy(WorthPass, results)
    ensures Priced(results) as real == SumBy(WorthPrice, results)
    ensures Spend(results) == SumBy(WorthSpend, results)
    ensures Priced(results) == 0 ==> Spend(results) == 0.0
  {
    if results != [] {
      FieldsAreSums(results[..|results| - 1]);
    }
  }

  /** A total over the members of one field of a setting's scores. */
  function TotalOf(field: MemberScore -> real, owner: map<string, nat>, repositories: seq<nat>, results: seq<TaskResult>): real {
    if repositories == [] then 0.0
    else
      TotalOf(field, owner, repositories[..|repositories| - 1], results)
      + field(ScoreOf(Owned(owner, repositories[|repositories| - 1], results)))
  }

  function TasksField(s: MemberScore): real { s.tasks as real }

  function PassedField(s: MemberScore): real { s.passed as real }

  function CostedField(s: MemberScore): real { s.costedTasks as real }

  /** The spend a score stands for. */
  function SpendField(s: MemberScore): real { s.costPerTaskUsd * s.costedTasks as real }

  lemma SpendIsKept(mine: seq<TaskResult>)
    ensures SpendField(ScoreOf(mine)) == Spend(mine)
  {
    FieldsAreSums(mine);
    if Priced(mine) > 0 {
      assert Spend(mine) / Priced(mine) as real * Priced(mine) as real == Spend(mine);
    }
  }

  lemma {:induction false} TotalsAreSums(owner: map<string, nat>, repositories: seq<nat>, results: seq<TaskResult>)
    ensures TotalOf(TasksField, owner, repositories, results) == SumOverMembers(WorthTask, owner, repositories, results)
    ensures TotalOf(PassedField, owner, repositories, results) == SumOverMembers(WorthPass, owner, repositories, results)
    ensures TotalOf(CostedField, owner, repositories, results) == SumOverMembers(WorthPrice, owner, repositories, results)
    ensures TotalOf(SpendField, owner, repositories, results) == SumOverMembers(WorthSpend, owner, repositories, results)
  {
    if repositories != [] {
      var m := |repositories| - 1;
      TotalsAreSums(owner, repositories[..m], results);
      FieldsAreSums(Owned(owner, repositories[m], results));
      SpendIsKept(Owned(owner, repositories[m], results));
    }
  }

  /**
   * When every task of a setting has an owner among the members, their task counts, passes, priced
   * counts and spend add up to the setting's; the task counts add up only then.
   */
  lemma MembersPartitionTotals(owner: map<string, nat>, repositories: seq<nat>, results: seq<TaskResult>)
    requires Distinct(repositories)
    ensures var owned := forall i :: 0 <= i < |results| ==> HasOwner(owner, repositories, results[i]);
            && (owned <==> TotalOf(TasksField, owner, repositories, results) == |results| as real)
            && (owned ==>
                  && TotalOf(PassedField, owner, repositories, results) == Passed(results) as real
                  && TotalOf(CostedField, owner, repositories, results) == Priced(results) as real
                  && TotalOf(SpendField, owner, repositories, results) == Spend(results))
  {
    TotalsAreSums(owner, repositories, results);
    SharesAddUp(WorthTask, owner, repositories, results);
    SharesAddUp(WorthPass, owner, repositories, results);
    SharesAddUp(WorthPrice, owner, repositories, results);
    SharesAddUp(WorthSpend, owner, repositories, results);
    AllOwned(owner, repositories, results);
    FieldsAreSums(results);
    FieldsAreSums(OwnedByAny(owner, repositories, results));
  }

  // ---- The payload's scores are these ----

  lemma {:induction false} ScoresHold(owner: map<string, nat>, repository: nat, settings: seq<Setting>, all: seq<SettingResults>, i: nat)
    requires i < |settings| && forall j, k :: 0 <= j < k < |settings| ==> settings[j].id != settings[k].id
    ensures settings[i].id in Scores(owner, repository, settings, all)
    ensures Scores(owner, repository, settings, all)[settings[i].id] == ScoreOf(Owned(owner, repository, ResultsUnder(all, settings[i].key)))
  {
    if i < |settings| - 1 {
      ScoresHold(owner, repository, settings[..|settings| - 1], all, i);
    }
  }

  predicate SameTasks(a: seq<TaskResult>, b: seq<TaskResult>) {
    |a| == |b| && forall i :: 0 <= i < |a| ==> a[i].task == b[i].task
  }

  lemma {:induction false} SameTasksSameShare(owner: map<string, nat>, repository: nat, a: seq<TaskResult>, b: seq<TaskResult>)
    requires SameTasks(a, b)
    ensures |Owned(owner, repository, a)| == |Owned(owner, repository, b)|
  {
    if a != [] {
      SameTasksSameShare(owner, repository, a[..|a| - 1], b[..|b| - 1]);
    }
  }

  /** Where every setting covers the same tasks, a member's task count is that of each of its scores. */
  lemma MemberTasksAreItsScores(repositories: seq<nat>, owner: map<string, nat>, settings: seq<Setting>, all: seq<SettingResults>, m: nat, i: nat)
    requires m < |repositories| && i < |settings|
    requires forall j, k :: 0 <= j < k < |settings| ==> settings[j].id != settings[k].id
    requires all != [] && SameTasks(all[0].results, ResultsUnder(all, settings[i].key))
    ensures var member := MembersOf(repositories, owner, settings, all)[m];
            settings[i].id in member.scores && member.scores[settings[i].id].tasks == member.tasks
  {
    ScoresHold(owner, repositories[m], settings, all, i);
    SameTasksSameShare(owner, repositories[m], all[0].results, ResultsUnder(all, settings[i].key));
  }

  // ---- The same, told in the results' own fields ----

  /** Where the results are that belong to the member, satisfy `f`, and so count in its score. */
  function Among(owner: map<string, nat>, repository: nat, results: seq<TaskResult>, f: TaskResult -> bool): set<nat> {
    set i: nat | i < |results| && results[i].task in owner && owner[results[i].task] == repository && f(results[i])
  }

  /** What the member's priced results cost together. */
  function CostAmong(owner: map<string, nat>, repository: nat, results: seq<TaskResult>): real {
    if results == [] then 0.0
    else
      var last := results[|results| - 1];
      CostAmong(owner, repository, results[..|results| - 1])
      + if last.task in owner && owner[last.task] == repository && last.costUsd.Some? then last.costUsd.value else 0.0
  }

  lemma AmongOneMore(owner: map<string, nat>, repository: nat, results: seq<TaskResult>, f: TaskResult -> bool)
    requires results != []
    ensures var n := |results| - 1;
            |Among(owner, repository, results, f)|
            == |Among(owner, repository, results[..n], f)|
               + if results[n].task in owner && owner[results[n].task] == repository && f(results[n]) then 1 else 0
  {
    var n := |results| - 1;
    var before := Among(owner, repository, results[..n], f);
    if results[n].task in owner && owner[results[n].task] == repository && f(results[n]) {
      assert Among(owner, repository, results, f) == before + {n};
    } else {
      assert Among(owner, repository, results, f) == before;
    }
  }

  function Anyone(): TaskResult -> bool { (r: TaskResult) => true }

  function DidPass(): TaskResult -> bool { (r: TaskResult) => r.passed }

  function HasPrice(): TaskResult -> bool { (r: TaskResult) => r.costUsd != None }

  lemma {:induction false} CountsAre(owner: map<string, nat>, repository: nat, results: seq<TaskResult>)
    ensures var mine := Owned(owner, repository, results);
            && |mine| == |Among(owner, repository, results, Anyone())|
            && Passed(mine) == |Among(owner, repository, results, DidPass())|
            && Priced(mine) == |Among(owner, repository, results, HasPrice())|
            && Spend(mine) == CostAmong(owner, repository, results)
  {
    if results == [] {
      assert Among(owner, repository, [], Anyone()) == {} && Among(owner, repository, [], DidPass()) == {} && Among(owner, repository, [], HasPrice()) == {};
    } else {
      CountsAre(owner, repository, results[..|results| - 1]);
      AmongOneMore(owner, repository, results, Anyone());
      AmongOneMore(owner, repository, results, DidPass());
      AmongOneMore(owner, repository, results, HasPrice());
      OwnedOneMore(owner, repository, results);
    }
  }

  lemma OwnedOneMore(owner: map<string, nat>, repository: nat, results: seq<TaskResult>)
    requires results != []
    ensures var n := |results| - 1;
            var before, last := Owned(owner, repository, results[..n]), results[n];
            var mine := last.task in owner && owner[last.task] == repository;
            && |Owned(owner, repository, results)| == |before| + (if mine then 1 else 0)
            && Passed(Owned(owner, repository, results)) == Passed(before) + (if mine && last.passed then 1 else 0)
            && Priced(Owned(owner, repository, results)) == Priced(before) + (if mine && last.costUsd != None then 1 else 0)
            && Spend(Owned(owner, repository, results)) == Spend(before) + (if mine && last.costUsd.Some? then last.costUsd.value else 0.0)
  {
    var n := |results| - 1;
    var before := Owned(owner, repository, results[..n]);
    assert (before + [results[n]])[..|before|] == before && before + [] == before;
  }

  /**
   * A score tells of the member's results alone: how many there are, how many passed and how many
   * have a price; the passed ones in a hundred; and what a priced one cost on average.
   */
  predicate TellsOf(score: MemberScore, owner: map<string, nat>, repository: nat, results: seq<TaskResult>) {
    && score.tasks == |Among(owner, repository, results, Anyone())|
    && score.passed == |Among(owner, repository, results, DidPass())|
    && score.costedTasks == |Among(owner, repository, results, HasPrice())|
    && IsMean(score.accuracy, 100.0 * score.passed as real, score.tasks)
    && IsMean(score.costPerTaskUsd, CostAmong(owner, repository, results), score.costedTasks)
  }

  /** `mean` of `n` is `total` in all; of none it is zero. */
  predicate IsMean(mean: real, total: real, n: nat) {
    mean * n as real == total && (n == 0 ==> mean == 0.0)
  }

  lemma MeanOf(part: real, n: nat)
    requires n > 0
    ensures IsMean(part / n as real * 100.0, 100.0 * part, n) && IsMean(part / n as real, part, n)
  {
    assert part / n as real * n as real == part;
  }

  lemma ScoreIsMean(mine: seq<TaskResult>)
    ensures IsMean(ScoreOf(mine).accuracy, 100.0 * Passed(mine) as real, |mine|)
    ensures IsMean(ScoreOf(mine).costPerTaskUsd, Spend(mine), Priced(mine))
  {
    FieldsAreSums(mine);
    if |mine| > 0 {
      MeanOf(Passed(mine) as real, |mine|);
    } else {
      assert mine == [];
    }
    if Priced(mine) > 0 {
      MeanOf(Spend(mine), Priced(mine));
    }
  }

  lemma ScoreTellsOf(owner: map<string, nat>, repository: nat, results: seq<TaskResult>)
    ensures TellsOf(ScoreOf(Owned(owner, repository, results)), owner, repository, results)
  {
    CountsAre(owner, repository, results);
    ScoreIsMean(Owned(owner, repository, results));
  }

  /** Every member's score for a released setting tells of that setting's results on the member's own tasks. */
  lemma MemberScoresTellOfTheirs(repositories: seq<nat>, owner: map<string, nat>, settings: seq<Setting>, all: seq<SettingResults>, m: nat, i: nat, k: nat)
    requires m < |repositories| && i < |settings| && k < |all|
    requires forall j, l :: 0 <= j < l < |settings| ==> settings[j].id != settings[l].id
    requires all[k].key == settings[i].key && forall l :: 0 <= l < k ==> all[l].key != settings[i].key
    ensures var member := MembersOf(repositories, owner, settings, all)[m];
            && member.repository == repositories[m]
            && member.tasks == |Among(owner, repositories[m], all[0].results, Anyone())|
            && settings[i].id in member.scores
            && TellsOf(member.scores[settings[i].id], owner, repositories[m], all[k].results)
  {
    ScoresHold(owner, repositories[m], settings, all, i);
    FoundUnder(all, settings[i].key, k);
    ScoreTellsOf(owner, repositories[m], all[k].results);
    CountsAre(owner, repositories[m], all[0].results);
  }

  lemma {:induction false} FoundUnder(all: seq<SettingResults>, key: string, k: nat)
    requires k < |all| && all[k].key == key && forall l :: 0 <= l < k ==> all[l].key != key
    ensures ResultsUnder(all, key) == all[k].results
  {
    if k > 0 {
      assert all[0].key != key;
      FoundUnder(all[1..], key, k - 1);
    }
  }

  // ---- The setting that did best on one member ----

  datatype Released = Released(id: string, title: string)

  datatype Best = Best(id: string, title: string, accuracy: real)

  /** The setting has a score on at least one of the member's tasks. */
  predicate Scored(settings: seq<Released>, scores: map<string, MemberScore>, i: nat)
    requires i < |settings|
  {
    settings[i].id in scores && scores[settings[i].id].tasks > 0
  }

  predicate Beats(a: MemberScore, b: MemberScore) {
    a.accuracy > b.accuracy || (a.accuracy == b.accuracy && a.costPerTaskUsd < b.costPerTaskUsd)
  }

  /** Setting `k` is the first of those among the first `n` that no other beats. */
  ghost predicate FirstUnbeaten(settings: seq<Released>, scores: map<string, MemberScore>, n: nat, k: nat)
    requires n <= |settings|
  {
    && k < n && Scored(settings, scores, k)
    && (forall j: nat :: j < n && Scored(settings, scores, j) ==> !Beats(scores[settings[j].id], scores[settings[k].id]))
    && (forall j: nat :: j < k && Scored(settings, scores, j) ==> Beats(scores[settings[k].id], scores[settings[j].id]))
  }

  ghost predicate IsBest(settings: seq<Released>, scores: map<string, MemberScore>, best: Best) {
    exists k: nat ::
      FirstUnbeaten(settings, scores, |settings|, k) && best == Best(settings[k].id, settings[k].title, scores[settings[k].id].accuracy)
  }

  /** The most accurate setting on the member, the cheaper of equals, the first of those. */
  method MostAccurate(settings: seq<Released>, scores: map<string, MemberScore>) returns (best: Option<Best>)
    ensures best.None? ==> forall i: nat :: i < |settings| ==> !Scored(settings, scores, i)
    ensures best.Some? ==> IsBest(settings, scores, best.value)
  {
    best := None;
    var cost := 0.0;
    ghost var at: nat := 0;
    for i := 0 to |settings|
      invariant best.None? ==> forall j: nat :: j < i ==> !Scored(settings, scores, j)
      invariant best.Some? ==> FirstUnbeaten(settings, scores, i, at)
      invariant best.Some? ==> best.value == Best(settings[at].id, settings[at].title, scores[settings[at].id].accuracy)
      invariant best.Some? ==> cost == scores[settings[at].id].costPerTaskUsd
    {
      var setting := settings[i];
      if setting.id !in scores || scores[setting.id].tasks == 0 { continue; }
      var score := scores[setting.id];
      if best.None? || score.accuracy > best.value.accuracy || (score.accuracy == best.value.accuracy && score.costPerTaskUsd < cost) {
        best := Some(Best(setting.id, setting.title, score.accuracy));
        cost := score.costPerTaskUsd;
        at := i;
      }
    }
  }
}
