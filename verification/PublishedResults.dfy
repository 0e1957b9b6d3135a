/**
 * Which trial stands for a setting on a task (src/public/release-results.ts): the latest eligible
 * one. How a run's setting and a trial's task key are found is left to functions; strings compare
 * by code point.
 */
module PublishedResults {
  import opened Texts
  import opened Wrappers

  datatype Trial = Trial(runId: string, taskId: string, harness: string, finishedAt: Option<string>, passed: bool)

  datatype Run = Run(id: string, createdAt: string, model: string, trials: seq<Trial>)

  datatype Setting = Setting(key: string, name: string)

  datatype Result = Result(trial: Trial, run: Run, index: nat)

  datatype SettingResults = SettingResults(setting: Setting, results: map<string, Result>)

  /** What the choice takes from elsewhere: eligibleTrial, settingOf and evaluationTaskKey. */
  datatype Rules = Rules(eligible: Trial -> bool, settingOf: (Run, string) -> Option<Setting>, taskKey: (string, string) -> string)

  // ---- Positions as padded text ----

  function Zeros(n: nat): string {
    if n == 0 then "" else "0" + Zeros(n - 1)
  }

  function PadStart(text: string, width: nat): string {
    if |text| >= width then text else Zeros(width - |text|) + text
  }

  function Position(index: nat): string {
    PadStart(Decimal(index), 8)
  }

  function Value(text: string): int {
    if text == "" then 0 else 10 * Value(text[..|text| - 1]) + (text[|text| - 1] as int - '0' as int)
  }

  lemma {:induction false} DecimalReads(n: nat)
    ensures Value(Decimal(n)) == n
  {
    if n >= 10 {
      DecimalReads(n / 10);
      assert Decimal(n)[..|Decimal(n)| - 1] == Decimal(n / 10);
    } else {
      assert Decimal(n)[..0] == "";
    }
  }

  lemma {:induction false} ZerosReadAsNothing(n: nat, text: string)
    ensures Value(Zeros(n) + text) == Value(text)
  {
    if text != "" {
      ZerosReadAsNothing(n, text[..|text| - 1]);
      assert (Zeros(n) + text)[..|Zeros(n) + text| - 1] == Zeros(n) + text[..|text| - 1];
    } else {
      assert Zeros(n) + text == Zeros(n);
      ZerosAreZero(n);
    }
  }

  lemma {:induction false} ZerosAreZero(n: nat)
    ensures Value(Zeros(n)) == 0 && |Zeros(n)| == n && forall i :: 0 <= i < n ==> Zeros(n)[i] == '0'
  {
    if n > 0 {
      ZerosAreZero(n - 1);
      assert Zeros(n) == Zeros(n - 1) + "0";
      assert Zeros(n)[..n - 1] == Zeros(n - 1);
    }
  }

  lemma PositionReads(index: nat)
    ensures Value(Position(index)) == index
  {
    DecimalReads(index);
    if |Decimal(index)| < 8 {
      ZerosReadAsNothing(8 - |Decimal(index)|, Decimal(index));
    }
  }

  /** Different positions have different texts. */
  lemma PositionsDiffer(i: nat, j: nat)
    requires Position(i) == Position(j)
    ensures i == j
  {
    PositionReads(i);
    PositionReads(j);
  }

  predicate AllDigits(text: string) {
    forall i :: 0 <= i < |text| ==> '0' <= text[i] <= '9'
  }

  lemma {:induction false} BeforeGrows(a: string, b: string, x: char, y: char)
    requires |a| == |b| && (Before(a, b) || (a == b && x < y))
    ensures Before(a + [x], b + [y])
  {
    if a != "" && a[0] == b[0] {
      assert (a + [x])[1..] == a[1..] + [x] && (b + [y])[1..] == b[1..] + [y];
      BeforeGrows(a[1..], b[1..], x, y);
    }
  }

  lemma {:induction false} DigitsCompareAsNumbers(a: string, b: string)
    requires |a| == |b| && AllDigits(a) && AllDigits(b)
    ensures Value(a) == Value(b) ==> a == b
    ensures Value(a) < Value(b) ==> Before(a, b)
  {
    if a != "" {
      var n := |a| - 1;
      assert a == a[..n] + [a[n]] && b == b[..n] + [b[n]];
      DigitsCompareAsNumbers(a[..n], b[..n]);
      if Value(a[..n]) < Value(b[..n]) || (a[..n] == b[..n] && a[n] < b[n]) {
        BeforeGrows(a[..n], b[..n], a[n], b[n]);
      }
    }
  }

  function TenTo(k: nat): nat {
    if k == 0 then 1 else 10 * TenTo(k - 1)
  }

  lemma {:induction false} DecimalIsShort(n: nat, k: nat)
    requires k > 0 && n < TenTo(k)
    ensures |Decimal(n)| <= k && AllDigits(Decimal(n))
  {
    if n >= 10 {
      DecimalIsShort(n / 10, k - 1);
    }
  }

  /** Up to the hundred-millionth trial, a later position's text sorts after. */
  lemma PositionsSortAsNumbers(i: nat, j: nat)
    requires i < j < 100_000_000
    ensures Before(Position(i), Position(j))
  {
    assert TenTo(8) == 100_000_000 by { assert TenTo(4) == 10_000; }
    forall n: nat | n < TenTo(8)
      ensures |Position(n)| == 8 && AllDigits(Position(n))
    {
      DecimalIsShort(n, 8);
      ZerosAreZero(8 - |Decimal(n)|);
    }
    PositionReads(i);
    PositionReads(j);
    DigitsCompareAsNumbers(Position(i), Position(j));
  }

  // ---- Later results ----

  function OrderOf(r: Result): seq<string> {
    [if r.trial.finishedAt.Some? then r.trial.finishedAt.value else "", r.run.createdAt, r.run.id, Position(r.index)]
  }

  /** The first of the texts from `k` on that differs is after the other's. */
  predicate LaterFrom(a: seq<string>, b: seq<string>, k: nat)
    requires |a| == |b| && k <= |a|
    decreases |a| - k
  {
    k < |a| && if a[k] != b[k] then Before(b[k], a[k]) else LaterFrom(a, b, k + 1)
  }

  predicate Later(left: Result, right: Result) {
    LaterFrom(OrderOf(left), OrderOf(right), 0)
  }

  method IsLater(left: Result, right: Result) returns (later: bool)
    ensures later == Later(left, right)
  {
    var a, b := OrderOf(left), OrderOf(right);
    var position := 0;
    while position < |a|
      invariant 0 <= position <= |a|
      invariant LaterFrom(a, b, position) == Later(left, right)
    {
      if a[position] != b[position] {
        return Before(b[position], a[position]);
      }
      position := position + 1;
    }
    return false;
  }

  lemma {:induction false} LaterFromIsTotal(a: seq<string>, b: seq<string>, k: nat)
    requires |a| == |b| && k <= |a|
    ensures LaterFrom(a, b, k) || LaterFrom(b, a, k) || a[k..] == b[k..]
    ensures !(LaterFrom(a, b, k) && LaterFrom(b, a, k))
    decreases |a| - k
  {
    if k < |a| {
      BeforeIsTotal(a[k], b[k]);
      LaterFromIsTotal(a, b, k + 1);
      assert a[k..] == [a[k]] + a[k + 1..] && b[k..] == [b[k]] + b[k + 1..];
    }
  }

  lemma {:induction false} LaterFromIsTransitive(a: seq<string>, b: seq<string>, c: seq<string>, k: nat)
    requires |a| == |b| == |c| && k <= |a| && LaterFrom(a, b, k) && LaterFrom(b, c, k)
    ensures LaterFrom(a, c, k)
    decreases |a| - k
  {
    if a[k] == b[k] && b[k] == c[k] {
      LaterFromIsTransitive(a, b, c, k + 1);
    } else if a[k] != b[k] && b[k] != c[k] {
      BeforeIsTransitive(c[k], b[k], a[k]);
      BeforeIsTotal(a[k], c[k]);
    }
  }

  /** A strict total order: of two results of different runs or positions exactly one is later. */
  lemma LaterIsStrictTotalOrder(a: Result, b: Result, c: Result)
    ensures !Later(a, a)
    ensures !(Later(a, b) && Later(b, a))
    ensures a.run.id != b.run.id || a.index != b.index ==> Later(a, b) || Later(b, a)
    ensures Later(a, b) && Later(b, c) ==> Later(a, c)
  {
    LaterFromIsTotal(OrderOf(a), OrderOf(a), 0);
    LaterFromIsTotal(OrderOf(a), OrderOf(b), 0);
    if OrderOf(a)[0..] == OrderOf(b)[0..] {
      assert OrderOf(a)[2] == OrderOf(b)[2] && OrderOf(a)[3] == OrderOf(b)[3];
      PositionsDiffer(a.index, b.index);
    }
    if Later(a, b) && Later(b, c) {
      LaterFromIsTransitive(OrderOf(a), OrderOf(b), OrderOf(c), 0);
    }
  }

  // ---- Choosing results ----

  /** One eligible trial of a resolved setting. */
  datatype Entry = Entry(setting: Setting, task: string, result: Result)

  function EntryAt(rules: Rules, run: Run, index: nat): seq<Entry>
    requires index < |run.trials|
  {
    var trial := run.trials[index];
    var setting := rules.settingOf(run, trial.harness);
    if rules.eligible(trial) && setting.Some? then
      [Entry(setting.value, rules.taskKey(trial.runId, trial.taskId), Result(trial, run, index))]
    else []
  }

  function EntriesIn(rules: Rules, run: Run, n: nat): seq<Entry>
    requires n <= |run.trials|
  {
    if n == 0 then [] else EntriesIn(rules, run, n - 1) + EntryAt(rules, run, n - 1)
  }

  function EntriesOf(rules: Rules, runs: seq<Run>): seq<Entry> {
    if runs == [] then []
    else EntriesOf(rules, runs[..|runs| - 1]) + EntriesIn(rules, runs[|runs| - 1], |runs[|runs| - 1].trials|)
  }

  function Added(chosen: map<string, SettingResults>, e: Entry): map<string, SettingResults> {
    var entry := if e.setting.key in chosen then chosen[e.setting.key] else SettingResults(e.setting, map[]);
    var better := e.task !in entry.results || Later(e.result, entry.results[e.task]);
    chosen[e.setting.key := if better then entry.(results := entry.results[e.task := e.result]) else entry]
  }

  function Collected(entries: seq<Entry>): map<string, SettingResults> {
    if entries == [] then map[] else Added(Collected(entries[..|entries| - 1]), entries[|entries| - 1])
  }

  /** With the trial's entry, if it has one. */
  function AddedAny(chosen: map<string, SettingResults>, more: seq<Entry>): map<string, SettingResults> {
    if more == [] then chosen else Added(chosen, more[0])
  }

  lemma CollectedOneMore(entries: seq<Entry>, more: seq<Entry>)
    requires |more| <= 1
    ensures Collected(entries + more) == AddedAny(Collected(entries), more)
  {
    if more == [] {
      assert entries + more == entries;
    } else {
      assert (entries + more)[..|entries|] == entries;
    }
  }

  /** The body of the inner loop. */
  method AddTrial(rules: Rules, before: map<string, SettingResults>, run: Run, index: nat) returns (chosen: map<string, SettingResults>)
    requires index < |run.trials|
    ensures chosen == AddedAny(before, EntryAt(rules, run, index))
  {
    chosen := before;
    var trial := run.trials[index];
    if !rules.eligible(trial) { return; }
    var setting := rules.settingOf(run, trial.harness);
    if setting.None? { return; }
    var key := setting.value.key;
    var entry := if key in chosen then chosen[key] else SettingResults(setting.value, map[]);
    chosen := chosen[key := entry];
    var taskKey := rules.taskKey(trial.runId, trial.taskId);
    var candidate := Result(trial, run, index);
    var later := true;
    if taskKey in entry.results {
      later := IsLater(candidate, entry.results[taskKey]);
    }
    if later {
      chosen := chosen[key := entry.(results := entry.results[taskKey := candidate])];
    }
  }

  /** Chosen among the entries before a run and those of its first `n` trials. */
  function CollectedIn(rules: Rules, before: seq<Entry>, run: Run, n: nat): map<string, SettingResults>
    requires n <= |run.trials|
  {
    Collected(before + EntriesIn(rules, run, n))
  }

  lemma NoTrialYet(rules: Rules, before: seq<Entry>, run: Run)
    ensures CollectedIn(rules, before, run, 0) == Collected(before)
  {
    assert before + EntriesIn(rules, run, 0) == before;
  }

  lemma NextTrial(rules: Rules, before: seq<Entry>, run: Run, index: nat)
    requires index < |run.trials|
    ensures CollectedIn(rules, before, run, index + 1)
            == AddedAny(CollectedIn(rules, before, run, index), EntryAt(rules, run, index))
  {
    CollectedOneMore(before + EntriesIn(rules, run, index), EntryAt(rules, run, index));
    assert before + EntriesIn(rules, run, index + 1)
        == before + EntriesIn(rules, run, index) + EntryAt(rules, run, index);
  }

  /** The inner loop. */
  method AddRun(rules: Rules, ghost before: seq<Entry>, so: map<string, SettingResults>, run: Run)
    returns (chosen: map<string, SettingResults>)
    requires so == Collected(before)
    ensures chosen == CollectedIn(rules, before, run, |run.trials|)
  {
    chosen := so;
    NoTrialYet(rules, before, run);
    for index := 0 to |run.trials|
      invariant chosen == CollectedIn(rules, before, run, index)
    {
      NextTrial(rules, before, run, index);
      chosen := AddTrial(rules, chosen, run, index);
    }
  }

  method ResultsBySetting(rules: Rules, runs: seq<Run>) returns (chosen: map<string, SettingResults>)
    ensures chosen == Collected(EntriesOf(rules, runs))
  {
    chosen := map[];
    for i := 0 to |runs|
      invariant chosen == Collected(EntriesOf(rules, runs[..i]))
    {
      chosen := AddRun(rules, EntriesOf(rules, runs[..i]), chosen, runs[i]);
      assert runs[..i + 1][..i] == runs[..i];
    }
    assert runs[..|runs|] == runs;
  }

  // ---- The chosen result is the latest ----

  predicate For(e: Entry, key: string, task: string) {
    e.setting.key == key && e.task == task
  }

  /** The result chosen for `key` and `task`, if there is one. */
  function Chosen(chosen: map<string, SettingResults>, key: string, task: string): Option<Result> {
    if key in chosen && task in chosen[key].results then Some(chosen[key].results[task]) else None
  }

  /** `r` is of an entry for the setting and task, and no entry for them is later. */
  ghost predicate IsLatest(entries: seq<Entry>, key: string, task: string, r: Result) {
    && (exists e :: e in entries && For(e, key, task) && e.result == r)
    && (forall e :: e in entries && For(e, key, task) ==> !Later(e.result, r))
  }

  ghost predicate RightChoice(entries: seq<Entry>, key: string, task: string) {
    match Chosen(Collected(entries), key, task)
    case Some(r) => IsLatest(entries, key, task, r)
    case None => forall e :: e in entries ==> !For(e, key, task)
  }

  lemma AddedChoice(chosen: map<string, SettingResults>, e: Entry, key: string, task: string)
    ensures var before := Chosen(chosen, key, task);
            Chosen(Added(chosen, e), key, task)
            == if For(e, key, task) && (before.None? || Later(e.result, before.value)) then Some(e.result) else before
  {
  }

  lemma LatestOneMore(before: seq<Entry>, last: Entry, key: string, task: string, r: Result)
    requires IsLatest(before, key, task, r) && For(last, key, task)
    ensures IsLatest(before + [last], key, task, if Later(last.result, r) then last.result else r)
  {
    var latest := if Later(last.result, r) then last.result else r;
    assert last in before + [last];
    forall e | e in before + [last] && For(e, key, task)
      ensures !Later(e.result, latest)
    {
      LaterIsStrictTotalOrder(e.result, last.result, r);
      LaterIsStrictTotalOrder(last.result, last.result, last.result);
    }
    var kept :| kept in before && For(kept, key, task) && kept.result == r;
    assert kept in before + [last];
  }

  /** Per setting and task, the chosen result is the latest eligible one, and there is one if any is eligible. */
  lemma {:induction false} ChosenIsLatest(entries: seq<Entry>, key: string, task: string)
    ensures RightChoice(entries, key, task)
  {
    if entries != [] {
      var n := |entries| - 1;
      var before, last := entries[..n], entries[n];
      ChosenIsLatest(before, key, task);
      AddedChoice(Collected(before), last, key, task);
      assert entries == before + [last];
      var r := Chosen(Collected(before), key, task);
      if For(last, key, task) {
        if r.Some? {
          LatestOneMore(before, last, key, task, r.value);
        } else {
          LaterIsStrictTotalOrder(last.result, last.result, last.result);
          assert last in entries;
        }
      }
    }
  }

  // ---- The order of the runs does not matter ----

  lemma {:induction false} EntryInRun(rules: Rules, run: Run, n: nat, e: Entry)
    requires n <= |run.trials|
    ensures e in EntriesIn(rules, run, n) <==> exists k :: 0 <= k < n && e in EntryAt(rules, run, k)
  {
    if n > 0 {
      EntryInRun(rules, run, n - 1, e);
    }
  }

  lemma {:induction false} EntryOfRuns(rules: Rules, runs: seq<Run>, e: Entry)
    ensures e in EntriesOf(rules, runs) <==> exists run :: run in runs && e in EntriesIn(rules, run, |run.trials|)
  {
    if runs != [] {
      var n := |runs| - 1;
      EntryOfRuns(rules, runs[..n], e);
      assert runs == runs[..n] + [runs[n]];
    }
  }

  lemma EntryKnowsItsRun(rules: Rules, runs: seq<Run>, e: Entry)
    requires e in EntriesOf(rules, runs)
    ensures e.result.run in runs && e.result.index < |e.result.run.trials|
    ensures e.result.trial == e.result.run.trials[e.result.index]
  {
    EntryOfRuns(rules, runs, e);
    var run :| run in runs && e in EntriesIn(rules, run, |run.trials|);
    EntryInRun(rules, run, |run.trials|, e);
  }

  /** An id names one run. */
  ghost predicate IdsNameRuns(runs: seq<Run>) {
    forall a, b :: a in runs && b in runs && a.id == b.id ==> a == b
  }

  /** The results do not depend on the order the runs are read in, nor on repeats. */
  lemma OrderDoesNotMatter(rules: Rules, runs: seq<Run>, others: seq<Run>, key: string, task: string)
    requires IdsNameRuns(runs) && forall run :: run in runs <==> run in others
    ensures Chosen(Collected(EntriesOf(rules, runs)), key, task) == Chosen(Collected(EntriesOf(rules, others)), key, task)
  {
    var a, b := EntriesOf(rules, runs), EntriesOf(rules, others);
    forall e
      ensures e in a <==> e in b
    {
      EntryOfRuns(rules, runs, e);
      EntryOfRuns(rules, others, e);
    }
    ChosenIsLatest(a, key, task);
    ChosenIsLatest(b, key, task);
    var x, y := Chosen(Collected(a), key, task), Chosen(Collected(b), key, task);
    if x.Some? && y.Some? {
      LaterIsStrictTotalOrder(x.value, y.value, x.value);
      var ex :| ex in a && For(ex, key, task) && ex.result == x.value;
      var ey :| ey in b && For(ey, key, task) && ey.result == y.value;
      EntryKnowsItsRun(rules, runs, ex);
      EntryKnowsItsRun(rules, runs, ey);
    }
  }

  // ---- The same, told in the trials' own fields ----

  function FinishedOf(run: Run, index: nat): string
    requires index < |run.trials|
  {
    if run.trials[index].finishedAt == None then "" else run.trials[index].finishedAt.value
  }

  /** Trial `i` of `a` comes after trial `j` of `b`: it finished later; or, then, its run was created
      later, has the greater id, or lists it further on, which PositionsSortAsNumbers says of the text. */
  predicate ComesAfter(a: Run, i: nat, b: Run, j: nat)
    requires i < |a.trials| && j < |b.trials|
  {
    if FinishedOf(a, i) != FinishedOf(b, j) then Before(FinishedOf(b, j), FinishedOf(a, i))
    else if a.createdAt != b.createdAt then Before(b.createdAt, a.createdAt)
    else if a.id != b.id then Before(b.id, a.id)
    else Before(Position(j), Position(i))
  }

  lemma LaterComesAfter(a: Run, i: nat, b: Run, j: nat)
    requires i < |a.trials| && j < |b.trials|
    ensures Later(Result(a.trials[i], a, i), Result(b.trials[j], b, j)) <==> ComesAfter(a, i, b, j)
  {
    var x, y := OrderOf(Result(a.trials[i], a, i)), OrderOf(Result(b.trials[j], b, j));
    BeforeIsTotal(Position(i), Position(i));
    assert LaterFrom(x, y, 3) <==> x[3] != y[3] && Before(y[3], x[3]);
    assert LaterFrom(x, y, 2) <==> if x[2] != y[2] then Before(y[2], x[2]) else LaterFrom(x, y, 3);
    assert LaterFrom(x, y, 1) <==> if x[1] != y[1] then Before(y[1], x[1]) else LaterFrom(x, y, 2);
  }

  /** Trial `index` of `run` is eligible, of the setting `key`, on the task `task`. */
  predicate Counts(rules: Rules, run: Run, index: nat, key: string, task: string) {
    && index < |run.trials| && rules.eligible(run.trials[index])
    && rules.settingOf(run, run.trials[index].harness).Some?
    && rules.settingOf(run, run.trials[index].harness).value.key == key
    && rules.taskKey(run.trials[index].runId, run.trials[index].taskId) == task
  }

  lemma EntryCounts(rules: Rules, runs: seq<Run>, e: Entry)
    requires e in EntriesOf(rules, runs)
    ensures e.result.run in runs && Counts(rules, e.result.run, e.result.index, e.setting.key, e.task)
    ensures e.result == Result(e.result.run.trials[e.result.index], e.result.run, e.result.index)
  {
    EntryKnowsItsRun(rules, runs, e);
    EntryOfRuns(rules, runs, e);
    var run :| run in runs && e in EntriesIn(rules, run, |run.trials|);
    EntryInRun(rules, run, |run.trials|, e);
  }

  lemma CountsHasEntry(rules: Rules, runs: seq<Run>, run: Run, index: nat, key: string, task: string) returns (e: Entry)
    requires run in runs && Counts(rules, run, index, key, task)
    ensures e in EntriesOf(rules, runs) && For(e, key, task) && e.result == Result(run.trials[index], run, index)
  {
    e := Entry(rules.settingOf(run, run.trials[index].harness).value, task, Result(run.trials[index], run, index));
    assert e in EntryAt(rules, run, index);
    EntryInRun(rules, run, |run.trials|, e);
    EntryOfRuns(rules, runs, e);
  }

  /**
   * What stands for a setting on a task: a trial that counts, after which no other that counts comes;
   * and there is one as soon as any trial counts.
   */
  lemma NewestThatCounts(rules: Rules, runs: seq<Run>, key: string, task: string)
    ensures match Chosen(Collected(EntriesOf(rules, runs)), key, task)
            case Some(r) =>
              && r.run in runs && Counts(rules, r.run, r.index, key, task) && r.trial == r.run.trials[r.index]
              && forall run, i :: run in runs && Counts(rules, run, i, key, task) ==> !ComesAfter(run, i, r.run, r.index)
            case None => forall run, i :: run in runs ==> !Counts(rules, run, i, key, task)
  {
    var entries := EntriesOf(rules, runs);
    ChosenIsLatest(entries, key, task);
    var chosen := Chosen(Collected(entries), key, task);
    if chosen.Some? {
      var e :| e in entries && For(e, key, task) && e.result == chosen.value;
      EntryCounts(rules, runs, e);
    }
    forall run, i | run in runs && Counts(rules, run, i, key, task)
      ensures chosen.Some? && !ComesAfter(run, i, chosen.value.run, chosen.value.index)
    {
      var e := CountsHasEntry(rules, runs, run, i, key, task);
      LaterComesAfter(run, i, chosen.value.run, chosen.value.index);
    }
  }

  /** A setting is listed as soon as a trial of it counts, and described as by the first that does. */
  lemma {:induction false} SettingsAreOfFirst(entries: seq<Entry>, key: string)
    ensures var chosen := Collected(entries);
            && (key in chosen <==> exists i :: 0 <= i < |entries| && entries[i].setting.key == key)
            && (key in chosen ==>
                  exists i :: 0 <= i < |entries| && entries[i].setting.key == key && chosen[key].setting == entries[i].setting
                              && forall j :: 0 <= j < i ==> entries[j].setting.key != key)
  {
    if entries != [] {
      var n := |entries| - 1;
      SettingsAreOfFirst(entries[..n], key);
      assert forall i :: 0 <= i < n ==> entries[..n][i] == entries[i];
      assert entries[n].setting.key == key ==> exists i :: 0 <= i < |entries| && entries[i].setting.key == key;
    }
  }
}
