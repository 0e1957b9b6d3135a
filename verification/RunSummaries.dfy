/**
 * The database's copy of each run's summary (src/db/evaluation-summaries.ts, src/evaluation/store.ts)
 * and the world a list of runs reads: every run's snapshots, the stored summaries, and the writes of
 * both still under way.
 */
module RunSummaries {
  import opened Wrappers
  import opened EvaluationRecord

  /** One run's row in the table; `revision` says which snapshot `body` summarizes. */
  datatype Row = Row(id: string, revision: nat, body: Run)

  function WithoutOutput(trial: Trial): Trial {
    trial.(output := trial.output.(log := "", steps := [], artifacts := []))
  }

  /** The run with the output text of every trial emptied. */
  function RunSummary(run: Run): Run {
    run.(trials := seq(|run.trials|, i requires 0 <= i < |run.trials| => WithoutOutput(run.trials[i])))
  }

  /** A list saves the summary it rebuilt through the same function again. */
  lemma SummaryOfSummary(run: Run)
    ensures RunSummary(RunSummary(run)) == RunSummary(run)
  {
    var once := RunSummary(run);
    assert forall i :: 0 <= i < |run.trials| ==> WithoutOutput(once.trials[i]) == once.trials[i];
    assert RunSummary(once).trials == once.trials;
  }

  /** Everything of a trial but its log, steps and artifact names, which are gone. */
  predicate ShowsTrial(shown: Trial, trial: Trial) {
    && shown.taskId == trial.taskId && shown.harness == trial.harness && shown.status == trial.status
    && shown.claim == trial.claim && shown.startedAt == trial.startedAt
    && shown.solverStartedAt == trial.solverStartedAt && shown.finishedAt == trial.finishedAt
    && shown.error == trial.error && shown.failureSummary == trial.failureSummary
    && shown.output.reward == trial.output.reward
    && shown.output.log == "" && shown.output.steps == [] && shown.output.artifacts == []
  }

  /** Everything of a run but that. */
  predicate Shows(shown: Run, run: Run) {
    && shown.id == run.id && shown.revision == run.revision && shown.createdAt == run.createdAt
    && shown.status == run.status && shown.finishedAt == run.finishedAt && shown.error == run.error
    && shown.deletedAt == run.deletedAt && shown.deletedBy == run.deletedBy
    && |shown.trials| == |run.trials|
    && forall i :: 0 <= i < |run.trials| ==> ShowsTrial(shown.trials[i], run.trials[i])
  }

  /** A summary shows the run, and is the only record that does so. */
  lemma SummaryShowsTheRun(run: Run, shown: Run)
    ensures shown == RunSummary(run) <==> Shows(shown, run)
  {
    if Shows(shown, run) {
      assert shown.trials == RunSummary(run).trials;
    }
  }

  function RowOf(run: Run): Row {
    Row(run.id, run.revision, RunSummary(run))
  }

  /** A summary replaces only one of an earlier revision; without its owner's row it is dropped. */
  function Upserted(owned: bool, rows: map<string, Row>, row: Row): map<string, Row> {
    if !owned then rows
    else if row.id in rows && rows[row.id].revision >= row.revision then rows
    else rows[row.id := row]
  }

  /** One owner's summaries. */
  class SummaryTable {
    var owned: bool
    var rows: map<string, Row>

    constructor ()
      ensures owned && rows == map[]
    {
      owned, rows := true, map[];
    }

    method Save(row: Row)
      modifies this`rows
      ensures rows == Upserted(owned, old(rows), row)
    {
      if owned {
        if row.id !in rows {
          rows := rows[row.id := row];
        } else if rows[row.id].revision < row.revision {
          rows := rows[row.id := row];
        }
      }
    }

    /** The owner is removed, and its summaries with it. */
    method Disown()
      modifies this
      ensures !owned && rows == map[]
    {
      owned, rows := false, map[];
    }

    method Revisions() returns (revisions: map<string, nat>)
      ensures revisions.Keys == rows.Keys
      ensures forall id :: id in rows ==> revisions[id] == rows[id].revision
    {
      revisions := map id | id in rows :: rows[id].revision;
    }
  }

  /**
   * Everything a list of runs can see. `logs[id]` are run `id`'s snapshots, the one of revision k at
   * k - 1; a run's folder can exist before any. `sent` are summaries on their way to the table,
   * `pending` the records other lists are reading, with when each read began.
   */
  datatype World = World(logs: map<string, seq<Run>>, owned: bool, rows: map<string, Row>, sent: set<Row>, pending: map<string, nat>)

  function Log(w: World, id: string): seq<Run> {
    if id in w.logs then w.logs[id] else []
  }

  datatype Event =
    | FolderAppears(id: string)
    | Saves(run: Run)
    | Sends(id: string, revision: nat)
    | Lands(row: Row)
    | Disowned
    | ReadBegins(id: string)
    | ReadEnds(id: string)

  /** What one event, the `at`th, does to the world. */
  ghost predicate Happens(w: World, next: World, event: Event, at: nat) {
    match event
    case FolderAppears(id) => id !in w.logs && next == w.(logs := w.logs[id := []])
    case Saves(run) =>
      run.revision == |Log(w, run.id)| + 1 && next == w.(logs := w.logs[run.id := Log(w, run.id) + [run]])
    case Sends(id, revision) =>
      1 <= revision <= |Log(w, id)| && next == w.(sent := w.sent + {RowOf(Log(w, id)[revision - 1])})
    case Lands(row) => row in w.sent && next == w.(rows := Upserted(w.owned, w.rows, row))
    case Disowned => next == w.(owned := false, rows := map[])
    case ReadBegins(id) => next == w.(pending := w.pending[id := at])
    case ReadEnds(id) => next == w.(pending := w.pending - {id})
  }

  ghost predicate Steps(w: World, next: World, at: nat) {
    exists event :: Happens(w, next, event, at)
  }

  ghost predicate IsHistory(h: seq<World>) {
    && |h| > 0
    && h[0] == World(map[], true, map[], {}, map[])
    && forall i: nat {:trigger Steps(h[i], h[i + 1], i + 1)} :: i + 1 < |h| ==> Steps(h[i], h[i + 1], i + 1)
  }

  /** The row is the summary of its run's snapshot at its revision. */
  predicate TrueRow(w: World, row: Row) {
    1 <= row.revision <= |Log(w, row.id)| && row == RowOf(Log(w, row.id)[row.revision - 1])
  }

  predicate Numbered(log: seq<Run>, id: string) {
    forall k :: 0 <= k < |log| ==> log[k].revision == k + 1 && log[k].id == id
  }

  ghost predicate Sound(w: World, at: nat) {
    && (forall id :: id in w.logs ==> Numbered(w.logs[id], id))
    && (forall row :: row in w.sent ==> TrueRow(w, row))
    && (forall id :: id in w.rows ==> w.rows[id].id == id && TrueRow(w, w.rows[id]))
    && (forall id :: id in w.pending ==> w.pending[id] <= at)
    && (!w.owned ==> w.rows == map[])
  }

  predicate Prefix(a: seq<Run>, b: seq<Run>) {
    |a| <= |b| && b[..|a|] == a
  }

  /** Snapshots are only added, and a row is only replaced by a later revision's or removed for good. */
  ghost predicate Grows(w: World, next: World) {
    && w.logs.Keys <= next.logs.Keys
    && (forall id :: id in w.logs ==> Prefix(w.logs[id], next.logs[id]))
    && (next.owned ==> w.owned)
    && (next.owned ==> forall id :: id in w.rows ==> id in next.rows && w.rows[id].revision <= next.rows[id].revision)
  }

  lemma TrueRowStays(w: World, next: World, row: Row)
    requires TrueRow(w, row) && Prefix(Log(w, row.id), Log(next, row.id))
    ensures TrueRow(next, row)
  {
    assert Log(next, row.id)[row.revision - 1] == Log(next, row.id)[..|Log(w, row.id)|][row.revision - 1];
  }

  lemma EventGrows(w: World, next: World, event: Event, at: nat)
    requires Happens(w, next, event, at)
    ensures Grows(w, next)
  {
  }

  lemma RowsStayTrue(w: World, next: World, row: Row)
    requires Grows(w, next) && TrueRow(w, row)
    ensures TrueRow(next, row)
  {
    TrueRowStays(w, next, row);
  }

  lemma LogsStayNumbered(w: World, next: World, event: Event, at: nat)
    requires Happens(w, next, event, at)
    requires forall id :: id in w.logs ==> Numbered(w.logs[id], id)
    ensures forall id :: id in next.logs ==> Numbered(next.logs[id], id)
  {
  }

  lemma SentStayTrue(w: World, next: World, event: Event, at: nat)
    requires Happens(w, next, event, at) && forall row :: row in w.sent ==> TrueRow(w, row)
    requires forall id :: id in w.logs ==> Numbered(w.logs[id], id)
    ensures forall row :: row in next.sent ==> TrueRow(next, row)
  {
    EventGrows(w, next, event, at);
    forall row | row in next.sent
      ensures TrueRow(next, row)
    {
      if row in w.sent {
        RowsStayTrue(w, next, row);
      } else {
        assert row == RowOf(Log(w, event.id)[event.revision - 1]);
      }
    }
  }

  lemma StoredStayTrue(w: World, next: World, event: Event, at: nat)
    requires Happens(w, next, event, at) && forall row :: row in w.sent ==> TrueRow(w, row)
    requires forall id :: id in w.rows ==> w.rows[id].id == id && TrueRow(w, w.rows[id])
    ensures forall id :: id in next.rows ==> next.rows[id].id == id && TrueRow(next, next.rows[id])
  {
    EventGrows(w, next, event, at);
    forall id | id in next.rows
      ensures next.rows[id].id == id && TrueRow(next, next.rows[id])
    {
      RowsStayTrue(w, next, next.rows[id]);
    }
  }

  lemma EventKeepsSound(w: World, next: World, event: Event, at: nat)
    requires Happens(w, next, event, at) && at > 0 && Sound(w, at - 1)
    ensures Sound(next, at)
  {
    LogsStayNumbered(w, next, event, at);
    SentStayTrue(w, next, event, at);
    StoredStayTrue(w, next, event, at);
  }

  lemma StepFacts(h: seq<World>, i: nat)
    requires IsHistory(h) && i + 1 < |h|
    ensures Grows(h[i], h[i + 1])
    ensures Sound(h[i], i) ==> Sound(h[i + 1], i + 1)
  {
    assert Steps(h[i], h[i + 1], i + 1);
    var event :| Happens(h[i], h[i + 1], event, i + 1);
    EventGrows(h[i], h[i + 1], event, i + 1);
    if Sound(h[i], i) {
      EventKeepsSound(h[i], h[i + 1], event, i + 1);
    }
  }

  /** In every history, each stored summary is that of its run's snapshot at its revision. */
  lemma {:induction false} StoredSummariesAreTrue(h: seq<World>, i: nat)
    requires IsHistory(h) && i < |h|
    ensures Sound(h[i], i)
  {
    if i > 0 {
      StoredSummariesAreTrue(h, i - 1);
      StepFacts(h, i - 1);
    }
  }

  lemma GrowsOn(a: World, b: World, c: World)
    requires Grows(a, b) && Grows(b, c)
    ensures Grows(a, c)
  {
    forall id | id in a.logs
      ensures Prefix(a.logs[id], c.logs[id])
    {
      assert c.logs[id][..|a.logs[id]|] == c.logs[id][..|b.logs[id]|][..|a.logs[id]|];
    }
  }

  /** However late writers finish, stored revisions and logs only grow. */
  lemma {:induction false} HistoryGrows(h: seq<World>, i: nat, j: nat)
    requires IsHistory(h) && i <= j < |h|
    ensures Grows(h[i], h[j])
    decreases j - i
  {
    if i < j {
      HistoryGrows(h, i, j - 1);
      StepFacts(h, j - 1);
      GrowsOn(h[i], h[j - 1], h[j]);
    }
  }

  // ---- Summaries that arrive in any order ----

  /** A table with an owner, after these summaries have been saved in turn. */
  function SavedAll(rows: map<string, Row>, saved: seq<Row>): map<string, Row> {
    if saved == [] then rows else Upserted(true, SavedAll(rows, saved[..|saved| - 1]), saved[|saved| - 1])
  }

  /** The row was stored already, or is the first saved of its revision. */
  ghost predicate IsEarliest(stored: Option<Row>, saved: seq<Row>, id: string, row: Row) {
    if stored.Some? && stored.value.revision >= row.revision then row == stored.value
    else exists i :: 0 <= i < |saved| && saved[i] == row && row.id == id && NoneBefore(saved, i)
  }

  /** No earlier save for the run has as great a revision. */
  predicate NoneBefore(saved: seq<Row>, i: nat)
    requires i < |saved|
  {
    forall j :: 0 <= j < i && saved[j].id == saved[i].id ==> saved[j].revision < saved[i].revision
  }

  /** What is stored for run `id` after `saved`, if `stored` was before: a summary of the greatest
      revision there was, of those the earliest. */
  ghost predicate IsNewest(stored: Option<Row>, saved: seq<Row>, id: string, after: Option<Row>) {
    match after
    case None => stored.None? && forall i :: 0 <= i < |saved| ==> saved[i].id != id
    case Some(row) =>
      && (stored.Some? ==> stored.value.revision <= row.revision)
      && (forall i :: 0 <= i < |saved| && saved[i].id == id ==> saved[i].revision <= row.revision)
      && IsEarliest(stored, saved, id, row)
  }

  lemma StaysEarliest(stored: Option<Row>, saved: seq<Row>, id: string, row: Row, last: Row)
    requires IsEarliest(stored, saved, id, row)
    ensures IsEarliest(stored, saved + [last], id, row)
  {
    if !(stored.Some? && stored.value.revision >= row.revision) {
      var i :| 0 <= i < |saved| && saved[i] == row && NoneBefore(saved, i);
      assert (saved + [last])[i] == row && NoneBefore(saved + [last], i);
    }
  }

  lemma NewestNext(stored: Option<Row>, saved: seq<Row>, id: string, before: Option<Row>, last: Row)
    requires IsNewest(stored, saved, id, before)
    ensures IsNewest(stored, saved + [last], id,
                     if last.id == id && (before.None? || before.value.revision < last.revision) then Some(last) else before)
  {
    if last.id == id && (before.None? || before.value.revision < last.revision) {
      assert (saved + [last])[|saved|] == last && NoneBefore(saved + [last], |saved|);
    } else if before.Some? {
      StaysEarliest(stored, saved, id, before.value, last);
    }
  }

  function At(rows: map<string, Row>, id: string): Option<Row> {
    if id in rows then Some(rows[id]) else None
  }

  /** However late writers finish, each run is left with the newest of its summaries. */
  lemma {:induction false} NewestSummaryIsKept(rows: map<string, Row>, saved: seq<Row>, id: string)
    ensures IsNewest(At(rows, id), saved, id, At(SavedAll(rows, saved), id))
  {
    if saved == [] {
    } else {
      var n := |saved| - 1;
      NewestSummaryIsKept(rows, saved[..n], id);
      NewestNext(At(rows, id), saved[..n], id, At(SavedAll(rows, saved[..n]), id), saved[n]);
      assert saved == saved[..n] + [saved[n]];
    }
  }

  /** Without its owner's row nothing is stored. */
  lemma NothingKeptWithoutOwner(rows: map<string, Row>, row: Row)
    ensures Upserted(false, rows, row) == rows
  {
  }
}
