/**
 * Listing a repository's runs from their stored summaries (src/evaluation/run-list.ts) while runs
 * are being saved. Each await lets any number of events pass; `now` is the latest event seen.
 */
module RunLists {
  import opened Wrappers
  import opened EvaluationRecord
  import opened RunSummaries
  import opened Texts

  predicate IsRunId(id: string) {
    |id| == 36 && forall c :: c in id ==> '0' <= c <= '9' || 'a' <= c <= 'f' || c == '-'
  }

  /** What a tag names: the listed runs' revisions. Its hash is taken to be injective. */
  type Tag = map<string, nat>

  datatype Reply = Reply(tag: Tag, runs: Option<seq<Run>>)

  /** A run found current at `revision`, or read from its record. */
  datatype Found = Found(id: string, revision: nat, run: Option<Run>)

  function TagOf(runs: seq<Run>): (tag: Tag)
    ensures forall run :: run in runs ==> run.id in tag
    ensures forall id :: id in tag ==> exists i :: 0 <= i < |runs| && runs[i].id == id && runs[i].revision == tag[id]
  {
    if runs == [] then map[]
    else TagOf(runs[..|runs| - 1])[runs[|runs| - 1].id := runs[|runs| - 1].revision]
  }

  function TagOfFound(found: seq<Found>): (tag: Tag)
    ensures forall f :: f in found ==> f.id in tag
    ensures forall id :: id in tag ==> exists i :: 0 <= i < |found| && found[i].id == id && found[i].revision == tag[id]
  {
    if found == [] then map[]
    else TagOfFound(found[..|found| - 1])[found[|found| - 1].id := found[|found| - 1].revision]
  }

  // ---- Newest first ----

  function Inserted(rank: string -> int, run: Run, runs: seq<Run>): (sorted: seq<Run>)
    ensures multiset(sorted) == multiset(runs) + multiset{run}
  {
    if runs == [] then [run]
    else if rank(run.createdAt) >= rank(runs[0].createdAt) then
      assert [run] + runs == [run] + runs;
      [run] + runs
    else
      assert runs == [runs[0]] + runs[1..];
      [runs[0]] + Inserted(rank, run, runs[1..])
  }

  /** The runs in descending order of creation; `rank` orders the dates as localeCompare does. */
  function NewestFirst(rank: string -> int, runs: seq<Run>): (sorted: seq<Run>)
    ensures multiset(sorted) == multiset(runs)
  {
    if runs == [] then []
    else
      assert runs == [runs[0]] + runs[1..];
      Inserted(rank, runs[0], NewestFirst(rank, runs[1..]))
  }

  // ---- What a reply may contain ----

  /** `run` is the summary of its snapshot in `w`, and no older than the newest there was in `began`. */
  predicate FreshRun(w: World, began: World, run: Run) {
    TrueRow(w, Row(run.id, run.revision, run)) && run.revision >= |Log(began, run.id)|
  }

  /** When a read begun: during the list, or earlier by another list whose read was still under way. */
  ghost predicate BeganWithin(h: seq<World>, start: nat, end: nat, id: string, began: nat)
    requires start <= end < |h|
  {
    began <= end && (began >= start || JoinedRead(h, start, end, id, began))
  }

  ghost predicate JoinedRead(h: seq<World>, start: nat, end: nat, id: string, began: nat)
    requires start <= end < |h|
  {
    exists at :: start <= at <= end && id in h[at].pending && h[at].pending[id] == began
  }

  /** A run of id `id` found by a read begun at `began`, as of `now`. */
  ghost predicate FoundFresh(h: seq<World>, now: nat, f: Found, began: nat)
    requires began <= now < |h|
  {
    && f.revision >= |Log(h[began], f.id)|
    && 1 <= f.revision <= |Log(h[now], f.id)|
    && (f.run.Some? ==> f.run.value.id == f.id && f.run.value.revision == f.revision && FreshRun(h[now], h[began], f.run.value))
    && (f.run.None? && h[now].owned ==> f.id in h[now].rows && h[now].rows[f.id].revision >= f.revision)
  }

  lemma FoundStaysFresh(h: seq<World>, now: nat, later: nat, f: Found, began: nat)
    requires IsHistory(h) && began <= now <= later < |h| && FoundFresh(h, now, f, began)
    ensures FoundFresh(h, later, f, began)
  {
    HistoryGrows(h, now, later);
    if f.run.Some? {
      RowsStayTrue(h[now], h[later], Row(f.run.value.id, f.run.value.revision, f.run.value));
    }
  }

  /** The record's newest snapshot as a summary; a read of it already under way is shared. */
  method Rebuild(h: seq<World>, now: nat, id: string) returns (run: Option<Run>, began: nat, after: nat)
    requires IsHistory(h) && now < |h|
    ensures now <= after < |h| && began <= after
    ensures began >= now || (id in h[now].pending && h[now].pending[id] == began)
    ensures run.None? ==> Log(h[began], id) == []
    ensures run.Some? ==> run.value.id == id && FreshRun(h[after], h[began], run.value)
  {
    StoredSummariesAreTrue(h, now);
    began := if id in h[now].pending then h[now].pending[id] else now;
    var listed :| began <= listed < |h|;
    after :| now <= after < |h| && listed <= after;
    StoredSummariesAreTrue(h, listed);
    HistoryGrows(h, began, listed);
    HistoryGrows(h, listed, after);
    var log := Log(h[listed], id);
    if log == [] {
      return None, began, after;
    }
    run := Some(RunSummary(log[|log| - 1]));
    RowsStayTrue(h[listed], h[after], RowOf(log[|log| - 1]));
  }

  function Latest(a: nat, b: nat): nat {
    if a < b then b else a
  }

  predicate Ascending(ids: seq<string>) {
    forall i, j :: 0 <= i < j < |ids| ==> Before(ids[i], ids[j])
  }

  predicate IsLeast(id: string, ids: set<string>) {
    id in ids && forall other :: other in ids && other != id ==> Before(id, other)
  }

  lemma {:induction false} SomeIsLeast(ids: set<string>)
    requires ids != {}
    ensures exists id :: IsLeast(id, ids)
  {
    var one :| one in ids;
    var rest := ids - {one};
    assert ids == rest + {one};
    if rest == {} {
      assert IsLeast(one, ids);
    } else {
      SomeIsLeast(rest);
      var least :| IsLeast(least, rest);
      BeforeIsTotal(one, least);
      if Before(least, one) {
        assert IsLeast(least, ids);
      } else {
        forall other | other in rest && other != least
          ensures Before(one, other)
        {
          BeforeIsTransitive(one, least, other);
        }
        assert IsLeast(one, ids);
      }
    }
  }

  /**
   * A folder listing's ids, sorted as both stores return them (src/artifacts/gcs.ts, local.ts).
   * Ids of digits, small letters and dashes sort the same by locale as by code point.
   */
  method Sorted(ids: set<string>) returns (order: seq<string>)
    ensures Ascending(order) && forall id :: id in order <==> id in ids
  {
    order := [];
    var left := ids;
    while left != {}
      invariant left <= ids && Ascending(order)
      invariant forall id :: id in order <==> id in ids && id !in left
      invariant forall id, other :: id in order && other in left ==> Before(id, other)
      decreases left
    {
      SomeIsLeast(left);
      var id :| IsLeast(id, left);
      left := left - {id};
      order := order + [id];
    }
  }

  /** Whether run `id` has been saved since `revision`: the next revision's snapshot is there. */
  predicate SavedSince(w: World, id: string, revision: nat) {
    revision + 1 <= |Log(w, id)|
  }

  /** A stored revision found current: the check at `at` is the read that found it. */
  ghost predicate CheckedFresh(h: seq<World>, start: nat, now: nat, id: string, revision: Option<nat>, at: nat)
    requires start <= now < |h|
  {
    start <= at <= now && (revision.Some? ==> FoundFresh(h, now, Found(id, revision.value, None), at))
  }

  lemma CheckStaysFresh(h: seq<World>, start: nat, now: nat, later: nat, id: string, revision: Option<nat>, at: nat)
    requires IsHistory(h) && start <= now <= later < |h| && CheckedFresh(h, start, now, id, revision, at)
    ensures CheckedFresh(h, start, later, id, revision, at)
  {
    if revision.Some? {
      FoundStaysFresh(h, now, later, Found(id, revision.value, None), at);
    }
  }

  lemma CurrentIsFresh(h: seq<World>, read: nat, at: nat, id: string)
    requires IsHistory(h) && read <= at < |h| && id in h[read].rows
    requires !SavedSince(h[at], id, h[read].rows[id].revision)
    ensures FoundFresh(h, at, Found(id, h[read].rows[id].revision, None), at)
  {
    StoredSummariesAreTrue(h, read);
    HistoryGrows(h, read, at);
    RowsStayTrue(h[read], h[at], h[read].rows[id]);
  }

  /** A stored revision counts as current exactly when its run's log is no longer than that. */
  ghost predicate CurrentExactly(h: seq<World>, read: nat, id: string, revision: Option<nat>, at: nat)
    requires read < |h|
  {
    at < |h|
    && revision == if id in h[read].rows && |Log(h[at], id)| <= h[read].rows[id].revision then Some(h[read].rows[id].revision) else None
  }

  /** Checks each id against its stored revision, all at once. */
  method CheckAll(h: seq<World>, start: nat, read: nat, now: nat, ids: seq<string>)
    returns (checked: seq<Option<nat>>, ghost times: seq<nat>, after: nat)
    requires IsHistory(h) && start <= read <= now < |h|
    ensures now <= after < |h| && |checked| == |times| == |ids|
    ensures forall i :: 0 <= i < |ids| ==> CheckedFresh(h, start, after, ids[i], checked[i], times[i])
    ensures forall i :: 0 <= i < |ids| ==> CurrentExactly(h, read, ids[i], checked[i], times[i])
  {
    var revisions := map id | id in h[read].rows :: h[read].rows[id].revision;
    checked, times, after := [], [], now;
    for k := 0 to |ids|
      invariant now <= after < |h| && |checked| == |times| == k
      invariant forall i :: 0 <= i < k ==> CheckedFresh(h, start, after, ids[i], checked[i], times[i])
      invariant forall i :: 0 <= i < k ==> CurrentExactly(h, read, ids[i], checked[i], times[i])
    {
      var id := ids[k];
      var at :| now <= at < |h|;
      var next := Latest(after, at);
      var current := id in revisions && !SavedSince(h[at], id, revisions[id]);
      if current {
        CurrentIsFresh(h, read, at, id);
        FoundStaysFresh(h, at, next, Found(id, revisions[id], None), at);
      }
      forall i | 0 <= i < k
        ensures CheckedFresh(h, start, next, ids[i], checked[i], times[i])
      {
        CheckStaysFresh(h, start, after, next, ids[i], checked[i], times[i]);
      }
      checked := checked + [if current then Some(revisions[id]) else None];
      times := times + [at];
      after := next;
    }
  }

  /** `id`'s read began when `began` says, and found it in `found` unless there was nothing to find. */
  ghost predicate Accounted(h: seq<World>, start: nat, now: nat, ids: seq<string>, began: map<string, nat>, kept: set<string>)
    requires start <= now < |h|
  {
    forall id :: id in ids ==>
      && id in began && BeganWithin(h, start, now, id, began[id])
      && (id !in kept ==> Log(h[began[id]], id) == [])
  }

  function IdsOf(found: seq<Found>): (ids: seq<string>)
    ensures |ids| == |found| && forall i :: 0 <= i < |found| ==> ids[i] == found[i].id
  {
    seq(|found|, i requires 0 <= i < |found| => found[i].id)
  }

  ghost predicate AllFresh(h: seq<World>, now: nat, found: seq<Found>, began: map<string, nat>)
    requires now < |h|
  {
    forall i :: 0 <= i < |found| ==>
      found[i].id in began && began[found[i].id] <= now && FoundFresh(h, now, found[i], began[found[i].id])
  }

  lemma AllFreshLater(h: seq<World>, now: nat, later: nat, found: seq<Found>, began: map<string, nat>)
    requires IsHistory(h) && now <= later < |h| && AllFresh(h, now, found, began)
    ensures AllFresh(h, later, found, began)
  {
    forall i | 0 <= i < |found|
      ensures FoundFresh(h, later, found[i], began[found[i].id])
    {
      FoundStaysFresh(h, now, later, found[i], began[found[i].id]);
    }
  }

  function SetOf(ids: seq<string>): set<string> {
    set id | id in ids
  }

  /** What is known of a list part way: each id accounted for, each run found fresh, in the ids' order. */
  ghost predicate Gathered(h: seq<World>, start: nat, now: nat, ids: seq<string>, found: seq<Found>, began: map<string, nat>)
    requires start <= now < |h|
  {
    && Ascending(IdsOf(found))
    && (forall id :: id in IdsOf(found) ==> id in ids)
    && AllFresh(h, now, found, began)
    && Accounted(h, start, now, ids, began, SetOf(IdsOf(found)))
  }

  lemma GatheredLater(h: seq<World>, start: nat, now: nat, later: nat, ids: seq<string>, found: seq<Found>, began: map<string, nat>)
    requires IsHistory(h) && start <= now <= later < |h| && Gathered(h, start, now, ids, found, began)
    ensures Gathered(h, start, later, ids, found, began)
  {
    AllFreshLater(h, now, later, found, began);
  }

  lemma GatheredOneMore(h: seq<World>, start: nat, now: nat, ids: seq<string>, found: seq<Found>, began: map<string, nat>, f: Found, at: nat)
    requires start <= now < |h| && Gathered(h, start, now, ids, found, began)
    requires (forall id :: id in ids ==> Before(id, f.id)) && BeganWithin(h, start, now, f.id, at) && FoundFresh(h, now, f, at)
    ensures Gathered(h, start, now, ids + [f.id], found + [f], began[f.id := at])
  {
    BeforeIsTotal(f.id, f.id);
    assert IdsOf(found + [f]) == IdsOf(found) + [f.id];
  }

  lemma GatheredNoneMore(h: seq<World>, start: nat, now: nat, ids: seq<string>, found: seq<Found>, began: map<string, nat>, id: string, at: nat)
    requires start <= now < |h| && Gathered(h, start, now, ids, found, began)
    requires (forall other :: other in ids ==> Before(other, id)) && BeganWithin(h, start, now, id, at) && Log(h[at], id) == []
    ensures Gathered(h, start, now, ids + [id], found, began[id := at])
  {
    BeforeIsTotal(id, id);
  }

  /** One id: as found current, or as its record says. */
  method GatherNext(h: seq<World>, start: nat, now: nat, ghost ids: seq<string>, id: string, checked: Option<nat>, ghost time: nat,
                    found: seq<Found>, ghost began: map<string, nat>)
    returns (f: Option<Found>, ghost at: nat, after: nat)
    requires IsHistory(h) && start <= now < |h| && Gathered(h, start, now, ids, found, began)
    requires (forall other :: other in ids ==> Before(other, id)) && CheckedFresh(h, start, now, id, checked, time)
    ensures now <= after < |h|
    ensures Gathered(h, start, after, ids + [id], if f.Some? then found + [f.value] else found, began[id := at])
  {
    if checked.Some? {
      f, at, after := Some(Found(id, checked.value, None)), time, now;
      GatheredOneMore(h, start, now, ids, found, began, f.value, at);
    } else {
      var run;
      run, at, after := Rebuild(h, now, id);
      GatheredLater(h, start, now, after, ids, found, began);
      if run.Some? {
        f := Some(Found(id, run.value.revision, run));
        GatheredOneMore(h, start, after, ids, found, began, f.value, at);
      } else {
        f := None;
        GatheredNoneMore(h, start, after, ids, found, began, id, at);
      }
    }
  }

  /** Takes up each id found current, and reads the records of the others one at a time. */
  method Gather(h: seq<World>, start: nat, now: nat, ids: seq<string>, checked: seq<Option<nat>>, ghost times: seq<nat>)
    returns (found: seq<Found>, ghost began: map<string, nat>, after: nat)
    requires IsHistory(h) && start <= now < |h| && Ascending(ids) && |checked| == |times| == |ids|
    requires forall i :: 0 <= i < |ids| ==> CheckedFresh(h, start, now, ids[i], checked[i], times[i])
    ensures now <= after < |h| && Gathered(h, start, after, ids, found, began)
  {
    found, began, after := [], map[], now;
    for k := 0 to |ids|
      invariant now <= after < |h| && Gathered(h, start, after, ids[..k], found, began)
    {
      assert ids[..k + 1] == ids[..k] + [ids[k]];
      CheckStaysFresh(h, start, now, after, ids[k], checked[k], times[k]);
      var f, at, next := GatherNext(h, start, after, ids[..k], ids[k], checked[k], times[k], found, began);
      if f.Some? {
        found := found + [f.value];
      }
      began, after := began[ids[k] := at], next;
    }
    assert ids[..|ids|] == ids;
  }

  // ---- The listed runs ----

  function RunIds(runs: seq<Run>): (ids: seq<string>)
    ensures |ids| == |runs| && forall i :: 0 <= i < |runs| ==> ids[i] == runs[i].id
  {
    seq(|runs|, i requires 0 <= i < |runs| => runs[i].id)
  }

  ghost predicate AllRunsFresh(h: seq<World>, now: nat, runs: seq<Run>, began: map<string, nat>)
    requires now < |h|
  {
    forall i :: 0 <= i < |runs| ==>
      runs[i].id in began && began[runs[i].id] <= now && FreshRun(h[now], h[began[runs[i].id]], runs[i])
  }

  /** The runs read so far, with `found` still to read. */
  ghost predicate Reading(h: seq<World>, start: nat, now: nat, ids: seq<string>, runs: seq<Run>, found: seq<Found>, began: map<string, nat>)
    requires start <= now < |h|
  {
    && Ascending(RunIds(runs) + IdsOf(found))
    && (forall id :: id in RunIds(runs) + IdsOf(found) ==> id in ids)
    && AllRunsFresh(h, now, runs, began)
    && AllFresh(h, now, found, began)
    && Accounted(h, start, now, ids, began, SetOf(RunIds(runs) + IdsOf(found)))
  }

  lemma FreshRunLater(h: seq<World>, now: nat, later: nat, began: nat, run: Run)
    requires IsHistory(h) && now <= later < |h| && began < |h| && FreshRun(h[now], h[began], run)
    ensures FreshRun(h[later], h[began], run)
  {
    HistoryGrows(h, now, later);
    RowsStayTrue(h[now], h[later], Row(run.id, run.revision, run));
  }

  lemma ReadingLater(h: seq<World>, start: nat, now: nat, later: nat, ids: seq<string>, runs: seq<Run>, found: seq<Found>, began: map<string, nat>)
    requires IsHistory(h) && start <= now <= later < |h| && Reading(h, start, now, ids, runs, found, began)
    ensures Reading(h, start, later, ids, runs, found, began)
  {
    AllFreshLater(h, now, later, found, began);
    forall i | 0 <= i < |runs|
      ensures FreshRun(h[later], h[began[runs[i].id]], runs[i])
    {
      FreshRunLater(h, now, later, began[runs[i].id], runs[i]);
    }
  }

  lemma MiddleIsElsewhere(a: seq<string>, id: string, b: seq<string>)
    requires Ascending(a + [id] + b)
    ensures id !in a && id !in b && Ascending(a + b)
  {
    var all := a + [id] + b;
    BeforeIsTotal(id, id);
    assert all[|a|] == id;
    assert forall i :: 0 <= i < |a| ==> all[i] == a[i];
    assert forall i :: 0 <= i < |b| ==> all[|a| + 1 + i] == b[i];
    assert forall i :: 0 <= i < |a + b| ==> (a + b)[i] == all[if i < |a| then i else i + 1];
  }

  lemma NextIsElsewhere(runs: seq<Run>, found: seq<Found>)
    requires found != [] && Ascending(RunIds(runs) + IdsOf(found))
    ensures found[0].id !in RunIds(runs) && found[0].id !in IdsOf(found[1..])
    ensures RunIds(runs) + IdsOf(found) == RunIds(runs) + [found[0].id] + IdsOf(found[1..])
    ensures Ascending(RunIds(runs) + IdsOf(found[1..]))
  {
    assert RunIds(runs) + IdsOf(found) == RunIds(runs) + [found[0].id] + IdsOf(found[1..]);
    MiddleIsElsewhere(RunIds(runs), found[0].id, IdsOf(found[1..]));
  }

  /** The next run read, by a read begun at `at`. */
  lemma ReadOne(h: seq<World>, start: nat, now: nat, ids: seq<string>, runs: seq<Run>, found: seq<Found>, began: map<string, nat>, run: Run, at: nat)
    requires start <= now < |h| && Reading(h, start, now, ids, runs, found, began)
    requires found != [] && run.id == found[0].id
    requires BeganWithin(h, start, now, run.id, at) && FreshRun(h[now], h[at], run)
    ensures Reading(h, start, now, ids, runs + [run], found[1..], began[run.id := at])
  {
    NextIsElsewhere(runs, found);
    assert RunIds(runs + [run]) == RunIds(runs) + [run.id];
  }

  /** The next run turned out to have no record. */
  lemma ReadNone(h: seq<World>, start: nat, now: nat, ids: seq<string>, runs: seq<Run>, found: seq<Found>, began: map<string, nat>, at: nat)
    requires start <= now < |h| && Reading(h, start, now, ids, runs, found, began)
    requires found != [] && BeganWithin(h, start, now, found[0].id, at) && Log(h[at], found[0].id) == []
    ensures Reading(h, start, now, ids, runs, found[1..], began[found[0].id := at])
  {
    NextIsElsewhere(runs, found);
  }

  lemma StoredIsFresh(h: seq<World>, now: nat, f: Found, began: nat)
    requires IsHistory(h) && began <= now < |h| && FoundFresh(h, now, f, began)
    requires f.run.None? && f.id in h[now].rows
    ensures h[now].rows[f.id].body.id == f.id && FreshRun(h[now], h[began], h[now].rows[f.id].body)
  {
    StoredSummariesAreTrue(h, now);
  }

  /** One entry's run: as read from its record, as stored by `read`, or read now. */
  method ReadNext(h: seq<World>, start: nat, read: nat, now: nat, ghost ids: seq<string>, runs: seq<Run>, rest: seq<Found>, ghost began: map<string, nat>)
    returns (run: Option<Run>, ghost at: nat, after: nat)
    requires IsHistory(h) && start <= read <= now < |h| && rest != []
    requires Reading(h, start, now, ids, runs, rest, began) && AllFresh(h, read, rest, began)
    ensures now <= after < |h|
    ensures var runs' := if run.Some? then runs + [run.value] else runs;
            Reading(h, start, after, ids, runs', rest[1..], began[rest[0].id := at])
    ensures AllFresh(h, read, rest[1..], began[rest[0].id := at])
  {
    var f := rest[0];
    after := now;
    NextIsElsewhere(runs, rest);
    assert FoundFresh(h, read, f, began[f.id]) && FoundFresh(h, now, f, began[f.id]);
    if f.run.Some? {
      run, at := f.run, began[f.id];
      ReadOne(h, start, now, ids, runs, rest, began, f.run.value, at);
    } else if f.id in h[read].rows {
      run, at := Some(h[read].rows[f.id].body), began[f.id];
      StoredIsFresh(h, read, f, at);
      FreshRunLater(h, read, now, at, run.value);
      ReadOne(h, start, now, ids, runs, rest, began, run.value, at);
    } else {
      var began';
      run, began', after := Rebuild(h, now, f.id);
      at := began';
      ReadingLater(h, start, now, after, ids, runs, rest, began);
      if run.Some? {
        ReadOne(h, start, after, ids, runs, rest, began, run.value, at);
      } else {
        ReadNone(h, start, after, ids, runs, rest, began, at);
      }
    }
  }

  method ReadAll(h: seq<World>, start: nat, now: nat, ghost ids: seq<string>, found: seq<Found>, ghost before: map<string, nat>)
    returns (runs: seq<Run>, ghost began: map<string, nat>, after: nat)
    requires IsHistory(h) && start <= now < |h| && Gathered(h, start, now, ids, found, before)
    ensures now <= after < |h| && Reading(h, start, after, ids, runs, [], began)
  {
    var read :| now <= read < |h|;
    runs, began, after := [], before, read;
    GatheredLater(h, start, now, read, ids, found, before);
    assert RunIds(runs) + IdsOf(found) == IdsOf(found);
    assert found[0..] == found;
    for k := 0 to |found|
      invariant read <= after < |h| && Reading(h, start, after, ids, runs, found[k..], began)
      invariant AllFresh(h, read, found[k..], began)
    {
      assert found[k..][1..] == found[k + 1..];
      var run, at, next := ReadNext(h, start, read, after, ids, runs, found[k..], began);
      if run.Some? {
        runs := runs + [run.value];
      }
      began, after := began[found[k].id := at], next;
    }
  }

  // ---- The list ----

  /** Created later, or together with it and of the smaller id. */
  predicate Precedes(rank: string -> int, x: Run, y: Run) {
    rank(x.createdAt) > rank(y.createdAt) || (rank(x.createdAt) == rank(y.createdAt) && Before(x.id, y.id))
  }

  predicate InListOrder(rank: string -> int, runs: seq<Run>) {
    forall i, j :: 0 <= i < j < |runs| ==> Precedes(rank, runs[i], runs[j])
  }

  predicate NoneTwice(runs: seq<Run>) {
    forall i, j :: 0 <= i < j < |runs| ==> runs[i].id != runs[j].id
  }

  /** Sorting is stable: runs created together stay in the order of their ids. */
  lemma {:induction false} InsertedInOrder(rank: string -> int, run: Run, runs: seq<Run>)
    requires InListOrder(rank, runs) && forall other :: other in runs ==> Before(run.id, other.id)
    ensures InListOrder(rank, Inserted(rank, run, runs))
  {
    if runs != [] && rank(run.createdAt) < rank(runs[0].createdAt) {
      var rest := Inserted(rank, run, runs[1..]);
      InsertedInOrder(rank, run, runs[1..]);
      forall j | 0 <= j < |rest|
        ensures Precedes(rank, runs[0], rest[j])
      {
        assert rest[j] in multiset(runs[1..]) + multiset{run};
      }
    }
  }

  lemma {:induction false} InsertedOnce(rank: string -> int, run: Run, runs: seq<Run>)
    requires NoneTwice(runs) && forall other :: other in runs ==> other.id != run.id
    ensures NoneTwice(Inserted(rank, run, runs))
  {
    if runs != [] && rank(run.createdAt) < rank(runs[0].createdAt) {
      var rest := Inserted(rank, run, runs[1..]);
      InsertedOnce(rank, run, runs[1..]);
      forall j | 0 <= j < |rest|
        ensures runs[0].id != rest[j].id
      {
        assert rest[j] in multiset(runs[1..]) + multiset{run};
      }
    }
  }

  lemma FirstIdIsLeast(runs: seq<Run>, other: Run)
    requires runs != [] && Ascending(RunIds(runs)) && other in runs[1..]
    ensures Before(runs[0].id, other.id) && other.id != runs[0].id
  {
    var k :| 0 <= k < |runs| - 1 && runs[1..][k] == other;
    assert Before(RunIds(runs)[0], RunIds(runs)[k + 1]);
    BeforeIsTotal(other.id, other.id);
  }

  lemma {:induction false} NewestFirstHolds(rank: string -> int, runs: seq<Run>)
    requires Ascending(RunIds(runs))
    ensures InListOrder(rank, NewestFirst(rank, runs)) && NoneTwice(NewestFirst(rank, runs))
  {
    if runs != [] {
      var rest := NewestFirst(rank, runs[1..]);
      assert RunIds(runs[1..]) == RunIds(runs)[1..];
      NewestFirstHolds(rank, runs[1..]);
      forall other | other in rest
        ensures Before(runs[0].id, other.id) && other.id != runs[0].id
      {
        assert other in multiset(runs[1..]);
        FirstIdIsLeast(runs, other);
      }
      InsertedInOrder(rank, runs[0], rest);
      InsertedOnce(rank, runs[0], rest);
    }
  }

  lemma SameIds(a: seq<Run>, b: seq<Run>, id: string)
    requires multiset(a) == multiset(b) && id in RunIds(a)
    ensures id in RunIds(b)
  {
    var i :| 0 <= i < |a| && RunIds(a)[i] == id;
    assert a[i] in multiset(b);
    var j :| 0 <= j < |b| && b[j] == a[i];
    assert RunIds(b)[j] == id;
  }

  /**
   * What a list may hold: every run whose folder was there when the call began, unless its read
   * found no record; each once, newest first and those created together by id, as of `end`, and no
   * older than when its read began.
   */
  ghost predicate IsListing(h: seq<World>, start: nat, end: nat, rank: string -> int, runs: seq<Run>, began: map<string, nat>)
    requires start <= end < |h|
  {
    && InListOrder(rank, runs)
    && NoneTwice(runs)
    && (forall i :: 0 <= i < |runs| ==> IsRunId(runs[i].id))
    && AllRunsFresh(h, end, runs, began)
    && (forall id :: id in began ==> BeganWithin(h, start, end, id, began[id]))
    && (forall id :: id in h[start].logs && IsRunId(id) ==>
          id in began && (id in RunIds(runs) || Log(h[began[id]], id) == []))
  }

  /** What a reply without a list says of the list `tag` names: no run of it is older than that either. */
  ghost predicate IsCurrentTag(h: seq<World>, start: nat, end: nat, tag: Tag, began: map<string, nat>)
    requires start <= end < |h|
  {
    && (forall id :: id in began ==> BeganWithin(h, start, end, id, began[id]))
    && (forall id :: id in h[start].logs && IsRunId(id) ==>
          id in began && (id in tag || Log(h[began[id]], id) == []))
    && (forall id :: id in tag ==> id in began && |Log(h[began[id]], id)| <= tag[id] <= |Log(h[end], id)|)
  }

  /** The ids of all runs whose folders were there at `start`. */
  ghost predicate Covers(h: seq<World>, start: nat, ids: seq<string>)
    requires start < |h|
  {
    forall id :: id in h[start].logs && IsRunId(id) ==> id in ids
  }

  /** A tag that was current at some time of the call. */
  ghost predicate CheckedTag(h: seq<World>, start: nat, end: nat, tag: Tag)
    requires start <= end < |h|
  {
    exists at, began :: start <= at <= end && IsCurrentTag(h, start, at, tag, began)
  }

  /** A run of `sorted` is one of `runs`: its id was read, and the read found it. */
  lemma SortedRunIsRead(h: seq<World>, start: nat, end: nat, ids: seq<string>, runs: seq<Run>, sorted: seq<Run>, began: map<string, nat>, i: nat)
    requires start <= end < |h| && Reading(h, start, end, ids, runs, [], began)
    requires multiset(sorted) == multiset(runs) && i < |sorted|
    ensures sorted[i].id in ids && sorted[i].id in began && began[sorted[i].id] <= end
    ensures FreshRun(h[end], h[began[sorted[i].id]], sorted[i])
  {
    assert sorted[i] in multiset(runs);
    var k :| 0 <= k < |runs| && runs[k] == sorted[i];
    assert RunIds(runs) + IdsOf([]) == RunIds(runs);
    assert RunIds(runs)[k] in RunIds(runs);
  }

  lemma SortedKeepsIds(runs: seq<Run>, sorted: seq<Run>)
    requires multiset(sorted) == multiset(runs)
    ensures forall id :: id in RunIds(runs) ==> id in RunIds(sorted)
  {
    forall id | id in RunIds(runs)
      ensures id in RunIds(sorted)
    {
      SameIds(runs, sorted, id);
    }
  }

  lemma SortedIsListing(h: seq<World>, start: nat, end: nat, rank: string -> int, ids: seq<string>, runs: seq<Run>, began: map<string, nat>)
    requires start <= end < |h| && Reading(h, start, end, ids, runs, [], began)
    requires Covers(h, start, ids) && forall id :: id in ids ==> IsRunId(id)
    ensures IsListing(h, start, end, rank, NewestFirst(rank, runs), Among(began, ids))
  {
    assert RunIds(runs) + IdsOf([]) == RunIds(runs);
    NewestFirstHolds(rank, runs);
    var sorted := NewestFirst(rank, runs);
    forall i | 0 <= i < |sorted|
      ensures sorted[i].id in Among(began, ids) && began[sorted[i].id] <= end && IsRunId(sorted[i].id)
      ensures FreshRun(h[end], h[began[sorted[i].id]], sorted[i])
    {
      SortedRunIsRead(h, start, end, ids, runs, sorted, began, i);
    }
    SortedKeepsIds(runs, sorted);
  }

  function Among(began: map<string, nat>, ids: seq<string>): map<string, nat> {
    map id | id in began && id in ids :: began[id]
  }

  lemma FoundTagIsCurrent(h: seq<World>, start: nat, end: nat, ids: seq<string>, found: seq<Found>, began: map<string, nat>)
    requires start <= end < |h| && Gathered(h, start, end, ids, found, began)
    requires Covers(h, start, ids)
    ensures IsCurrentTag(h, start, end, TagOfFound(found), Among(began, ids))
  {
    var tag := TagOfFound(found);
    forall id | id in tag
      ensures id in Among(began, ids) && |Log(h[began[id]], id)| <= tag[id] <= |Log(h[end], id)|
    {
      var i :| 0 <= i < |found| && found[i].id == id && found[i].revision == tag[id];
      assert IdsOf(found)[i] == id;
      assert FoundFresh(h, end, found[i], began[id]);
    }
    forall id | id in ids
      ensures id in IdsOf(found) ==> id in tag
    {
    }
  }

  /** Names the runs and checks each: what is found of the folders there were when the call began. */
  method FindRuns(h: seq<World>, start: nat)
    returns (ids: seq<string>, found: seq<Found>, ghost before: map<string, nat>, gathered: nat)
    requires IsHistory(h) && start < |h|
    ensures start <= gathered < |h| && Gathered(h, start, gathered, ids, found, before)
    ensures Covers(h, start, ids) && forall id :: id in ids ==> IsRunId(id)
  {
    var folders :| start <= folders < |h|;
    var read :| start <= read < |h|;
    ids := Sorted(set id | id in h[folders].logs && IsRunId(id));
    HistoryGrows(h, start, folders);
    var checked, times, now := CheckAll(h, start, read, Latest(folders, read), ids);
    found, before, gathered := Gather(h, start, now, ids, checked, times);
  }

  /** Lists the runs, unless the tag the caller holds still names the same revisions; `current` is
      the tag found for them. */
  method ListRuns(h: seq<World>, start: nat, rank: string -> int, have: Option<Tag>)
    returns (reply: Reply, end: nat, ghost began: map<string, nat>, ghost current: Tag)
    requires IsHistory(h) && start < |h|
    ensures start <= end < |h|
    ensures CheckedTag(h, start, end, current) && (reply.runs.None? <==> have == Some(current))
    ensures reply.runs.Some? ==>
              IsListing(h, start, end, rank, reply.runs.value, began) && reply.tag == TagOf(reply.runs.value)
    ensures reply.runs.None? ==> have == Some(reply.tag) && IsCurrentTag(h, start, end, reply.tag, began)
  {
    var ids, found, before, gathered := FindRuns(h, start);
    FoundTagIsCurrent(h, start, gathered, ids, found, before);
    current := TagOfFound(found);
    var tag := TagOfFound(found);
    if have == Some(tag) {
      return Reply(tag, None), gathered, Among(before, ids), current;
    }
    var runs, after, last := ReadAll(h, start, gathered, ids, found, before);
    SortedIsListing(h, start, last, rank, ids, runs, after);
    var sorted := NewestFirst(rank, runs);
    return Reply(TagOf(sorted), Some(sorted)), last, Among(after, ids), current;
  }

  // ---- What a list means ----

  /** With no save since the reads behind it began, a list is the newest summary of every run. */
  lemma QuietListIsNewest(h: seq<World>, start: nat, end: nat, rank: string -> int, runs: seq<Run>, began: map<string, nat>)
    requires IsHistory(h) && start <= end < |h| && IsListing(h, start, end, rank, runs, began)
    requires forall id :: id in began ==> Log(h[began[id]], id) == Log(h[end], id)
    ensures forall run :: run in runs ==>
              Log(h[end], run.id) != [] && run == RunSummary(Log(h[end], run.id)[|Log(h[end], run.id)| - 1])
    ensures forall id :: id in h[start].logs && IsRunId(id) && Log(h[end], id) != [] ==> id in RunIds(runs)
  {
    forall run | run in runs
      ensures Log(h[end], run.id) != [] && run == RunSummary(Log(h[end], run.id)[|Log(h[end], run.id)| - 1])
    {
      var i :| 0 <= i < |runs| && runs[i] == run;
      assert FreshRun(h[end], h[began[run.id]], runs[i]);
    }
  }

  /** What a quiet list shows, field by field: each run as its newest snapshot has it, but for the
      output text of its trials. */
  lemma QuietListShowsNewest(h: seq<World>, start: nat, end: nat, rank: string -> int, runs: seq<Run>, began: map<string, nat>, i: nat)
    requires IsHistory(h) && start <= end < |h| && IsListing(h, start, end, rank, runs, began) && i < |runs|
    requires forall id :: id in began ==> Log(h[began[id]], id) == Log(h[end], id)
    ensures var log := Log(h[end], runs[i].id);
            log != [] && Shows(runs[i], log[|log| - 1])
  {
    QuietListIsNewest(h, start, end, rank, runs, began);
    assert runs[i] in runs;
    var log := Log(h[end], runs[i].id);
    SummaryShowsTheRun(log[|log| - 1], runs[i]);
  }

  /** At any time, every listed run shows the snapshot of its revision. */
  lemma ListShowsSnapshots(h: seq<World>, start: nat, end: nat, rank: string -> int, runs: seq<Run>, began: map<string, nat>, i: nat)
    requires IsHistory(h) && start <= end < |h| && IsListing(h, start, end, rank, runs, began) && i < |runs|
    ensures var log := Log(h[end], runs[i].id);
            1 <= runs[i].revision <= |log| && Shows(runs[i], log[runs[i].revision - 1])
  {
    assert FreshRun(h[end], h[began[runs[i].id]], runs[i]);
    SummaryShowsTheRun(Log(h[end], runs[i].id)[runs[i].revision - 1], runs[i]);
  }

  /** One revision of a run has one summary, whenever it is read. */
  lemma OneSummaryPerRevision(h: seq<World>, i: nat, j: nat, a: Run, b: Run)
    requires IsHistory(h) && i < |h| && j < |h|
    requires TrueRow(h[i], Row(a.id, a.revision, a)) && TrueRow(h[j], Row(b.id, b.revision, b))
    requires a.id == b.id && a.revision == b.revision
    ensures a == b
  {
    if i <= j {
      HistoryGrows(h, i, j);
      RowsStayTrue(h[i], h[j], Row(a.id, a.revision, a));
    } else {
      HistoryGrows(h, j, i);
      RowsStayTrue(h[j], h[i], Row(b.id, b.revision, b));
    }
  }

  lemma SameTagSameRuns(h: seq<World>, i: nat, j: nat, a: seq<Run>, b: seq<Run>, run: Run)
    requires IsHistory(h) && i < |h| && j < |h|
    requires NoneTwice(a) && NoneTwice(b) && TagOf(a) == TagOf(b)
    requires forall k :: 0 <= k < |a| ==> TrueRow(h[i], Row(a[k].id, a[k].revision, a[k]))
    requires forall k :: 0 <= k < |b| ==> TrueRow(h[j], Row(b[k].id, b[k].revision, b[k]))
    requires run in a
    ensures run in b
  {
    var x :| 0 <= x < |a| && a[x] == run;
    var y :| 0 <= y < |b| && b[y].id == run.id && b[y].revision == TagOf(b)[run.id];
    OneSummaryPerRevision(h, i, j, a[x], b[y]);
  }

  ghost predicate SameRuns(a: seq<Run>, b: seq<Run>) {
    forall run :: run in a <==> run in b
  }

  lemma NotBoth(rank: string -> int, x: Run, y: Run)
    ensures !(Precedes(rank, x, y) && Precedes(rank, y, x))
  {
    BeforeIsTotal(x.id, y.id);
  }

  lemma FirstPrecedes(rank: string -> int, runs: seq<Run>, x: Run)
    requires InListOrder(rank, runs) && x in runs
    ensures runs[0] == x || Precedes(rank, runs[0], x)
  {
  }

  lemma FirstAlike(rank: string -> int, a: seq<Run>, b: seq<Run>)
    requires InListOrder(rank, a) && InListOrder(rank, b) && SameRuns(a, b)
    requires a != [] && b != []
    ensures a[0] == b[0]
  {
    assert a[0] in a && b[0] in b;
    FirstPrecedes(rank, a, b[0]);
    FirstPrecedes(rank, b, a[0]);
    NotBoth(rank, a[0], b[0]);
  }

  lemma FirstIsElsewhere(runs: seq<Run>)
    requires runs != [] && NoneTwice(runs)
    ensures forall run :: run in runs[1..] <==> run in runs && run != runs[0]
  {
    assert forall k :: 0 <= k < |runs| - 1 ==> runs[1..][k] == runs[k + 1];
    assert runs == [runs[0]] + runs[1..];
  }

  lemma RestsAlike(rank: string -> int, a: seq<Run>, b: seq<Run>)
    requires a != [] && b != [] && a[0] == b[0] && NoneTwice(a) && NoneTwice(b) && SameRuns(a, b)
    ensures SameRuns(a[1..], b[1..]) && NoneTwice(a[1..]) && NoneTwice(b[1..])
    ensures InListOrder(rank, a) ==> InListOrder(rank, a[1..])
    ensures InListOrder(rank, b) ==> InListOrder(rank, b[1..])
  {
    FirstIsElsewhere(a);
    FirstIsElsewhere(b);
  }

  /** List order leaves one arrangement of a set of runs. */
  lemma {:induction false} SortedAlike(rank: string -> int, a: seq<Run>, b: seq<Run>)
    requires InListOrder(rank, a) && InListOrder(rank, b) && NoneTwice(a) && NoneTwice(b) && SameRuns(a, b)
    ensures a == b
  {
    assert a != [] ==> a[0] in a;
    assert b != [] ==> b[0] in b;
    if a != [] && b != [] {
      FirstAlike(rank, a, b);
      RestsAlike(rank, a, b);
      SortedAlike(rank, a[1..], b[1..]);
      assert a == [a[0]] + a[1..] && b == [b[0]] + b[1..];
    }
  }

  /** Equal tags mean equal lists: the same summaries in the same order, whenever each was made. */
  lemma EqualTagsEqualLists(h: seq<World>, startA: nat, endA: nat, a: seq<Run>, beganA: map<string, nat>,
                            startB: nat, endB: nat, b: seq<Run>, beganB: map<string, nat>, rank: string -> int)
    requires IsHistory(h) && startA <= endA < |h| && startB <= endB < |h|
    requires IsListing(h, startA, endA, rank, a, beganA) && IsListing(h, startB, endB, rank, b, beganB)
    requires TagOf(a) == TagOf(b)
    ensures a == b
  {
    assert forall k :: 0 <= k < |a| ==> FreshRun(h[endA], h[beganA[a[k].id]], a[k]);
    assert forall k :: 0 <= k < |b| ==> FreshRun(h[endB], h[beganB[b[k].id]], b[k]);
    forall run
      ensures run in a <==> run in b
    {
      if run in a { SameTagSameRuns(h, endA, endB, a, b, run); }
      if run in b { SameTagSameRuns(h, endB, endA, b, a, run); }
    }
    SortedAlike(rank, a, b);
  }

  /** Told that its tag still holds, a caller's list is as fresh as a list read now could be. */
  lemma KeptListIsFresh(h: seq<World>, startA: nat, endA: nat, kept: seq<Run>, beganA: map<string, nat>,
                        start: nat, end: nat, began: map<string, nat>, rank: string -> int)
    requires IsHistory(h) && startA <= endA <= start <= end < |h|
    requires IsListing(h, startA, endA, rank, kept, beganA) && IsCurrentTag(h, start, end, TagOf(kept), began)
    ensures IsListing(h, start, end, rank, kept, began)
  {
    forall i | 0 <= i < |kept|
      ensures kept[i].id in began && FreshRun(h[end], h[began[kept[i].id]], kept[i])
    {
      FreshRunLater(h, endA, end, beganA[kept[i].id], kept[i]);
    }
    forall id | id in TagOf(kept)
      ensures id in RunIds(kept)
    {
      var i :| 0 <= i < |kept| && kept[i].id == id && kept[i].revision == TagOf(kept)[id];
      assert RunIds(kept)[i] == id;
    }
  }
}
