/**
 * updateEvaluation's loop (src/evaluation/store.ts) against a store that others write to between its
 * awaits, and whose writes may be lost, or saved and reported as failed.
 */
module EvaluationLoop {
  import opened Wrappers
  import opened EvaluationRecord

  /** A change someone applies, and when. */
  datatype Change = Change(request: Request, now: Time)

  /** What happens around one round of the loop, in order: others' changes before it reads, then
      between its read and its write, whether its write arrives and is reported, others' changes
      again, and whether the two minutes are up. */
  datatype Round = Round(now: Time, before: seq<Change>, between: seq<Change>, arrives: bool, reported: bool, after: seq<Change>, expired: bool)

  datatype Result = Returned(run: Run) | Threw(repeatSpend: bool)

  /** Revisions from 1 without a gap, each snapshot one change on from the one before. */
  ghost predicate IsLog(snapshots: seq<Run>) {
    && (forall k :: 0 <= k < |snapshots| ==> snapshots[k].revision == k + 1)
    && (forall k :: 0 < k < |snapshots| ==> Follows(snapshots[k - 1], snapshots[k]))
  }

  // ---- What happens to the log ----

  /** Another writer's change of the newest snapshot. */
  function Other(log: seq<Run>, change: Change): seq<Run> {
    if log == [] then log
    else
      var latest := log[|log| - 1];
      if Apply(change.request, change.now, latest).Changed? then log + [Bumped(change.request, change.now, latest)] else log
  }

  function AllOthers(log: seq<Run>, changes: seq<Change>): seq<Run> {
    if changes == [] then log else Other(AllOthers(log, changes[..|changes| - 1]), changes[|changes| - 1])
  }

  /** A snapshot already there is never replaced. */
  function Written(log: seq<Run>, run: Run): seq<Run> {
    if run.revision <= |log| then log else log + [run]
  }

  predicate IsSaved(log: seq<Run>, run: Run) {
    1 <= run.revision <= |log| && log[run.revision - 1] == run
  }

  /** The second half of a round: saving `next` into a log others have written to. */
  function Saved(round: Round, log: seq<Run>, next: Run): (Option<Result>, seq<Run>) {
    var there := AllOthers(log, round.between);
    var written := if round.arrives then Written(there, next) else there;
    if round.arrives && round.reported && IsSaved(written, next) then (Some(Returned(next)), written)
    else
      var left := AllOthers(written, round.after);
      (if round.expired || |left| < next.revision then Some(Threw(false)) else None, left)
  }

  /** A round from its read on. */
  function Decided(q: Request, round: Round, log: seq<Run>): (Option<Result>, seq<Run>) {
    if log == [] then (Some(Threw(false)), log)
    else
      var run := log[|log| - 1];
      match Apply(q, round.now, run)
      case Refused => (Some(Threw(true)), log)
      case Unchanged => (Some(Returned(run)), log)
      case Changed(_) => Saved(round, log, Bumped(q, round.now, run))
  }

  /** One round: a result, or nothing when the call tries again, and the log after. */
  function Tried(q: Request, round: Round, log: seq<Run>): (Option<Result>, seq<Run>) {
    Decided(q, round, AllOthers(log, round.before))
  }

  /** The call over these rounds; no result while it is still trying. */
  function Updated(q: Request, rounds: seq<Round>, log: seq<Run>): (Option<Result>, seq<Run>) {
    if rounds == [] then (None, log)
    else
      var first := Tried(q, rounds[0], log);
      if first.0.Some? then first else Updated(q, rounds[1..], first.1)
  }

  // ---- The loop ----

  class SnapshotStore {
    var snapshots: seq<Run>

    constructor (first: Option<Run>)
      requires first.Some? ==> first.value.revision == 1
      ensures IsLog(snapshots) && snapshots == if first.Some? then [first.value] else []
    {
      snapshots := if first.Some? then [first.value] else [];
    }

    /** Creates the snapshot of the run's revision; one already there must be identical. */
    method Put(run: Run) returns (saved: bool)
      requires IsLog(snapshots) && 1 < run.revision <= |snapshots| + 1
      requires Follows(snapshots[run.revision - 2], run)
      modifies this
      ensures IsLog(snapshots) && snapshots == Written(old(snapshots), run)
      ensures saved == IsSaved(snapshots, run)
      ensures old(|snapshots|) < run.revision ==> saved
    {
      if run.revision <= |snapshots| {
        saved := snapshots[run.revision - 1] == run;
      } else {
        snapshots := snapshots + [run];
        saved := true;
      }
    }

    /** Another writer's change of the newest snapshot. */
    method OtherOnce(change: Change)
      requires IsLog(snapshots)
      modifies this
      ensures IsLog(snapshots) && old(snapshots) <= snapshots && snapshots == Other(old(snapshots), change)
    {
      if snapshots != [] {
        var latest := snapshots[|snapshots| - 1];
        if Apply(change.request, change.now, latest).Changed? {
          var saved := Put(Bumped(change.request, change.now, latest));
        }
      }
    }

    method Others(changes: seq<Change>)
      requires IsLog(snapshots)
      modifies this
      ensures IsLog(snapshots) && old(snapshots) <= snapshots && snapshots == AllOthers(old(snapshots), changes)
    {
      for i := 0 to |changes|
        invariant IsLog(snapshots) && old(snapshots) <= snapshots
        invariant snapshots == AllOthers(old(snapshots), changes[..i])
      {
        assert changes[..i + 1][..i] == changes[..i];
        OtherOnce(changes[i]);
      }
      assert changes[..|changes|] == changes;
    }
  }

  method SaveOnce(store: SnapshotStore, round: Round, next: Run) returns (result: Option<Result>)
    requires IsLog(store.snapshots) && |store.snapshots| > 0 && next.revision == |store.snapshots| + 1
    requires Follows(store.snapshots[|store.snapshots| - 1], next)
    modifies store
    ensures IsLog(store.snapshots) && old(store.snapshots) <= store.snapshots
    ensures (result, store.snapshots) == Saved(round, old(store.snapshots), next)
  {
    store.Others(round.between);
    var saved := false;
    if round.arrives {
      saved := store.Put(next);
    }
    if saved && round.reported {
      return Some(Returned(next));
    }
    store.Others(round.after);
    if round.expired || |store.snapshots| < next.revision {
      return Some(Threw(false));
    }
    return None;
  }

  method TryOnce(store: SnapshotStore, q: Request, round: Round) returns (result: Option<Result>)
    requires IsLog(store.snapshots)
    modifies store
    ensures IsLog(store.snapshots) && old(store.snapshots) <= store.snapshots
    ensures (result, store.snapshots) == Tried(q, round, old(store.snapshots))
  {
    store.Others(round.before);
    if store.snapshots == [] {
      return Some(Threw(false));
    }
    var run := store.snapshots[|store.snapshots| - 1];
    var outcome := Apply(q, round.now, run);
    if outcome.Refused? {
      return Some(Threw(true));
    }
    if outcome.Unchanged? {
      return Some(Returned(run));
    }
    var next := Bumped(q, round.now, run);
    assert Follows(run, next);
    result := SaveOnce(store, round, next);
  }

  lemma UpdatedNext(q: Request, rounds: seq<Round>, attempt: nat, log: seq<Run>)
    requires attempt < |rounds|
    ensures var tried := Tried(q, rounds[attempt], log);
            Updated(q, rounds[attempt..], log) == if tried.0.Some? then tried else Updated(q, rounds[attempt + 1..], tried.1)
  {
    assert rounds[attempt..][1..] == rounds[attempt + 1..];
  }

  /** The log only grows, whatever happens around the rounds, and by one change at a time. */
  method UpdateEvaluation(store: SnapshotStore, q: Request, rounds: seq<Round>) returns (result: Option<Result>)
    requires IsLog(store.snapshots)
    modifies store
    ensures IsLog(store.snapshots) && old(store.snapshots) <= store.snapshots
    ensures (result, store.snapshots) == Updated(q, rounds, old(store.snapshots))
  {
    var attempt := 0;
    while attempt < |rounds|
      invariant 0 <= attempt <= |rounds|
      invariant IsLog(store.snapshots) && old(store.snapshots) <= store.snapshots
      invariant Updated(q, rounds[attempt..], store.snapshots) == Updated(q, rounds, old(store.snapshots))
    {
      UpdatedNext(q, rounds, attempt, store.snapshots);
      result := TryOnce(store, q, rounds[attempt]);
      if result.Some? {
        return result;
      }
      attempt := attempt + 1;
    }
    return None;
  }

  // ---- What the call's result means ----

  /** A run returned is on the log, and is the call's change of the snapshot before it, or needed
      none; the repeat-spend error means the change was refused by a snapshot on the log. */
  ghost predicate Right(q: Request, rounds: seq<Round>, log: seq<Run>, result: Result) {
    match result
    case Returned(run) => IsSaved(log, run) && exists i :: 0 <= i < |rounds| && MadeIn(q, rounds[i].now, log, run)
    case Threw(repeatSpend) => repeatSpend ==> exists i, k :: 0 <= i < |rounds| && RefusedAt(q, rounds[i].now, log, k)
  }

  ghost predicate MadeIn(q: Request, now: Time, log: seq<Run>, run: Run)
    requires IsSaved(log, run)
  {
    || Apply(q, now, run).Unchanged?
    || (run.revision > 1 && Apply(q, now, log[run.revision - 2]).Changed? && run == Bumped(q, now, log[run.revision - 2]))
  }

  ghost predicate RefusedAt(q: Request, now: Time, log: seq<Run>, k: nat) {
    k < |log| && Apply(q, now, log[k]).Refused?
  }

  /** A longer log, of at most `more` snapshots more. */
  ghost predicate Extends(log: seq<Run>, later: seq<Run>, more: nat) {
    IsLog(later) && log <= later && |later| <= |log| + more
  }

  lemma ExtendsOn(a: seq<Run>, b: seq<Run>, c: seq<Run>, m: nat, n: nat)
    requires Extends(a, b, m) && Extends(b, c, n)
    ensures Extends(a, c, m + n)
  {
  }

  lemma OneMoreExtends(log: seq<Run>, next: Run)
    requires IsLog(log) && log != [] && next.revision == |log| + 1 && Follows(log[|log| - 1], next)
    ensures Extends(log, log + [next], 1)
  {
  }

  lemma OtherExtends(log: seq<Run>, change: Change)
    requires IsLog(log)
    ensures Extends(log, Other(log, change), 1)
  {
    if log != [] && Apply(change.request, change.now, log[|log| - 1]).Changed? {
      var next := Bumped(change.request, change.now, log[|log| - 1]);
      assert Follows(log[|log| - 1], next);
      OneMoreExtends(log, next);
    }
  }

  lemma {:induction false} OthersExtend(log: seq<Run>, changes: seq<Change>)
    requires IsLog(log)
    ensures Extends(log, AllOthers(log, changes), |changes|)
    ensures log == [] ==> AllOthers(log, changes) == []
  {
    if changes != [] {
      var n := |changes| - 1;
      var before := AllOthers(log, changes[..n]);
      OthersExtend(log, changes[..n]);
      OtherExtends(before, changes[n]);
      ExtendsOn(log, before, Other(before, changes[n]), n, 1);
    }
  }

  /** The changes others make around a round. */
  function OthersIn(round: Round): nat {
    |round.before| + |round.between| + |round.after|
  }

  /** The call's write meets no other and is reported. */
  predicate Unopposed(round: Round) {
    round.arrives && round.reported && round.between == []
  }

  /** The call ends with the round: it is unopposed, its time is up, or its write is lost to nobody. */
  predicate LastRound(round: Round) {
    Unopposed(round) || round.expired || (!round.arrives && round.between == [] && round.after == [])
  }

  lemma WrittenExtends(log: seq<Run>, there: seq<Run>, next: Run)
    requires IsLog(log) && log != [] && next.revision == |log| + 1 && Follows(log[|log| - 1], next)
    requires IsLog(there) && log <= there
    ensures Extends(there, Written(there, next), 1) && |Written(there, next)| >= next.revision
  {
    if |there| == |log| {
      assert there == log;
      OneMoreExtends(log, next);
    }
  }

  lemma SavedExtends(round: Round, log: seq<Run>, next: Run)
    requires IsLog(log) && log != [] && next.revision == |log| + 1 && Follows(log[|log| - 1], next)
    ensures Extends(log, Saved(round, log, next).1, |round.between| + 1 + |round.after|)
    ensures round.arrives ==> |Saved(round, log, next).1| >= next.revision
  {
    var there := AllOthers(log, round.between);
    OthersExtend(log, round.between);
    WrittenExtends(log, there, next);
    var written := if round.arrives then Written(there, next) else there;
    OthersExtend(written, round.after);
    ExtendsOn(log, there, written, |round.between|, 1);
    ExtendsOn(log, written, AllOthers(written, round.after), |round.between| + 1, |round.after|);
  }

  lemma SavedEnds(round: Round, log: seq<Run>, next: Run)
    requires IsLog(log) && log != [] && next.revision == |log| + 1 && Follows(log[|log| - 1], next)
    ensures var saved := Saved(round, log, next);
            && (saved.0 == Some(Threw(false)) ==> round.expired || !round.arrives)
            && (LastRound(round) ==> saved.0.Some?)
            && (Unopposed(round) ==> saved == (Some(Returned(next)), log + [next]))
  {
    SavedExtends(round, log, next);
  }

  lemma SavedRight(q: Request, round: Round, log: seq<Run>, next: Run)
    requires IsLog(log) && log != [] && Apply(q, round.now, log[|log| - 1]).Changed?
    requires next == Bumped(q, round.now, log[|log| - 1])
    ensures var saved := Saved(round, log, next); saved.0.Some? ==> Right(q, [round], saved.1, saved.0.value)
  {
    var saved := Saved(round, log, next);
    if saved.0.Some? && saved.0.value.Returned? {
      assert Follows(log[|log| - 1], next);
      SavedExtends(round, log, next);
      assert log[|log| - 1] == saved.1[next.revision - 2];
      assert MadeIn(q, [round][0].now, saved.1, next);
    }
  }

  lemma DecidedExtends(q: Request, round: Round, log: seq<Run>)
    requires IsLog(log)
    ensures Extends(log, Decided(q, round, log).1, |round.between| + 1 + |round.after|)
  {
    if log != [] && Apply(q, round.now, log[|log| - 1]).Changed? {
      var next := Bumped(q, round.now, log[|log| - 1]);
      assert Follows(log[|log| - 1], next);
      SavedExtends(round, log, next);
    }
  }

  lemma TriedExtends(q: Request, round: Round, log: seq<Run>)
    requires IsLog(log)
    ensures Extends(log, Tried(q, round, log).1, OthersIn(round) + 1)
  {
    var there := AllOthers(log, round.before);
    OthersExtend(log, round.before);
    DecidedExtends(q, round, there);
    ExtendsOn(log, there, Decided(q, round, there).1, |round.before|, |round.between| + 1 + |round.after|);
  }

  lemma TriedEnds(q: Request, round: Round, log: seq<Run>)
    requires IsLog(log)
    ensures var tried := Tried(q, round, log);
            && (tried.0 == Some(Threw(false)) ==> log == [] || round.expired || !round.arrives)
            && (LastRound(round) ==> tried.0.Some?)
            && (log == [] ==> tried == (Some(Threw(false)), log))
  {
    OthersExtend(log, round.before);
    DecidedEnds(q, round, AllOthers(log, round.before));
  }

  lemma DecidedEnds(q: Request, round: Round, log: seq<Run>)
    requires IsLog(log)
    ensures Decided(q, round, log).0 == Some(Threw(false)) ==> log == [] || round.expired || !round.arrives
    ensures LastRound(round) ==> Decided(q, round, log).0.Some?
  {
    if log != [] && Apply(q, round.now, log[|log| - 1]).Changed? {
      var next := Bumped(q, round.now, log[|log| - 1]);
      assert Follows(log[|log| - 1], next);
      SavedEnds(round, log, next);
    }
  }

  lemma TriedRight(q: Request, round: Round, log: seq<Run>)
    requires IsLog(log)
    ensures var tried := Tried(q, round, log); tried.0.Some? ==> Right(q, [round], tried.1, tried.0.value)
  {
    OthersExtend(log, round.before);
    var there := AllOthers(log, round.before);
    if there != [] {
      var run := there[|there| - 1];
      match Apply(q, round.now, run)
      case Refused => assert RefusedAt(q, [round][0].now, there, |there| - 1);
      case Unchanged => assert MadeIn(q, [round][0].now, there, run);
      case Changed(_) => SavedRight(q, round, there, Bumped(q, round.now, run));
    }
  }

  lemma RightAmong(q: Request, rounds: seq<Round>, i: nat, log: seq<Run>, result: Result)
    requires i < |rounds| && Right(q, [rounds[i]], log, result)
    ensures Right(q, rounds, log, result)
  {
    if result.Returned? {
      assert MadeIn(q, rounds[i].now, log, result.run);
    } else if result.repeatSpend {
      var k: nat :| RefusedAt(q, [rounds[i]][0].now, log, k);
      assert RefusedAt(q, rounds[i].now, log, k);
    }
  }

  function OthersDuring(rounds: seq<Round>): nat {
    if rounds == [] then 0 else OthersIn(rounds[0]) + OthersDuring(rounds[1..])
  }

  /**
   * Whatever others save around its rounds, what the call returns is right, the log only grows by one
   * change at a time, and at most one snapshot a round is the call's.
   */
  lemma {:induction false} ResultIsRight(q: Request, rounds: seq<Round>, log: seq<Run>)
    requires IsLog(log)
    ensures var updated := Updated(q, rounds, log); updated.0.Some? ==> Right(q, rounds, updated.1, updated.0.value)
    ensures Extends(log, Updated(q, rounds, log).1, OthersDuring(rounds) + |rounds|)
  {
    if rounds != [] {
      TriedRight(q, rounds[0], log);
      TriedExtends(q, rounds[0], log);
      var first := Tried(q, rounds[0], log);
      if first.0.Some? {
        RightAmong(q, rounds, 0, first.1, first.0.value);
      } else {
        ResultIsRight(q, rounds[1..], first.1);
        var rest := Updated(q, rounds[1..], first.1);
        if rest.0.Some? {
          RightLater(q, rounds, rest.1, rest.0.value);
        }
      }
    }
  }

  /** The call gives up only on a missing record, a write that did not arrive, or when its time is up;
      and it ends by the first round that nobody opposes, or that its time or a lost write ends. */
  lemma {:induction false} EndsWhen(q: Request, rounds: seq<Round>, log: seq<Run>)
    requires IsLog(log)
    ensures Updated(q, rounds, log).0 == Some(Threw(false)) ==>
              log == [] || exists i :: 0 <= i < |rounds| && (rounds[i].expired || !rounds[i].arrives)
    ensures (exists i :: 0 <= i < |rounds| && LastRound(rounds[i])) ==> Updated(q, rounds, log).0.Some?
    ensures log == [] && rounds != [] ==> Updated(q, rounds, log) == (Some(Threw(false)), [])
  {
    if rounds != [] {
      TriedEnds(q, rounds[0], log);
      TriedExtends(q, rounds[0], log);
      var first := Tried(q, rounds[0], log);
      if first.0.None? {
        EndsWhen(q, rounds[1..], first.1);
        forall i | 0 <= i < |rounds| && LastRound(rounds[i])
          ensures Updated(q, rounds[1..], first.1).0.Some?
        {
          assert LastRound(rounds[1..][i - 1]);
        }
      }
    }
  }

  lemma RightLater(q: Request, rounds: seq<Round>, log: seq<Run>, result: Result)
    requires rounds != [] && Right(q, rounds[1..], log, result)
    ensures Right(q, rounds, log, result)
  {
    if result.Returned? {
      var i :| 0 <= i < |rounds[1..]| && MadeIn(q, rounds[1..][i].now, log, result.run);
      assert MadeIn(q, rounds[i + 1].now, log, result.run);
    } else if result.repeatSpend {
      var i, k :| 0 <= i < |rounds[1..]| && RefusedAt(q, rounds[1..][i].now, log, k);
      assert RefusedAt(q, rounds[i + 1].now, log, k);
    }
  }

  /** With nobody else about, the call is one change of the newest snapshot, saved as the next. */
  lemma AloneItIsOneChange(q: Request, rounds: seq<Round>, log: seq<Run>)
    requires IsLog(log) && log != [] && rounds != [] && rounds[0].before == [] && Unopposed(rounds[0])
    ensures var newest := log[|log| - 1];
            Updated(q, rounds, log)
            == match Apply(q, rounds[0].now, newest)
               case Refused => (Some(Threw(true)), log)
               case Unchanged => (Some(Returned(newest)), log)
               case Changed(run) => (Some(Returned(run.(revision := |log| + 1))), log + [run.(revision := |log| + 1)])
  {
    var newest := log[|log| - 1];
    if Apply(q, rounds[0].now, newest).Changed? {
      assert Follows(newest, Bumped(q, rounds[0].now, newest));
      SavedEnds(rounds[0], log, Bumped(q, rounds[0].now, newest));
    }
  }
}
