/**
 * The outbox of meter events and its claims (src/db/billing.ts): a claim's attempt number fences
 * off the settlements of claims it superseded. Times are milliseconds.
 */
module BillingOutbox {
  import opened Wrappers

  datatype Status = Pending | Delivering | Sent | Failed

  datatype Event = Event(
    usageId: nat,
    customerId: string,
    value: int,
    status: Status,
    attempts: nat,
    nextAttemptAt: int,
    lastError: Option<string>,
    sentAt: Option<int>)

  type Rows = map<nat, Event>

  const CLAIM_MS := 300_000

  predicate Due(event: Event, now: int) {
    !event.status.Sent? && event.nextAttemptAt <= now
  }

  /** The row a claim selects: the due one of the least id. */
  predicate IsCandidate(rows: Rows, now: int, candidate: Option<nat>) {
    match candidate
    case Some(id) => id in rows && Due(rows[id], now) && forall other :: other in rows && Due(rows[other], now) ==> id <= other
    case None => forall other :: other in rows ==> !Due(rows[other], now)
  }

  /** The update of the selected row. It checks the time again but not the status. */
  function Taken(rows: Rows, id: nat, now: int): Rows {
    if id in rows && rows[id].nextAttemptAt <= now then
      rows[id := rows[id].(status := Delivering, attempts := rows[id].attempts + 1, nextAttemptAt := now + CLAIM_MS)]
    else rows
  }

  predicate Takes(rows: Rows, id: nat, now: int) {
    id in rows && rows[id].nextAttemptAt <= now
  }

  /** The row is being delivered under the claim numbered `attempts`. */
  predicate HeldBy(rows: Rows, id: nat, attempts: nat) {
    id in rows && rows[id].status.Delivering? && rows[id].attempts == attempts
  }

  function Delivered(rows: Rows, id: nat, attempts: nat, now: int): Rows {
    if HeldBy(rows, id, attempts) then rows[id := rows[id].(status := Sent, sentAt := Some(now), lastError := None)]
    else rows
  }

  function Power(n: nat): nat {
    if n == 0 then 1 else 2 * Power(n - 1)
  }

  function Least(a: int, b: int): int {
    if a < b then a else b
  }

  function FailedDelivery(rows: Rows, id: nat, attempts: nat, error: string, now: int): Rows {
    if HeldBy(rows, id, attempts) then
      var delaySeconds := Least(3600, Power(if attempts < 10 then attempts else 10));
      rows[id := rows[id].(status := Failed,
                           lastError := Some(if |error| <= 1000 then error else error[..1000]),
                           nextAttemptAt := now + delaySeconds * 1000)]
    else rows
  }

  class Outbox {
    var rows: Rows

    constructor ()
      ensures rows == map[]
    {
      rows := map[];
    }

    /** The first statement of claimDelivery. */
    method Select(now: int) returns (candidate: Option<nat>)
      ensures IsCandidate(rows, now, candidate)
    {
      candidate := None;
      var left := rows.Keys;
      while left != {}
        invariant left <= rows.Keys
        invariant forall id :: id in rows && id !in left && Due(rows[id], now) ==> candidate.Some? && candidate.value <= id
        invariant candidate.Some? ==> candidate.value in rows && Due(rows[candidate.value], now)
        decreases left
      {
        var id :| id in left;
        left := left - {id};
        if Due(rows[id], now) && (candidate.None? || id < candidate.value) {
          candidate := Some(id);
        }
      }
    }

    /** The second statement of claimDelivery. */
    method Take(id: nat, now: int) returns (claimed: Option<Event>)
      modifies this
      ensures rows == Taken(old(rows), id, now)
      ensures claimed == if Takes(old(rows), id, now) then Some(rows[id]) else None
    {
      claimed := None;
      if id in rows && rows[id].nextAttemptAt <= now {
        var event := rows[id].(status := Delivering, attempts := rows[id].attempts + 1);
        event := event.(nextAttemptAt := now + CLAIM_MS);
        rows := rows[id := event];
        claimed := Some(event);
      }
    }

    method Deliver(id: nat, attempts: nat, now: int)
      modifies this
      ensures rows == Delivered(old(rows), id, attempts, now)
    {
      if id in rows && rows[id].status.Delivering? && rows[id].attempts == attempts {
        rows := rows[id := rows[id].(status := Sent, sentAt := Some(now), lastError := None)];
      }
    }

    method Fail(id: nat, attempts: nat, error: string, now: int)
      modifies this
      ensures rows == FailedDelivery(old(rows), id, attempts, error, now)
    {
      var delaySeconds := Least(3600, Power(if attempts < 10 then attempts else 10));
      if id in rows && rows[id].status.Delivering? && rows[id].attempts == attempts {
        var kept := if |error| <= 1000 then error else error[..1000];
        rows := rows[id := rows[id].(status := Failed, lastError := Some(kept), nextAttemptAt := now + delaySeconds * 1000)];
      }
    }
  }

  // ---- Senders over one outbox ----

  /** A claim that was made: its row and its number. */
  datatype Claim = Claim(id: nat, attempts: nat)

  /** A row selected and not yet updated, with the time the claim read. */
  datatype Selected = Selected(id: nat, now: int)

  datatype State = State(rows: Rows, selected: map<nat, Selected>, claims: seq<Claim>)

  datatype Step =
    | Enqueues(id: nat, event: Event)
    | Selects(sender: nat, id: nat, now: int)
    | Updates(sender: nat)
    | Delivers(claim: Claim, now: int)
    | Fails(claim: Claim, error: string, now: int)

  /** Settlements come only from claims made, but as late and as often as their senders like. */
  ghost predicate NextStep(s: State, t: State, step: Step) {
    match step
    case Enqueues(id, event) =>
      && id !in s.rows && event.status.Pending? && event.attempts == 0
      && t == s.(rows := s.rows[id := event])
    case Selects(sender, id, now) =>
      && IsCandidate(s.rows, now, Some(id))
      && t == s.(selected := s.selected[sender := Selected(id, now)])
    case Updates(sender) =>
      && sender in s.selected
      && var Selected(id, now) := s.selected[sender];
         t == State(Taken(s.rows, id, now), s.selected - {sender},
                    if Takes(s.rows, id, now) then s.claims + [Claim(id, s.rows[id].attempts + 1)] else s.claims)
    case Delivers(claim, now) =>
      claim in s.claims && t == s.(rows := Delivered(s.rows, claim.id, claim.attempts, now))
    case Fails(claim, error, now) =>
      claim in s.claims && t == s.(rows := FailedDelivery(s.rows, claim.id, claim.attempts, error, now))
  }

  ghost predicate Next(s: State, t: State) {
    exists step :: NextStep(s, t, step)
  }

  ghost predicate Continues(states: seq<State>) {
    |states| > 0 && forall i {:trigger Next(states[i], states[i + 1])} :: 0 <= i < |states| - 1 ==> Next(states[i], states[i + 1])
  }

  lemma StepAt(states: seq<State>, i: nat) returns (step: Step)
    requires Continues(states) && i + 1 < |states|
    ensures NextStep(states[i], states[i + 1], step)
  {
    assert Next(states[i], states[i + 1]);
    step :| NextStep(states[i], states[i + 1], step);
  }

  ghost predicate IsRun(states: seq<State>) {
    Continues(states) && states[0] == State(map[], map[], [])
  }

  // ---- Every claim's number is its own ----

  /** Claims are numbered upwards, row by row, and a row's number is that of its latest claim. */
  predicate Fenced(s: State) {
    && (forall i :: 0 <= i < |s.claims| ==> s.claims[i].id in s.rows && s.claims[i].attempts <= s.rows[s.claims[i].id].attempts)
    && (forall i, j :: 0 <= i < j < |s.claims| && s.claims[i].id == s.claims[j].id ==>
          s.claims[i].attempts < s.claims[j].attempts)
  }

  lemma {:induction false} FencedAlways(states: seq<State>, i: nat)
    requires IsRun(states) && i < |states|
    ensures Fenced(states[i])
  {
    if i > 0 {
      FencedAlways(states, i - 1);
      var step := StepAt(states, i - 1);
    }
  }

  /** No two claims of a row have one number. */
  lemma ClaimsAreDistinct(states: seq<State>, n: nat, i: nat, j: nat)
    requires IsRun(states) && n < |states| && i < j < |states[n].claims|
    ensures states[n].claims[i] != states[n].claims[j]
  {
    FencedAlways(states, n);
  }

  /** A claim followed by another of its row changes nothing when it settles, however it does. */
  lemma SupersededClaimChangesNothing(states: seq<State>, n: nat, i: nat, j: nat, error: string, now: int)
    requires IsRun(states) && n < |states| && i < j < |states[n].claims|
    requires states[n].claims[i].id == states[n].claims[j].id
    ensures var claim := states[n].claims[i];
            && Delivered(states[n].rows, claim.id, claim.attempts, now) == states[n].rows
            && FailedDelivery(states[n].rows, claim.id, claim.attempts, error, now) == states[n].rows
  {
    FencedAlways(states, n);
  }

  /** A claim takes effect at most once: after it has settled, settling it again changes nothing. */
  lemma ClaimSettlesOnce(rows: Rows, claim: Claim, error: string, now: int, again: string, later: int)
    ensures var sent := Delivered(rows, claim.id, claim.attempts, now);
            && Delivered(sent, claim.id, claim.attempts, later) == sent
            && FailedDelivery(sent, claim.id, claim.attempts, again, later) == sent
    ensures var failed := FailedDelivery(rows, claim.id, claim.attempts, error, now);
            && Delivered(failed, claim.id, claim.attempts, later) == failed
            && FailedDelivery(failed, claim.id, claim.attempts, again, later) == failed
  {
  }

  // ---- Whether a sent row stays sent ----

  predicate IsSent(s: State, id: nat) {
    id in s.rows && s.rows[id].status.Sent?
  }

  /** A sender selected the row while it was due and can still update it. */
  predicate SelectionOutstanding(s: State, id: nat) {
    exists sender :: sender in s.selected && s.selected[sender].id == id && Takes(s.rows, id, s.selected[sender].now)
  }

  /** However the run goes on, the row stays sent. */
  ghost predicate StaysSent(s: State, id: nat) {
    forall states :: Continues(states) && states[0] == s ==> forall i :: 0 <= i < |states| ==> IsSent(states[i], id)
  }

  lemma {:induction false} SentOn(states: seq<State>, id: nat, i: nat)
    requires Continues(states) && i < |states| && IsSent(states[0], id) && !SelectionOutstanding(states[0], id)
    ensures IsSent(states[i], id) && !SelectionOutstanding(states[i], id)
  {
    if i > 0 {
      SentOn(states, id, i - 1);
      var step := StepAt(states, i - 1);
    }
  }

  /** A sent row stays sent exactly when no sender selected it earlier and has yet to update it. */
  lemma SentStaysExactlyWhen(s: State, id: nat)
    requires IsSent(s, id)
    ensures StaysSent(s, id) <==> !SelectionOutstanding(s, id)
  {
    if SelectionOutstanding(s, id) {
      var sender :| sender in s.selected && s.selected[sender].id == id && Takes(s.rows, id, s.selected[sender].now);
      var now := s.selected[sender].now;
      var t := State(Taken(s.rows, id, now), s.selected - {sender}, s.claims + [Claim(id, s.rows[id].attempts + 1)]);
      assert NextStep(s, t, Updates(sender));
      var states := [s, t];
      assert Next(states[0], states[1]);
      assert Continues(states) && !IsSent(states[1], id);
    } else {
      forall states, i | Continues(states) && states[0] == s && 0 <= i < |states|
        ensures IsSent(states[i], id)
      {
        SentOn(states, id, i);
      }
    }
  }

  /** One row's story, seen after each step. */
  function Story(i: nat): State
    requires i < 7
  {
    var queued := Event(1, "customer", 5, Pending, 0, 0, None, None);
    var held := queued.(status := Delivering, attempts := 1, nextAttemptAt := CLAIM_MS);
    var sent := held.(status := Sent, sentAt := Some(CLAIM_MS));
    var again := sent.(status := Delivering, attempts := 2, nextAttemptAt := 2 * CLAIM_MS);
    match i
    case 0 => State(map[], map[], [])
    case 1 => State(map[1 := queued], map[], [])
    case 2 => State(map[1 := queued], map[7 := Selected(1, 0)], [])
    case 3 => State(map[1 := held], map[], [Claim(1, 1)])
    case 4 => State(map[1 := held], map[8 := Selected(1, CLAIM_MS)], [Claim(1, 1)])
    case 5 => State(map[1 := sent], map[8 := Selected(1, CLAIM_MS)], [Claim(1, 1)])
    case 6 => State(map[1 := again], map[], [Claim(1, 1), Claim(1, 2)])
  }

  lemma StoryClaims()
    ensures Next(Story(0), Story(1)) && Next(Story(1), Story(2)) && Next(Story(2), Story(3))
  {
    assert NextStep(Story(0), Story(1), Enqueues(1, Story(1).rows[1]));
    assert NextStep(Story(1), Story(2), Selects(7, 1, 0));
    assert NextStep(Story(2), Story(3), Updates(7));
  }

  lemma StoryRepeats()
    ensures Next(Story(3), Story(4)) && Next(Story(4), Story(5)) && Next(Story(5), Story(6))
  {
    assert NextStep(Story(3), Story(4), Selects(8, 1, CLAIM_MS));
    assert NextStep(Story(4), Story(5), Delivers(Claim(1, 1), CLAIM_MS));
    assert NextStep(Story(5), Story(6), Updates(8));
  }

  lemma StoryGoesOn(i: nat)
    requires i < 6
    ensures Next(Story(i), Story(i + 1))
  {
    if i < 3 {
      StoryClaims();
      assert i == 0 || i == 1 || i == 2;
    } else {
      StoryRepeats();
      assert i == 3 || i == 4 || i == 5;
    }
  }

  /**
   * Such a selection is reachable: a second sender selects a row whose claim has run out just
   * before the first reports it delivered, and claims it again although it is sent.
   */
  lemma SentRowCanBeClaimedAgain() returns (states: seq<State>)
    ensures IsRun(states) && |states| == 7
    ensures IsSent(states[5], 1) && HeldBy(states[6].rows, 1, 2)
  {
    states := seq(7, i requires 0 <= i < 7 => Story(i));
    forall i | 0 <= i < |states| - 1
      ensures Next(states[i], states[i + 1])
    {
      StoryGoesOn(i);
    }
  }

  // ---- With select and update as one step ----

  /** A step of a system whose claims are one step: nothing happens between a select and its update. */
  ghost predicate NextAtOnce(s: State, t: State) {
    || (exists step: Step :: !step.Selects? && !step.Updates? && NextStep(s, t, step))
    || (exists sender, id, now, mid :: ClaimsAtOnce(s, mid, t, sender, id, now))
  }

  ghost predicate ClaimsAtOnce(s: State, mid: State, t: State, sender: nat, id: nat, now: int) {
    NextStep(s, mid, Selects(sender, id, now)) && NextStep(mid, t, Updates(sender))
  }

  ghost predicate ContinuesAtOnce(states: seq<State>) {
    forall i {:trigger NextAtOnce(states[i], states[i + 1])} :: 0 <= i < |states| - 1 ==> NextAtOnce(states[i], states[i + 1])
  }

  lemma StepAtOnce(states: seq<State>, i: nat)
    requires ContinuesAtOnce(states) && i + 1 < |states|
    ensures NextAtOnce(states[i], states[i + 1])
  {
  }

  /** Then a sent row stays as it is for good. */
  lemma {:induction false} SentStaysAtOnce(states: seq<State>, i: nat, j: nat, id: nat)
    requires ContinuesAtOnce(states) && i <= j < |states| && states[i].selected == map[] && IsSent(states[i], id)
    ensures states[j].selected == map[] && IsSent(states[j], id) && states[j].rows[id] == states[i].rows[id]
    decreases j - i
  {
    if i < j {
      SentStaysAtOnce(states, i, j - 1, id);
      StepAtOnce(states, j - 1);
    }
  }

  // ---- What each write leaves of its row ----

  /** The same event: whose it is, for how much. */
  predicate SameCharge(a: Event, b: Event) {
    a.usageId == b.usageId && a.customerId == b.customerId && a.value == b.value
  }

  /** No row but `id` differs. */
  predicate OnlyRow(a: Rows, b: Rows, id: nat) {
    a.Keys == b.Keys && forall other :: other in a && other != id ==> b[other] == a[other]
  }

  /** A claim holds a due row for five minutes under the next number; a delivery under it is final. */
  lemma ClaimAndDeliveryWrite(rows: Rows, id: nat, attempts: nat, now: int)
    requires id in rows
    ensures OnlyRow(rows, Taken(rows, id, now), id) && OnlyRow(rows, Delivered(rows, id, attempts, now), id)
    ensures var before, claimed, sent := rows[id], Taken(rows, id, now)[id], Delivered(rows, id, attempts, now)[id];
            && SameCharge(before, claimed) && SameCharge(before, sent)
            && (if before.nextAttemptAt <= now then
                  && claimed.status == Delivering && claimed.attempts == before.attempts + 1 && claimed.nextAttemptAt == now + 5 * 60_000
                  && claimed.lastError == before.lastError && claimed.sentAt == before.sentAt
                else claimed == before)
            && (if before.status == Delivering && before.attempts == attempts then
                  && sent.status == Sent && sent.sentAt == Some(now) && sent.lastError == None
                  && sent.attempts == before.attempts && sent.nextAttemptAt == before.nextAttemptAt
                else sent == before)
  {
  }

  /** How long a failure under claim number `attempts` puts the next attempt off. */
  function PutOff(rows: Rows, id: nat, attempts: nat, error: string, now: int): int
    requires id in rows
  {
    FailedDelivery(rows, id, attempts, error, now)[id].nextAttemptAt - now
  }

  lemma FailureWrites(rows: Rows, id: nat, attempts: nat, error: string, now: int)
    requires id in rows
    ensures OnlyRow(rows, FailedDelivery(rows, id, attempts, error, now), id)
    ensures var before, after := rows[id], FailedDelivery(rows, id, attempts, error, now)[id];
            && SameCharge(before, after)
            && (if before.status == Delivering && before.attempts == attempts then
                  && after.status == Failed && after.attempts == before.attempts && after.sentAt == before.sentAt
                  && after.lastError.Some? && after.lastError.value <= error
                  && |after.lastError.value| == (if |error| < 1000 then |error| else 1000)
                else after == before)
  {
  }

  lemma {:induction false} PowersAre(n: nat)
    ensures Power(0) == 1 && Power(10) == 1024
    ensures Power(n + 1) == 2 * Power(n)
  {
    assert Power(5) == 32;
    assert Power(10) == 2 * Power(9) && Power(9) == 2 * Power(8) && Power(8) == 2 * Power(7) && Power(7) == 2 * Power(6) && Power(6) == 2 * Power(5);
  }

  lemma {:induction false} PowersGrow(n: nat, m: nat)
    requires n <= m
    ensures 1 <= Power(n) <= Power(m)
    decreases m
  {
    if n < m {
      PowersGrow(n, m - 1);
    } else if n > 0 {
      PowersGrow(n - 1, n - 1);
    }
  }

  /** Back-off starts at a second, doubles with each claim, and stays at 1,024 seconds from the tenth:
      the limit of an hour is never reached. */
  lemma BackoffDoubles(rows: Rows, next: Rows, id: nat, attempts: nat, error: string, now: int)
    requires HeldBy(rows, id, attempts) && HeldBy(next, id, attempts + 1)
    ensures attempts == 0 ==> PutOff(rows, id, attempts, error, now) == 1000
    ensures PutOff(next, id, attempts + 1, error, now) ==
            if attempts < 10 then 2 * PutOff(rows, id, attempts, error, now) else PutOff(rows, id, attempts, error, now)
    ensures attempts >= 10 ==> PutOff(rows, id, attempts, error, now) == 1_024_000
  {
    PowersAre(attempts);
    PowersGrow(if attempts < 10 then attempts else 10, 10);
    PowersGrow(if attempts + 1 < 10 then attempts + 1 else 10, 10);
  }
}
