/**
 * Runs that get past the limit because the sweep hands out a fresh bucket, and with them the exact
 * options for which the sweep is unseen and every window is bounded.
 */
module RateLimiterOverrun {
  import opened Wrappers
  import opened RateLimiter
  import opened RateLimiterGuarantees

  const CLIENT := "client"

  /**
   * A client that comes in rounds: `whole` calls at once, perhaps one more after `pause`, then
   * silence until its bucket is swept.
   */
  datatype Plan = Plan(whole: nat, extra: bool, pause: real, period: real) {
    function Calls(): nat { if extra then whole + 1 else whole }
  }

  /** After the pause one more token is there, and the table not yet due for a sweep. */
  predicate ExtraFits(o: Options, p: Plan) {
    0.0 <= p.pause <= IDLE_MS && o.burst - p.whole as real + Gain(o, p.pause) >= 1.0
  }

  /** A plan in which every call is allowed though a period does not gain that many tokens. */
  predicate Overruns(o: Options, p: Plan) {
    && 1 <= p.whole && p.whole as real <= o.burst
    && 0.0 <= p.pause && p.pause + IDLE_MS < p.period
    && (p.extra ==> ExtraFits(o, p))
    && (!p.extra ==> p.pause == 0.0)
    && Gain(o, p.period) < p.Calls() as real
  }

  function Copies(n: nat, at: real): (calls: seq<Call>)
    ensures |calls| == n && forall i :: 0 <= i < n ==> calls[i] == Call(CLIENT, at)
  {
    if n == 0 then [] else Copies(n - 1, at) + [Call(CLIENT, at)]
  }

  function Round(p: Plan, at: real): seq<Call> {
    Copies(p.whole, at) + if p.extra then [Call(CLIENT, at + p.pause)] else []
  }

  function RoundTime(p: Plan, k: nat): real {
    if k == 0 then 0.0 else RoundTime(p, k - 1) + p.period
  }

  function Rounds(p: Plan, k: nat): seq<Call> {
    if k == 0 then [] else Rounds(p, k - 1) + Round(p, RoundTime(p, k - 1))
  }

  // ---- Runs put end to end ----

  lemma {:induction false} AcceptedPrefix(o: Options, s: State, a: seq<Call>, b: seq<Call>, hi: nat)
    requires o.perMinute > 0.0 && hi <= |a|
    ensures Accepted(o, true, s, a + b, CLIENT, 0, hi) == Accepted(o, true, s, a, CLIENT, 0, hi)
  {
    if hi > 0 {
      AcceptedPrefix(o, s, a, b, hi - 1);
      assert (a + b)[..hi - 1] == a[..hi - 1];
    }
  }

  /** Any run of calls, for any step: its last state and what its steps count. */
  function Ran(step: (State, Call) -> (State, nat), s: State, calls: seq<Call>): (State, nat) {
    if calls == [] then (s, 0)
    else
      var before := Ran(step, s, calls[..|calls| - 1]);
      var after := step(before.0, calls[|calls| - 1]);
      (after.0, before.1 + after.1)
  }

  lemma {:induction false} RanEndToEnd(step: (State, Call) -> (State, nat), s: State, a: seq<Call>, b: seq<Call>)
    ensures var (middle, first) := Ran(step, s, a);
            var (last, second) := Ran(step, middle, b);
            Ran(step, s, a + b) == (last, first + second)
  {
    if b == [] {
      assert a + b == a;
    } else {
      assert (a + b)[..|a + b| - 1] == a + b[..|b| - 1];
      RanEndToEnd(step, s, a, b[..|b| - 1]);
    }
  }

  function AllowedNext(o: Options, s: State, call: Call): nat
    requires o.perMinute > 0.0
  {
    if call.client == CLIENT && Take(o, true, s, CLIENT, call.at).1.Allowed? then 1 else 0
  }

  function StepOf(o: Options): (State, Call) -> (State, nat)
    requires o.perMinute > 0.0
  {
    (s: State, call: Call) => (Take(o, true, s, call.client, call.at).0, AllowedNext(o, s, call))
  }

  function StateAfter(o: Options, s: State, calls: seq<Call>): State
    requires o.perMinute > 0.0
  {
    Ran(StepOf(o), s, calls).0
  }

  /** The client's calls that a whole run allows. */
  function AllowedIn(o: Options, s: State, calls: seq<Call>): nat
    requires o.perMinute > 0.0
  {
    Ran(StepOf(o), s, calls).1
  }

  lemma {:induction false} RanIsAfter(o: Options, s: State, calls: seq<Call>)
    requires o.perMinute > 0.0
    ensures StateAfter(o, s, calls) == After(o, true, s, calls)
    ensures AllowedIn(o, s, calls) == Accepted(o, true, s, calls, CLIENT, 0, |calls|)
  {
    if calls != [] {
      var n := |calls| - 1;
      RanIsAfter(o, s, calls[..n]);
      AcceptedPrefix(o, s, calls[..n], [calls[n]], n);
      assert calls == calls[..n] + [calls[n]];
    }
  }

  lemma EndToEnd(o: Options, s: State, a: seq<Call>, b: seq<Call>)
    requires o.perMinute > 0.0
    ensures StateAfter(o, s, a + b) == StateAfter(o, StateAfter(o, s, a), b)
    ensures AllowedIn(o, s, a + b) == AllowedIn(o, s, a) + AllowedIn(o, StateAfter(o, s, a), b)
  {
    RanEndToEnd(StepOf(o), s, a, b);
  }

  lemma OneCall(o: Options, s: State, call: Call)
    requires o.perMinute > 0.0 && call.client == CLIENT
    ensures StateAfter(o, s, [call]) == Take(o, true, s, CLIENT, call.at).0
    ensures Take(o, true, s, CLIENT, call.at).1.Allowed? ==> AllowedIn(o, s, [call]) == 1
  {
    assert [call][..|[call]| - 1] == [];
    assert Ran(StepOf(o), s, []) == (s, 0);
  }

  // ---- One round ----

  /** The client has no bucket at `at`, and the table was swept just then. */
  predicate Ready(s: State, at: real) {
    CLIENT !in Swept(s, at).clients && Swept(s, at).sweptAt == at
  }

  function Drained(o: Options, s: State, at: real, n: nat): State {
    State(Swept(s, at).clients[CLIENT := Bucket(o.burst - n as real, at, None)], at)
  }

  lemma {:induction false} Drain(o: Options, s: State, at: real, n: nat)
    requires o.perMinute > 0.0 && 1 <= n && n as real <= o.burst && Ready(s, at)
    ensures StateAfter(o, s, Copies(n, at)) == Drained(o, s, at, n)
    ensures AllowedIn(o, s, Copies(n, at)) == n
  {
    GainGrows(o, 0.0, 0.0);
    var call := Call(CLIENT, at);
    if n == 1 {
      assert Copies(1, at) == [call];
      OneCall(o, s, call);
    } else {
      Drain(o, s, at, n - 1);
      var drained := Drained(o, s, at, n - 1);
      assert Swept(drained, at) == drained;
      EndToEnd(o, s, Copies(n - 1, at), [call]);
      OneCall(o, drained, call);
      var left := BucketFor(o, drained.clients, CLIENT, at);
      assert left.tokens == o.burst - (n - 1) as real;
      var after := Take(o, true, drained, CLIENT, at).0;
      assert after.clients == Drained(o, s, at, n).clients;
    }
  }

  /** After a round the client's bucket is as old as its last call, and the sweep as its first. */
  predicate Rested(p: Plan, s: State, at: real) {
    s.sweptAt == at && CLIENT in s.clients && s.clients[CLIENT].updatedAt == at + p.pause
  }

  lemma ExtraRun(o: Options, p: Plan, s: State, at: real)
    requires o.perMinute > 0.0 && o.burst >= 1.0 && ExtraFits(o, p)
    requires s.sweptAt == at && CLIENT in s.clients
    requires s.clients[CLIENT] == Bucket(o.burst - p.whole as real, at, None)
    ensures Rested(p, StateAfter(o, s, [Call(CLIENT, at + p.pause)]), at)
    ensures AllowedIn(o, s, [Call(CLIENT, at + p.pause)]) == 1
  {
    OneCall(o, s, Call(CLIENT, at + p.pause));
  }

  lemma PlainRound(o: Options, p: Plan, s: State, at: real)
    requires o.perMinute > 0.0 && !p.extra && p.pause == 0.0
    requires StateAfter(o, s, Copies(p.whole, at)) == Drained(o, s, at, p.whole)
    requires AllowedIn(o, s, Copies(p.whole, at)) == p.whole
    ensures Rested(p, StateAfter(o, s, Round(p, at)), at)
    ensures AllowedIn(o, s, Round(p, at)) == |Round(p, at)|
  {
    assert Round(p, at) == Copies(p.whole, at);
  }

  lemma DrainRound(o: Options, p: Plan, s: State, at: real)
    requires o.perMinute > 0.0 && 1 <= p.whole && p.whole as real <= o.burst && Ready(s, at)
    ensures StateAfter(o, s, Copies(p.whole, at)) == Drained(o, s, at, p.whole)
    ensures AllowedIn(o, s, Copies(p.whole, at)) == p.whole
    ensures o.burst >= 1.0
  {
    Drain(o, s, at, p.whole);
  }

  lemma OneRound(o: Options, p: Plan, s: State, at: real)
    requires o.perMinute > 0.0 && 1 <= p.whole && p.whole as real <= o.burst && Ready(s, at)
    requires if p.extra then ExtraFits(o, p) else p.pause == 0.0
    ensures Rested(p, StateAfter(o, s, Round(p, at)), at)
    ensures AllowedIn(o, s, Round(p, at)) == |Round(p, at)|
  {
    DrainRound(o, p, s, at);
    if p.extra {
      EndToEnd(o, s, Copies(p.whole, at), [Call(CLIENT, at + p.pause)]);
      ExtraRun(o, p, Drained(o, s, at, p.whole), at);
    } else {
      PlainRound(o, p, s, at);
    }
  }

  lemma RoundAfter(o: Options, p: Plan, before: seq<Call>, at: real)
    requires o.perMinute > 0.0 && 1 <= p.whole && p.whole as real <= o.burst
    requires if p.extra then ExtraFits(o, p) else p.pause == 0.0
    requires Ready(StateAfter(o, Fresh(0.0), before), at)
    ensures Rested(p, StateAfter(o, Fresh(0.0), before + Round(p, at)), at)
    ensures AllowedIn(o, Fresh(0.0), before + Round(p, at)) == AllowedIn(o, Fresh(0.0), before) + |Round(p, at)|
  {
    OneRound(o, p, StateAfter(o, Fresh(0.0), before), at);
    EndToEnd(o, Fresh(0.0), before, Round(p, at));
  }

  // ---- Many rounds ----

  /** The run so far lets every call through, and its client has rested since round `k - 1`. */
  predicate AllThrough(o: Options, p: Plan, calls: seq<Call>, k: nat)
    requires o.perMinute > 0.0
  {
    && AllowedIn(o, Fresh(0.0), calls) == |calls|
    && var s := StateAfter(o, Fresh(0.0), calls);
       if k == 0 then s == Fresh(0.0) else Rested(p, s, RoundTime(p, k - 1))
  }

  lemma NextRound(o: Options, p: Plan, calls: seq<Call>, k: nat)
    requires o.perMinute > 0.0 && Overruns(o, p) && AllThrough(o, p, calls, k)
    ensures AllThrough(o, p, calls + Round(p, RoundTime(p, k)), k + 1)
  {
    RoundAfter(o, p, calls, RoundTime(p, k));
  }

  lemma {:induction false} AllAccepted(o: Options, p: Plan, k: nat)
    requires o.perMinute > 0.0 && Overruns(o, p)
    ensures AllThrough(o, p, Rounds(p, k), k)
  {
    if k > 0 {
      AllAccepted(o, p, k - 1);
      NextRound(o, p, Rounds(p, k - 1), k - 1);
    }
  }

  lemma {:induction false} RoundsCount(p: Plan, k: nat)
    ensures |Rounds(p, k)| == k * p.Calls()
  {
    if k == 0 {
      assert 0 * p.Calls() == 0;
    } else {
      RoundsCount(p, k - 1);
      assert |Round(p, RoundTime(p, k - 1))| == p.Calls();
    }
  }

  lemma {:induction false} RoundTimeIs(p: Plan, k: nat)
    ensures RoundTime(p, k) == k as real * p.period
  {
    if k == 0 {
      assert 0 as real == 0.0;
    } else {
      RoundTimeIs(p, k - 1);
      assert k as real == (k - 1) as real + 1.0;
    }
  }

  /** In time order, and all from `lo` to `hi`. */
  ghost predicate Ordered(calls: seq<Call>, lo: real, hi: real) {
    Monotone(lo, calls) && lo <= hi && forall i :: 0 <= i < |calls| ==> calls[i].at <= hi
  }

  lemma RoundIsOrdered(o: Options, p: Plan, at: real)
    requires Overruns(o, p)
    ensures Ordered(Round(p, at), at, at + p.period)
    ensures Round(p, at) != [] && Round(p, at)[0].at == at
  {
  }

  lemma {:induction false} RoundsAreOrdered(o: Options, p: Plan, k: nat)
    requires Overruns(o, p)
    ensures Ordered(Rounds(p, k), 0.0, RoundTime(p, k))
    ensures k > 0 ==> Rounds(p, k) != [] && Rounds(p, k)[0].at == 0.0
  {
    if k > 0 {
      var before := Rounds(p, k - 1);
      var at := RoundTime(p, k - 1);
      RoundsAreOrdered(o, p, k - 1);
      RoundIsOrdered(o, p, at);
      assert (before + Round(p, at))[0] == if k == 1 then Round(p, at)[0] else before[0];
    }
  }

  // ---- When there is such a plan ----

  lemma HalfwayPeriod(o: Options, calls: nat, pause: real) returns (period: real)
    requires o.perMinute > 0.0 && Gain(o, pause + IDLE_MS) < calls as real
    ensures pause + IDLE_MS < period && Gain(o, period) < calls as real
  {
    var spare := calls as real - Gain(o, pause + IDLE_MS);
    var more := spare * 30_000.0 / o.perMinute;
    period := pause + IDLE_MS + more;
    assert Gain(o, more) == spare / 2.0 by {
      assert spare * 30_000.0 / o.perMinute * o.perMinute == spare * 30_000.0;
    }
    GainAdds(o, pause + IDLE_MS, more);
    assert more > 0.0;
  }

  lemma PauseFor(o: Options, tokens: real) returns (pause: real)
    requires o.perMinute > 0.0 && tokens >= 0.0
    ensures Gain(o, pause) == tokens && pause >= 0.0
    ensures tokens <= 10.0 * o.perMinute ==> pause <= IDLE_MS
  {
    pause := tokens * 60_000.0 / o.perMinute;
    assert tokens * 60_000.0 / o.perMinute * o.perMinute == tokens * 60_000.0;
    if tokens <= 10.0 * o.perMinute {
      assert pause * o.perMinute <= IDLE_MS * o.perMinute;
    }
  }

  lemma PlanFor(o: Options) returns (p: Plan)
    requires o.perMinute > 0.0 && !SweepHarmless(o)
    ensures Overruns(o, p)
  {
    var whole: nat := o.burst.Floor;
    assert Gain(o, IDLE_MS) == 10.0 * o.perMinute;
    if whole as real > 10.0 * o.perMinute {
      assert 0.0 + IDLE_MS == IDLE_MS;
      var period := HalfwayPeriod(o, whole, 0.0);
      p := Plan(whole, false, 0.0, period);
    } else {
      var pause := PauseFor(o, 1.0 - (o.burst - whole as real));
      GainAdds(o, pause, IDLE_MS);
      var period := HalfwayPeriod(o, whole + 1, pause);
      p := Plan(whole, true, pause, period);
    }
  }

  lemma EnoughRounds(o: Options, p: Plan) returns (k: nat)
    requires o.perMinute > 0.0 && o.burst >= 1.0 && Overruns(o, p)
    ensures k > 0 && |Rounds(p, k)| as real > o.burst + Gain(o, RoundTime(p, k))
  {
    k := RoundsToOutgrow(o.burst, p.Calls() as real - Gain(o, p.period));
    RoundsCount(p, k);
    RoundTimeIs(p, k);
  }

  lemma RoundsToOutgrow(total: real, step: real) returns (k: nat)
    requires total >= 0.0 && step > 0.0
    ensures k > 0 && k as real * step > total
  {
    k := (total / step).Floor + 1;
    assert k as real > total / step;
    assert k as real * step > total / step * step;
  }

  lemma HarmfulSweepOverruns(o: Options)
    requires o.perMinute > 0.0 && !SweepHarmless(o)
    ensures !WindowsBounded(o)
  {
    var p := PlanFor(o);
    var k := EnoughRounds(o, p);
    AllAccepted(o, p, k);
    RoundsAreOrdered(o, p, k);
    WindowTooFull(o, Rounds(p, k), RoundTime(p, k));
  }

  lemma WindowTooFull(o: Options, calls: seq<Call>, end: real)
    requires o.perMinute > 0.0 && calls != [] && Ordered(calls, 0.0, end) && calls[0].at == 0.0
    requires AllowedIn(o, Fresh(0.0), calls) as real > o.burst + Gain(o, end)
    ensures !WindowsBounded(o)
  {
    GainGrows(o, calls[|calls| - 1].at - calls[0].at, end);
    RanIsAfter(o, Fresh(0.0), calls);
    assert Accepted(o, true, Fresh(0.0), calls, CLIENT, 0, |calls|) as real
           > o.burst + Gain(o, calls[|calls| - 1].at - calls[0].at);
  }

  // ---- The exact conditions ----

  /**
   * Every window of every run is bounded by the burst and the sustained rate exactly when a bucket
   * idle long enough to be swept would have been full again, or no call is ever allowed.
   */
  lemma WindowsBoundedExactlyWhen(o: Options)
    requires o.perMinute > 0.0 && o.burst >= 0.0
    ensures WindowsBounded(o) <==> o.burst < 1.0 || o.burst <= 10.0 * o.perMinute
  {
    if SweepHarmless(o) {
      HarmlessSweepUnseen(o);
      UnseenSweepBoundsWindows(o);
    } else {
      HarmfulSweepOverruns(o);
    }
  }

  /** The same options are exactly those for which the sweep changes no verdict, wait or report. */
  lemma SweepUnseenExactlyWhen(o: Options)
    requires o.perMinute > 0.0 && o.burst >= 0.0
    ensures SweepUnseen(o) <==> o.burst < 1.0 || o.burst <= 10.0 * o.perMinute
  {
    if SweepHarmless(o) {
      HarmlessSweepUnseen(o);
    } else if SweepUnseen(o) {
      UnseenSweepBoundsWindows(o);
      HarmfulSweepOverruns(o);
    }
  }
}
