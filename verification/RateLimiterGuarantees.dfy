/**
 * What the limiter promises over whole runs: how many calls a window lets through, that the idle
 * sweep is not seen, that `retryAfter` is enough, and that reports are a minute apart.
 */
module RateLimiterGuarantees {
  import opened Wrappers
  import opened Induction
  import opened RateLimiter

  /** The tokens `client` would find now. */
  function Level(o: Options, s: State, client: string, at: real): real {
    BucketFor(o, s.clients, client, at).tokens
  }

  predicate BucketSound(o: Options, bucket: Bucket, now: real) {
    && 0.0 <= bucket.tokens <= o.burst
    && bucket.updatedAt <= now
    && (bucket.reportedAt.Some? ==> bucket.reportedAt.value <= bucket.updatedAt)
  }

  /** No bucket is from the future, over the burst, or below nothing. */
  predicate Sound(o: Options, s: State, now: real) {
    s.sweptAt <= now && forall c :: c in s.clients ==> BucketSound(o, s.clients[c], now)
  }

  // ---- Arithmetic of the refill ----

  lemma GainAdds(o: Options, a: real, b: real)
    ensures Gain(o, a + b) == Gain(o, a) + Gain(o, b)
  {
  }

  lemma GainGrows(o: Options, a: real, b: real)
    requires o.perMinute > 0.0 && a <= b
    ensures Gain(o, a) <= Gain(o, b)
    ensures Gain(o, 0.0) == 0.0
  {
    assert (b - a) * o.perMinute >= 0.0;
  }

  lemma GainInTwo(o: Options, a: real, b: real, c: real)
    requires o.perMinute > 0.0 && a <= b <= c
    ensures Gain(o, c - a) == Gain(o, b - a) + Gain(o, c - b)
    ensures Gain(o, b - a) >= 0.0 && Gain(o, c - b) >= 0.0
  {
    GainAdds(o, b - a, c - b);
    GainGrows(o, 0.0, b - a);
    GainGrows(o, 0.0, c - b);
    assert b - a + (c - b) == c - a;
  }

  /** Refilling now and again later is refilling once later. */
  lemma LevelLater(o: Options, s: State, client: string, at: real, later: real)
    requires o.perMinute > 0.0 && o.burst >= 0.0
    requires Sound(o, s, at) && at <= later
    ensures Level(o, s, client, later) == Least(o.burst, Level(o, s, client, at) + Gain(o, later - at))
  {
    GainGrows(o, 0.0, later - at);
    if client in s.clients {
      var bucket := s.clients[client];
      GainAdds(o, at - bucket.updatedAt, later - at);
      assert at - bucket.updatedAt + (later - at) == later - bucket.updatedAt;
    }
  }

  /** A call lowers its own client's level by one exactly when it is allowed, and no other's. */
  lemma ServedLevel(o: Options, s: State, client: string, other: string, at: real)
    requires o.perMinute > 0.0
    ensures var (after, verdict) := Served(o, s, client, at);
            Level(o, after, other, at)
            == Level(o, s, other, at) - (if other == client && verdict.Allowed? then 1.0 else 0.0)
  {
    GainGrows(o, 0.0, 0.0);
  }

  lemma ServedSound(o: Options, s: State, client: string, at: real, now: real)
    requires o.perMinute > 0.0 && o.burst >= 0.0 && Sound(o, s, now) && now <= at
    ensures Sound(o, Served(o, s, client, at).0, at)
  {
    if client in s.clients {
      GainGrows(o, 0.0, at - s.clients[client].updatedAt);
    }
    GainGrows(o, 0.0, 0.0);
  }

  function Now(start: real, calls: seq<Call>): real {
    if calls == [] then start else calls[|calls| - 1].at
  }

  lemma {:induction false} RunSound(o: Options, sweeps: bool, start: real, calls: seq<Call>)
    requires o.perMinute > 0.0 && o.burst >= 0.0 && Monotone(start, calls)
    ensures Sound(o, After(o, sweeps, Fresh(start), calls), Now(start, calls))
  {
    if calls != [] {
      var before := calls[..|calls| - 1];
      RunSound(o, sweeps, start, before);
      var s := After(o, sweeps, Fresh(start), before);
      var last := calls[|calls| - 1];
      assert Sound(o, Swept(s, last.at), last.at);
      ServedSound(o, if sweeps then Swept(s, last.at) else s, last.client, last.at, last.at);
    }
  }

  /** The state before call `i`, sound at that call's time. */
  lemma SoundBefore(o: Options, sweeps: bool, start: real, calls: seq<Call>, i: nat)
    requires o.perMinute > 0.0 && o.burst >= 0.0 && Monotone(start, calls) && i < |calls|
    ensures Sound(o, After(o, sweeps, Fresh(start), calls[..i]), calls[i].at)
    ensures i > 0 ==> Sound(o, After(o, sweeps, Fresh(start), calls[..i]), calls[i - 1].at)
  {
    RunSound(o, sweeps, start, calls[..i]);
  }

  /** One more call is one more step. */
  lemma AfterOneMore(o: Options, sweeps: bool, s: State, calls: seq<Call>, i: nat)
    requires o.perMinute > 0.0 && i < |calls|
    ensures After(o, sweeps, s, calls[..i + 1])
            == Take(o, sweeps, After(o, sweeps, s, calls[..i]), calls[i].client, calls[i].at).0
  {
    assert calls[..i + 1][..i] == calls[..i];
  }

  // ---- The limiter that never sweeps ----

  /** What one call takes and leaves is at most what was there and what was gained since. */
  lemma LevelStep(o: Options, s: State, client: string, before: real, call: Call)
    requires o.perMinute > 0.0 && o.burst >= 0.0
    requires Sound(o, s, before) && before <= call.at
    ensures var (after, verdict) := Served(o, s, call.client, call.at);
            Level(o, after, client, call.at) + (if call.client == client && verdict.Allowed? then 1.0 else 0.0)
            <= Least(o.burst, Level(o, s, client, before) + Gain(o, call.at - before))
  {
    ServedLevel(o, s, call.client, client, call.at);
    LevelLater(o, s, client, before, call.at);
  }

  /** What has been taken of `client`'s share in a window, with what is left of it. */
  function WindowUse(o: Options, start: real, calls: seq<Call>, client: string, lo: nat, hi: nat): real
    requires o.perMinute > 0.0 && lo < hi <= |calls|
  {
    Accepted(o, false, Fresh(start), calls, client, lo, hi) as real
    + Level(o, After(o, false, Fresh(start), calls[..hi]), client, calls[hi - 1].at)
  }

  lemma WindowStep(o: Options, start: real, calls: seq<Call>, client: string, lo: nat, hi: nat)
    requires o.perMinute > 0.0 && o.burst >= 0.0
    requires Monotone(start, calls) && lo + 1 < hi <= |calls|
    ensures WindowUse(o, start, calls, client, lo, hi)
            <= WindowUse(o, start, calls, client, lo, hi - 1) + Gain(o, calls[hi - 1].at - calls[hi - 2].at)
  {
    AfterOneMore(o, false, Fresh(start), calls, hi - 1);
    SoundBefore(o, false, start, calls, hi - 1);
    LevelStep(o, After(o, false, Fresh(start), calls[..hi - 1]), client, calls[hi - 2].at, calls[hi - 1]);
  }

  lemma WindowStart(o: Options, start: real, calls: seq<Call>, client: string, lo: nat)
    requires o.perMinute > 0.0 && o.burst >= 0.0
    requires Monotone(start, calls) && lo < |calls|
    ensures WindowUse(o, start, calls, client, lo, lo + 1) <= o.burst
  {
    AfterOneMore(o, false, Fresh(start), calls, lo);
    SoundBefore(o, false, start, calls, lo);
    LevelStep(o, After(o, false, Fresh(start), calls[..lo]), client, calls[lo].at, calls[lo]);
    assert Accepted(o, false, Fresh(start), calls, client, lo, lo) == 0;
  }

  predicate WithinWindow(o: Options, start: real, calls: seq<Call>, client: string, lo: nat, hi: nat)
    requires o.perMinute > 0.0 && lo < hi <= |calls|
  {
    WindowUse(o, start, calls, client, lo, hi) <= o.burst + Gain(o, calls[hi - 1].at - calls[lo].at)
  }

  lemma WindowGrows(o: Options, start: real, calls: seq<Call>, client: string, lo: nat, hi: nat)
    requires o.perMinute > 0.0 && o.burst >= 0.0
    requires Monotone(start, calls) && lo + 1 < hi <= |calls| && WithinWindow(o, start, calls, client, lo, hi - 1)
    ensures WithinWindow(o, start, calls, client, lo, hi)
  {
    WindowStep(o, start, calls, client, lo, hi);
    GainInTwo(o, calls[lo].at, calls[hi - 2].at, calls[hi - 1].at);
  }

  lemma {:induction false} UnsweptWindow(o: Options, start: real, calls: seq<Call>, client: string, lo: nat, hi: nat)
    requires o.perMinute > 0.0 && o.burst >= 0.0
    requires Monotone(start, calls) && lo < hi <= |calls|
    ensures WithinWindow(o, start, calls, client, lo, hi)
    decreases hi
  {
    if hi == lo + 1 {
      WindowStart(o, start, calls, client, lo);
      GainGrows(o, 0.0, 0.0);
    } else {
      UnsweptWindow(o, start, calls, client, lo, hi - 1);
      WindowGrows(o, start, calls, client, lo, hi);
    }
  }

  lemma LevelsArePositive(o: Options, start: real, calls: seq<Call>, client: string)
    requires o.perMinute > 0.0 && o.burst >= 0.0 && Monotone(start, calls) && calls != []
    ensures Level(o, After(o, false, Fresh(start), calls), client, calls[|calls| - 1].at) >= 0.0
  {
    RunSound(o, false, start, calls);
    var s := After(o, false, Fresh(start), calls);
    if client in s.clients {
      GainGrows(o, 0.0, calls[|calls| - 1].at - s.clients[client].updatedAt);
    }
  }

  // ---- The sweep is not seen ----

  /** When the sweep cannot change a verdict: a swept bucket would have been full again, or is always full. */
  predicate SweepHarmless(o: Options) {
    o.burst < 1.0 || o.burst <= 10.0 * o.perMinute
  }

  /** `full` is a bucket that would be as good as none: full again, and due for a report. */
  predicate AsGoodAsNone(o: Options, bucket: Bucket, now: real) {
    && bucket.tokens + Gain(o, now - bucket.updatedAt) >= o.burst
    && (bucket.reportedAt.Some? ==> now - bucket.reportedAt.value >= REPORT_MS)
  }

  predicate AlikeBuckets(swept: Bucket, kept: Bucket, now: real) {
    && swept.tokens == kept.tokens
    && swept.updatedAt == kept.updatedAt
    && (swept.reportedAt == kept.reportedAt
        || (swept.reportedAt.None? && now - kept.reportedAt.value >= REPORT_MS))
  }

  /** `swept` is `kept` less some buckets that are as good as none. */
  predicate Alike(o: Options, swept: State, kept: State, now: real) {
    && swept.clients.Keys <= kept.clients.Keys
    && forall c :: c in kept.clients ==>
         if c in swept.clients then AlikeBuckets(swept.clients[c], kept.clients[c], now)
         else AsGoodAsNone(o, kept.clients[c], now)
  }

  /** With a burst below one no call is allowed, so every bucket stays full. */
  predicate FullWhenTiny(o: Options, s: State) {
    o.burst < 1.0 ==> forall c :: c in s.clients ==> s.clients[c].tokens == o.burst
  }

  lemma AlikeLater(o: Options, swept: State, kept: State, now: real, at: real)
    requires o.perMinute > 0.0 && now <= at
    requires Alike(o, swept, kept, now)
    ensures Alike(o, swept, kept, at)
  {
    forall c | c in kept.clients && c !in swept.clients
      ensures AsGoodAsNone(o, kept.clients[c], at)
    {
      GainGrows(o, now - kept.clients[c].updatedAt, at - kept.clients[c].updatedAt);
    }
  }

  lemma IdleIsAsGoodAsNone(o: Options, bucket: Bucket, at: real)
    requires o.perMinute > 0.0 && SweepHarmless(o)
    requires BucketSound(o, bucket, at) && (o.burst < 1.0 ==> bucket.tokens == o.burst)
    requires at - bucket.updatedAt > IDLE_MS
    ensures AsGoodAsNone(o, bucket, at)
  {
    GainGrows(o, IDLE_MS, at - bucket.updatedAt);
    GainGrows(o, 0.0, at - bucket.updatedAt);
    assert Gain(o, IDLE_MS) == 10.0 * o.perMinute;
  }

  lemma SweepKeepsAlike(o: Options, swept: State, kept: State, at: real)
    requires o.perMinute > 0.0 && SweepHarmless(o)
    requires Alike(o, swept, kept, at) && Sound(o, kept, at) && FullWhenTiny(o, kept)
    ensures Alike(o, Swept(swept, at), kept, at)
  {
    forall c | c in kept.clients && c !in Swept(swept, at).clients
      ensures AsGoodAsNone(o, kept.clients[c], at)
    {
      if c in swept.clients {
        IdleIsAsGoodAsNone(o, kept.clients[c], at);
      }
    }
  }

  lemma ServedAlike(o: Options, swept: State, kept: State, client: string, at: real)
    requires o.perMinute > 0.0
    requires Alike(o, swept, kept, at)
    ensures Alike(o, Served(o, swept, client, at).0, Served(o, kept, client, at).0, at)
    ensures Served(o, swept, client, at).1 == Served(o, kept, client, at).1
  {
    GainGrows(o, 0.0, 0.0);
    var one := BucketFor(o, swept.clients, client, at);
    var two := BucketFor(o, kept.clients, client, at);
    assert AlikeBuckets(one, two, at);
    assert AlikeBuckets(Taken(o, one, at).0, Taken(o, two, at).0, at);
  }

  lemma {:induction false} RunAlike(o: Options, start: real, calls: seq<Call>)
    requires o.perMinute > 0.0 && o.burst >= 0.0 && SweepHarmless(o) && Monotone(start, calls)
    ensures Alike(o, After(o, true, Fresh(start), calls), After(o, false, Fresh(start), calls), Now(start, calls))
    ensures FullWhenTiny(o, After(o, false, Fresh(start), calls))
  {
    if calls != [] {
      var before := calls[..|calls| - 1];
      var last := calls[|calls| - 1];
      RunAlike(o, start, before);
      TakesAlike(o, start, before, last);
      TakeKeepsFull(o, start, before, last);
    }
  }

  lemma TakeKeepsFull(o: Options, start: real, calls: seq<Call>, next: Call)
    requires o.perMinute > 0.0 && o.burst >= 0.0 && Monotone(start, calls) && Now(start, calls) <= next.at
    requires FullWhenTiny(o, After(o, false, Fresh(start), calls))
    ensures FullWhenTiny(o, Take(o, false, After(o, false, Fresh(start), calls), next.client, next.at).0)
  {
    RunSound(o, false, start, calls);
    var s := After(o, false, Fresh(start), calls);
    if next.client in s.clients {
      GainGrows(o, 0.0, next.at - s.clients[next.client].updatedAt);
    }
    GainGrows(o, 0.0, 0.0);
  }

  lemma TakesAlike(o: Options, start: real, calls: seq<Call>, next: Call)
    requires o.perMinute > 0.0 && o.burst >= 0.0 && SweepHarmless(o)
    requires Monotone(start, calls) && Now(start, calls) <= next.at
    requires Alike(o, After(o, true, Fresh(start), calls), After(o, false, Fresh(start), calls), Now(start, calls))
    requires FullWhenTiny(o, After(o, false, Fresh(start), calls))
    ensures var swept := Take(o, true, After(o, true, Fresh(start), calls), next.client, next.at);
            var kept := Take(o, false, After(o, false, Fresh(start), calls), next.client, next.at);
            Alike(o, swept.0, kept.0, next.at) && swept.1 == kept.1
  {
    RunSound(o, false, start, calls);
    var swept := After(o, true, Fresh(start), calls);
    var kept := After(o, false, Fresh(start), calls);
    AlikeLater(o, swept, kept, Now(start, calls), next.at);
    SweepKeepsAlike(o, swept, kept, next.at);
    ServedAlike(o, Swept(swept, next.at), kept, next.client, next.at);
  }

  /** No run shows whether idle buckets are swept: verdicts, waits and reports are the same. */
  ghost predicate SweepUnseen(o: Options)
    requires o.perMinute > 0.0
  {
    forall start, calls: seq<Call>, i: nat :: Monotone(start, calls) && i < |calls| ==>
      VerdictOf(o, true, Fresh(start), calls, i) == VerdictOf(o, false, Fresh(start), calls, i)
  }

  /** In every window of every run, no client gets past the burst and the sustained rate. */
  ghost predicate WindowsBounded(o: Options)
    requires o.perMinute > 0.0
  {
    forall start, calls: seq<Call>, client, lo: nat, hi: nat :: Monotone(start, calls) && lo < hi <= |calls| ==>
      Accepted(o, true, Fresh(start), calls, client, lo, hi) as real
      <= o.burst + Gain(o, calls[hi - 1].at - calls[lo].at)
  }

  lemma HarmlessSweepUnseen(o: Options)
    requires o.perMinute > 0.0 && o.burst >= 0.0 && SweepHarmless(o)
    ensures SweepUnseen(o)
  {
    forall start, calls: seq<Call>, i: nat | Monotone(start, calls) && i < |calls|
      ensures VerdictOf(o, true, Fresh(start), calls, i) == VerdictOf(o, false, Fresh(start), calls, i)
    {
      RunAlike(o, start, calls[..i]);
      TakesAlike(o, start, calls[..i], calls[i]);
    }
  }

  lemma {:induction false} SameVerdictsSameCount(o: Options, start: real, calls: seq<Call>, client: string, lo: nat, hi: nat)
    requires o.perMinute > 0.0 && SweepUnseen(o) && Monotone(start, calls) && hi <= |calls|
    ensures Accepted(o, true, Fresh(start), calls, client, lo, hi)
            == Accepted(o, false, Fresh(start), calls, client, lo, hi)
    decreases hi
  {
    if lo < hi {
      SameVerdictsSameCount(o, start, calls, client, lo, hi - 1);
      assert VerdictOf(o, true, Fresh(start), calls, hi - 1) == VerdictOf(o, false, Fresh(start), calls, hi - 1);
    }
  }

  lemma UnseenSweepBoundsWindows(o: Options)
    requires o.perMinute > 0.0 && o.burst >= 0.0 && SweepUnseen(o)
    ensures WindowsBounded(o)
  {
    forall start, calls: seq<Call>, client, lo: nat, hi: nat | Monotone(start, calls) && lo < hi <= |calls|
      ensures Accepted(o, true, Fresh(start), calls, client, lo, hi) as real
              <= o.burst + Gain(o, calls[hi - 1].at - calls[lo].at)
    {
      SameVerdictsSameCount(o, start, calls, client, lo, hi);
      UnsweptWindow(o, start, calls, client, lo, hi);
      LevelsArePositive(o, start, calls[..hi], client);
    }
  }

  // ---- After a refusal ----

  /** The wait is the least whole number of seconds, at least one, that brings the bucket to a token. */
  lemma RetryAfterIsLeastWait(o: Options, tokens: real)
    requires o.perMinute > 0.0
    ensures var wait := RetryAfter(o, tokens);
            && wait >= 1
            && tokens + Gain(o, 1000.0 * wait as real) >= 1.0
            && (wait > 1 ==> tokens + Gain(o, 1000.0 * (wait - 1) as real) < 1.0)
  {
    var need := (1.0 - tokens) * 60.0 / o.perMinute;
    var wait := RetryAfter(o, tokens);
    assert need * o.perMinute == (1.0 - tokens) * 60.0;
    GainGrows(o, 1000.0 * need, 1000.0 * wait as real);
    if wait > 1 {
      TooShortAWait(o, tokens, need, wait - 1);
    }
  }

  lemma TooShortAWait(o: Options, tokens: real, need: real, wait: int)
    requires o.perMinute > 0.0 && need * o.perMinute == (1.0 - tokens) * 60.0 && (wait as real) < need
    ensures tokens + Gain(o, 1000.0 * wait as real) < 1.0
  {
  }

  /** None of `client`'s calls after `i` and before `k` was allowed. */
  predicate RefusedBetween(o: Options, start: real, calls: seq<Call>, client: string, i: nat, k: nat)
    requires o.perMinute > 0.0 && k <= |calls|
  {
    forall m: nat :: i < m < k && calls[m].client == client ==> VerdictOf(o, true, Fresh(start), calls, m).Refused?
  }

  lemma RefusalsTakeNothing(o: Options, s: State, client: string, before: real, call: Call)
    requires o.perMinute > 0.0 && o.burst >= 0.0 && Sound(o, s, before) && before <= call.at
    requires call.client == client ==> Take(o, true, s, client, call.at).1.Refused?
    ensures Level(o, Take(o, true, s, call.client, call.at).0, client, call.at)
            >= Least(o.burst, Level(o, s, client, before) + Gain(o, call.at - before))
  {
    ServedLevel(o, Swept(s, call.at), call.client, client, call.at);
    LevelLater(o, s, client, before, call.at);
  }

  /** What `client` finds after the first `k` calls, at the time of the last of them. */
  function LevelAfter(o: Options, start: real, calls: seq<Call>, client: string, k: nat): real
    requires o.perMinute > 0.0 && 0 < k <= |calls|
  {
    Level(o, After(o, true, Fresh(start), calls[..k]), client, calls[k - 1].at)
  }

  /** From `level`, with `gained` since, a bucket holds at least this. */
  predicate Holds(burst: real, level: real, gained: real, later: real) {
    later >= Least(burst, level + gained)
  }

  lemma HoldsTwice(burst: real, level: real, first: real, middle: real, second: real, later: real)
    requires first >= 0.0 && second >= 0.0
    requires Holds(burst, level, first, middle) && Holds(burst, middle, second, later)
    ensures Holds(burst, level, first + second, later)
  {
  }

  lemma LevelKeptOnce(o: Options, start: real, calls: seq<Call>, client: string, k: nat)
    requires o.perMinute > 0.0 && o.burst >= 0.0 && Monotone(start, calls) && 0 < k < |calls|
    requires calls[k].client == client ==> VerdictOf(o, true, Fresh(start), calls, k).Refused?
    ensures Holds(o.burst, LevelAfter(o, start, calls, client, k), Gain(o, calls[k].at - calls[k - 1].at),
                  LevelAfter(o, start, calls, client, k + 1))
  {
    SoundBefore(o, true, start, calls, k);
    AfterOneMore(o, true, Fresh(start), calls, k);
    RefusalsTakeNothing(o, After(o, true, Fresh(start), calls[..k]), client, calls[k - 1].at, calls[k]);
  }

  lemma {:induction false} LevelKept(o: Options, start: real, calls: seq<Call>, client: string, i: nat, k: nat)
    requires o.perMinute > 0.0 && o.burst >= 0.0 && Monotone(start, calls)
    requires i < k <= |calls| && RefusedBetween(o, start, calls, client, i, k)
    ensures Holds(o.burst, LevelAfter(o, start, calls, client, i + 1), Gain(o, calls[k - 1].at - calls[i].at),
                  LevelAfter(o, start, calls, client, k))
    decreases k
  {
    if k == i + 1 {
      GainGrows(o, 0.0, 0.0);
    } else {
      LevelKept(o, start, calls, client, i, k - 1);
      LevelKeptOnce(o, start, calls, client, k - 1);
      GainInTwo(o, calls[i].at, calls[k - 2].at, calls[k - 1].at);
      HoldsTwice(o.burst, LevelAfter(o, start, calls, client, i + 1), Gain(o, calls[k - 2].at - calls[i].at),
                 LevelAfter(o, start, calls, client, k - 1), Gain(o, calls[k - 1].at - calls[k - 2].at),
                 LevelAfter(o, start, calls, client, k));
    }
  }

  lemma LevelAfterRefusal(o: Options, start: real, calls: seq<Call>, i: nat)
    requires o.perMinute > 0.0 && o.burst >= 0.0 && Monotone(start, calls) && i < |calls|
    requires VerdictOf(o, true, Fresh(start), calls, i).Refused?
    ensures var level := Level(o, After(o, true, Fresh(start), calls[..i + 1]), calls[i].client, calls[i].at);
            level + Gain(o, 1000.0 * VerdictOf(o, true, Fresh(start), calls, i).retryAfter as real) >= 1.0
  {
    var s := After(o, true, Fresh(start), calls[..i]);
    AfterOneMore(o, true, Fresh(start), calls, i);
    ServedLevel(o, Swept(s, calls[i].at), calls[i].client, calls[i].client, calls[i].at);
    RetryAfterIsLeastWait(o, Level(o, Swept(s, calls[i].at), calls[i].client, calls[i].at));
  }

  /** What `client` finds when call `j` arrives, before any sweep. */
  lemma LevelAtCall(o: Options, start: real, calls: seq<Call>, client: string, i: nat, j: nat)
    requires o.perMinute > 0.0 && o.burst >= 0.0 && Monotone(start, calls) && i < j < |calls|
    requires RefusedBetween(o, start, calls, client, i, j)
    ensures Holds(o.burst, LevelAfter(o, start, calls, client, i + 1), Gain(o, calls[j].at - calls[i].at),
                  Level(o, After(o, true, Fresh(start), calls[..j]), client, calls[j].at))
  {
    var s := After(o, true, Fresh(start), calls[..j]);
    LevelKept(o, start, calls, client, i, j);
    SoundBefore(o, true, start, calls, j);
    LevelLater(o, s, client, calls[j - 1].at, calls[j].at);
    GainInTwo(o, calls[i].at, calls[j - 1].at, calls[j].at);
    HoldsTwice(o.burst, LevelAfter(o, start, calls, client, i + 1), Gain(o, calls[j - 1].at - calls[i].at),
               LevelAfter(o, start, calls, client, j), Gain(o, calls[j].at - calls[j - 1].at),
               Level(o, s, client, calls[j].at));
  }

  /** Once what a client lacked has been gained, it finds a token. */
  lemma TokenIsThere(o: Options, start: real, calls: seq<Call>, client: string, wait: real, i: nat, j: nat)
    requires o.perMinute > 0.0 && o.burst >= 1.0 && Monotone(start, calls) && i < j < |calls|
    requires RefusedBetween(o, start, calls, client, i, j)
    requires LevelAfter(o, start, calls, client, i + 1) + Gain(o, wait) >= 1.0 && calls[j].at - calls[i].at >= wait
    ensures Level(o, After(o, true, Fresh(start), calls[..j]), client, calls[j].at) >= 1.0
  {
    LevelAtCall(o, start, calls, client, i, j);
    GainGrows(o, wait, calls[j].at - calls[i].at);
  }

  /** A refused client that waits as long as it was told, making only refused calls, is let through. */
  lemma WaitingRetryAfterSucceeds(o: Options, start: real, calls: seq<Call>, i: nat, j: nat)
    requires o.perMinute > 0.0 && o.burst >= 1.0 && Monotone(start, calls)
    requires i < j < |calls| && calls[i].client == calls[j].client
    requires VerdictOf(o, true, Fresh(start), calls, i).Refused?
    requires RefusedBetween(o, start, calls, calls[i].client, i, j)
    requires calls[j].at - calls[i].at >= 1000.0 * VerdictOf(o, true, Fresh(start), calls, i).retryAfter as real
    ensures VerdictOf(o, true, Fresh(start), calls, j).Allowed?
  {
    LevelAfterRefusal(o, start, calls, i);
    TokenIsThere(o, start, calls, calls[i].client, 1000.0 * VerdictOf(o, true, Fresh(start), calls, i).retryAfter as real, i, j);
    TokenIsTaken(o, start, calls, j);
  }

  /** A call that finds a token, swept or not, is allowed. */
  lemma TokenIsTaken(o: Options, start: real, calls: seq<Call>, j: nat)
    requires o.perMinute > 0.0 && o.burst >= 1.0 && j < |calls|
    ensures Level(o, After(o, true, Fresh(start), calls[..j]), calls[j].client, calls[j].at) >= 1.0 ==>
              VerdictOf(o, true, Fresh(start), calls, j).Allowed?
  {
  }

  // ---- Reports ----

  /** `client`'s last report at `at` is on its bucket, however the table has been swept. */
  predicate Reported(s: State, client: string, at: real) {
    client in s.clients && s.clients[client].reportedAt == Some(at) && s.clients[client].updatedAt >= at
  }

  lemma ReportStays(o: Options, s: State, client: string, reportedAt: real, call: Call)
    requires o.perMinute > 0.0 && Reported(s, client, reportedAt)
    requires reportedAt <= call.at && call.at - reportedAt < REPORT_MS
    ensures Reported(Take(o, true, s, call.client, call.at).0, client, reportedAt)
    ensures call.client == client ==> !Told(Take(o, true, s, call.client, call.at).1)
  {
  }

  predicate Told(verdict: Verdict) {
    verdict.Refused? && verdict.reported
  }

  lemma ReportIsMade(o: Options, s: State, call: Call)
    requires o.perMinute > 0.0 && Told(Take(o, true, s, call.client, call.at).1)
    ensures Reported(Take(o, true, s, call.client, call.at).0, call.client, call.at)
  {
  }

  lemma ReportStaysLong(o: Options, start: real, calls: seq<Call>, client: string, at: real, i: nat, k: nat)
    requires o.perMinute > 0.0 && i <= k <= |calls|
    requires Reported(After(o, true, Fresh(start), calls[..i]), client, at)
    requires forall m: nat :: i <= m < k ==> 0.0 <= calls[m].at - at < REPORT_MS
    ensures Reported(After(o, true, Fresh(start), calls[..k]), client, at)
  {
    var holds := (m: nat) => m <= |calls| && Reported(After(o, true, Fresh(start), calls[..m]), client, at);
    forall m: nat | i <= m < k && holds(m)
      ensures holds(m + 1)
    {
      AfterOneMore(o, true, Fresh(start), calls, m);
      ReportStays(o, After(o, true, Fresh(start), calls[..m]), client, at, calls[m]);
    }
    UpTo(holds, i, k);
  }

  /** Two reports of one client are a minute apart, even if its bucket was swept between them. */
  lemma ReportsAreAMinuteApart(o: Options, start: real, calls: seq<Call>, i: nat, j: nat)
    requires o.perMinute > 0.0 && Monotone(start, calls)
    requires i < j < |calls| && calls[i].client == calls[j].client
    requires Told(VerdictOf(o, true, Fresh(start), calls, i)) && Told(VerdictOf(o, true, Fresh(start), calls, j))
    ensures calls[j].at - calls[i].at >= 60_000.0
  {
    if calls[j].at - calls[i].at < REPORT_MS {
      ReportIsMade(o, After(o, true, Fresh(start), calls[..i]), calls[i]);
      AfterOneMore(o, true, Fresh(start), calls, i);
      ReportStaysLong(o, start, calls, calls[i].client, calls[i].at, i + 1, j);
      ReportStays(o, After(o, true, Fresh(start), calls[..j]), calls[i].client, calls[i].at, calls[j]);
    }
  }

  /** `client` was refused and reported by one of the first `n` calls, at `at`. */
  ghost predicate ToldAt(o: Options, start: real, calls: seq<Call>, client: string, at: real, n: nat)
    requires o.perMinute > 0.0 && n <= |calls|
  {
    exists i: nat :: i < n && calls[i].client == client && calls[i].at == at && Told(VerdictOf(o, true, Fresh(start), calls, i))
  }

  lemma ReportComesFromCall(o: Options, s: State, call: Call, client: string, at: real)
    requires o.perMinute > 0.0
    requires var after := Take(o, true, s, call.client, call.at).0;
             client in after.clients && after.clients[client].reportedAt == Some(at)
    ensures (client in s.clients && s.clients[client].reportedAt == Some(at))
            || (call.client == client && call.at == at && Told(Take(o, true, s, call.client, call.at).1))
  {
  }

  lemma {:induction false} ReportsAreRemembered(o: Options, start: real, calls: seq<Call>, client: string, at: real, n: nat)
    requires o.perMinute > 0.0 && n <= |calls|
    requires var s := After(o, true, Fresh(start), calls[..n]); client in s.clients && s.clients[client].reportedAt == Some(at)
    ensures ToldAt(o, start, calls, client, at, n)
  {
    if n > 0 {
      var before := After(o, true, Fresh(start), calls[..n - 1]);
      AfterOneMore(o, true, Fresh(start), calls, n - 1);
      ReportComesFromCall(o, before, calls[n - 1], client, at);
      if client in before.clients && before.clients[client].reportedAt == Some(at) {
        ReportsAreRemembered(o, start, calls, client, at, n - 1);
      }
    }
  }

  lemma UnreportedHasReport(o: Options, s: State, client: string, at: real)
    requires o.perMinute > 0.0
    requires var verdict := Take(o, true, s, client, at).1; verdict.Refused? && !verdict.reported
    ensures client in s.clients && s.clients[client].reportedAt.Some? && at - s.clients[client].reportedAt.value < 60_000.0
  {
  }

  /** A refusal is reported exactly when none of that client's was in the minute before. */
  lemma ReportedExactlyWhen(o: Options, start: real, calls: seq<Call>, k: nat)
    requires o.perMinute > 0.0 && Monotone(start, calls) && k < |calls| && VerdictOf(o, true, Fresh(start), calls, k).Refused?
    ensures VerdictOf(o, true, Fresh(start), calls, k).reported <==>
              forall i: nat :: i < k && calls[i].client == calls[k].client && Told(VerdictOf(o, true, Fresh(start), calls, i)) ==>
                calls[k].at - calls[i].at >= 60_000.0
  {
    var verdict := VerdictOf(o, true, Fresh(start), calls, k);
    if verdict.reported {
      forall i: nat | i < k && calls[i].client == calls[k].client && Told(VerdictOf(o, true, Fresh(start), calls, i))
        ensures calls[k].at - calls[i].at >= 60_000.0
      {
        ReportsAreAMinuteApart(o, start, calls, i, k);
      }
    } else {
      var s := After(o, true, Fresh(start), calls[..k]);
      UnreportedHasReport(o, s, calls[k].client, calls[k].at);
      ReportsAreRemembered(o, start, calls, calls[k].client, s.clients[calls[k].client].reportedAt.value, k);
    }
  }
}
