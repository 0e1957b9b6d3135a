/**
 * Token buckets per client (createRateLimiter, src/api/rate-limit.ts). Times are milliseconds,
 * tokens are reals.
 */
module RateLimiter {
  import opened Wrappers

  datatype Bucket = Bucket(tokens: real, updatedAt: real, reportedAt: Option<real>)

  datatype Options = Options(perMinute: real, burst: real) {
    predicate Valid() { perMinute > 0.0 && burst >= 0.0 }
  }

  /** A refusal carries its wait in seconds, and whether it was passed on to `onLimit`. */
  datatype Verdict = Allowed | Refused(retryAfter: int, reported: bool)

  datatype State = State(clients: map<string, Bucket>, sweptAt: real)

  const IDLE_MS := 600_000.0
  const REPORT_MS := 60_000.0

  /** The tokens a bucket gains in `ms` milliseconds. */
  function Gain(o: Options, ms: real): real {
    ms * o.perMinute / 60_000.0
  }

  function Least(a: real, b: real): real {
    if a < b then a else b
  }

  function Refilled(o: Options, bucket: Bucket, at: real): Bucket {
    bucket.(tokens := Least(o.burst, bucket.tokens + Gain(o, at - bucket.updatedAt)), updatedAt := at)
  }

  function Ceiling(x: real): int {
    -((-x).Floor)
  }

  function RetryAfter(o: Options, tokens: real): int
    requires o.perMinute > 0.0
  {
    var seconds := Ceiling((1.0 - tokens) * 60.0 / o.perMinute);
    if seconds > 1 then seconds else 1
  }

  /** The idle sweep, at most every ten minutes. */
  function Swept(s: State, at: real): State {
    if at - s.sweptAt > IDLE_MS then
      State(map c | c in s.clients && at - s.clients[c].updatedAt <= IDLE_MS :: s.clients[c], at)
    else s
  }

  /** The client's bucket refilled, or a full one. */
  function BucketFor(o: Options, clients: map<string, Bucket>, client: string, at: real): Bucket {
    Refilled(o, if client in clients then clients[client] else Bucket(o.burst, at, None), at)
  }

  function Taken(o: Options, bucket: Bucket, at: real): (Bucket, Verdict)
    requires o.perMinute > 0.0
  {
    if bucket.tokens < 1.0 then
      var reported := bucket.reportedAt.None? || at - bucket.reportedAt.value >= REPORT_MS;
      (if reported then bucket.(reportedAt := Some(at)) else bucket, Refused(RetryAfter(o, bucket.tokens), reported))
    else (bucket.(tokens := bucket.tokens - 1.0), Allowed)
  }

  /** One call on a table that has just been swept. */
  function Served(o: Options, s: State, client: string, at: real): (State, Verdict)
    requires o.perMinute > 0.0
  {
    var taken := Taken(o, BucketFor(o, s.clients, client, at), at);
    (s.(clients := s.clients[client := taken.0]), taken.1)
  }

  /** One call. `sweeps` is true of the limiter; false gives the limiter that never sweeps. */
  function Take(o: Options, sweeps: bool, s: State, client: string, at: real): (State, Verdict)
    requires o.perMinute > 0.0
  {
    Served(o, if sweeps then Swept(s, at) else s, client, at)
  }

  class Limiter {
    const options: Options
    var clients: map<string, Bucket>
    var sweptAt: real

    constructor (options: Options, now: real)
      ensures this.options == options && Snapshot() == State(map[], now)
    {
      this.options, clients, sweptAt := options, map[], now;
    }

    function Snapshot(): State
      reads this
    {
      State(clients, sweptAt)
    }

    method TakeFor(client: string, at: real) returns (verdict: Verdict)
      requires options.perMinute > 0.0
      modifies this
      ensures Snapshot() == Take(options, true, old(Snapshot()), client, at).0
      ensures verdict == Take(options, true, old(Snapshot()), client, at).1
    {
      if at - sweptAt > IDLE_MS {
        var left := clients.Keys;
        while left != {}
          invariant left <= clients.Keys <= old(clients).Keys
          invariant forall c :: c in clients ==> clients[c] == old(clients)[c]
          invariant forall c :: c in old(clients) ==>
                      (c in clients <==> c in left || at - old(clients)[c].updatedAt <= IDLE_MS)
          decreases left
        {
          var key :| key in left;
          left := left - {key};
          if at - clients[key].updatedAt > IDLE_MS { clients := clients - {key}; }
        }
        assert clients == Swept(old(Snapshot()), at).clients;
        sweptAt := at;
      }
      var bucket := if client in clients then clients[client] else Bucket(options.burst, at, None);
      bucket := bucket.(tokens := Least(options.burst, bucket.tokens + Gain(options, at - bucket.updatedAt)));
      bucket := bucket.(updatedAt := at);
      if bucket.tokens < 1.0 {
        var reported := false;
        if bucket.reportedAt.None? || at - bucket.reportedAt.value >= REPORT_MS {
          bucket := bucket.(reportedAt := Some(at));
          reported := true;
        }
        clients := clients[client := bucket];
        return Refused(RetryAfter(options, bucket.tokens), reported);
      }
      bucket := bucket.(tokens := bucket.tokens - 1.0);
      clients := clients[client := bucket];
      return Allowed;
    }
  }

  // ---- Runs of calls under a clock that never goes back ----

  datatype Call = Call(client: string, at: real)

  function Fresh(start: real): State {
    State(map[], start)
  }

  predicate Monotone(start: real, calls: seq<Call>) {
    && (forall i :: 0 <= i < |calls| ==> start <= calls[i].at)
    && (forall i, j :: 0 <= i < j < |calls| ==> calls[i].at <= calls[j].at)
  }

  function After(o: Options, sweeps: bool, s: State, calls: seq<Call>): State
    requires o.perMinute > 0.0
  {
    if calls == [] then s
    else
      var last := calls[|calls| - 1];
      Take(o, sweeps, After(o, sweeps, s, calls[..|calls| - 1]), last.client, last.at).0
  }

  /** The verdict on call `i`. */
  function VerdictOf(o: Options, sweeps: bool, s: State, calls: seq<Call>, i: nat): Verdict
    requires o.perMinute > 0.0 && i < |calls|
  {
    Take(o, sweeps, After(o, sweeps, s, calls[..i]), calls[i].client, calls[i].at).1
  }

  /** How many of the calls from `lo` up to `hi` are `client`'s and were allowed. */
  function Accepted(o: Options, sweeps: bool, s: State, calls: seq<Call>, client: string, lo: nat, hi: nat): nat
    requires o.perMinute > 0.0
    requires hi <= |calls|
    decreases hi
  {
    if hi <= lo then 0
    else
      Accepted(o, sweeps, s, calls, client, lo, hi - 1)
      + (if calls[hi - 1].client == client && VerdictOf(o, sweeps, s, calls, hi - 1).Allowed? then 1 else 0)
  }
}
