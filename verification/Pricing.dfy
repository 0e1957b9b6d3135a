/**
 * What a trial's requests cost at recorded rates (src/evaluation/request-cost.ts) and the tiers the
 * rates come from (src/gateways/catalog.ts, src/contracts/models.ts). Money is real; rounding is
 * not modelled.
 */
module Pricing {
  import opened Wrappers

  datatype Usage = Usage(input: int, output: int, cacheRead: int, cacheWrite: int) {
    predicate NonNegative() { input >= 0 && output >= 0 && cacheRead >= 0 && cacheWrite >= 0 }

    function Prompt(): int { input + cacheRead + cacheWrite }

    function Plus(other: Usage): Usage {
      Usage(input + other.input, output + other.output, cacheRead + other.cacheRead, cacheWrite + other.cacheWrite)
    }
  }

  const NO_USAGE := Usage(0, 0, 0, 0)

  /** One request; `hour` is how many of its cache writes are of the dearer, hour-long kind. */
  datatype Request = Request(usage: Usage, hour: int)

  datatype Rates = Rates(input: real, output: real, cacheRead: real, cacheWrite: real)

  datatype Tier = Tier(from: int, rates: Rates)

  /** A run's pricing; no long-context tiers is the empty list. */
  datatype ModelPricing = ModelPricing(base: Rates, longContext: seq<Tier>, maxInputTokens: Option<int>)

  const HOUR_CACHE_WRITE_MULTIPLIER := 2.0

  function ReferenceCost(rates: Rates, usage: Usage, hour: int): real {
    (usage.input as real * rates.input
     + usage.output as real * rates.output
     + usage.cacheRead as real * rates.cacheRead
     + (usage.cacheWrite - hour) as real * rates.cacheWrite
     + hour as real * rates.input * HOUR_CACHE_WRITE_MULTIPLIER)
    / 1_000_000.0
  }

  /** Which rates object a request is billed at: requests are grouped by it. */
  datatype RatesRef = Base | Long(tier: nat)

  predicate RefIn(pricing: ModelPricing, key: RatesRef) {
    key.Long? ==> key.tier < |pricing.longContext|
  }

  function RatesOf(pricing: ModelPricing, key: RatesRef): Rates
    requires RefIn(pricing, key)
  {
    if key.Base? then pricing.base else pricing.longContext[key.tier].rates
  }

  /** The last of `tiers` whose `from` the prompt reaches. */
  function LastReached(tiers: seq<Tier>, prompt: int): (last: Option<nat>)
    ensures last.None? ==> forall i :: 0 <= i < |tiers| ==> prompt < tiers[i].from
    ensures last.Some? ==>
              && last.value < |tiers| && tiers[last.value].from <= prompt
              && forall i :: last.value < i < |tiers| ==> prompt < tiers[i].from
  {
    if tiers == [] then None
    else if tiers[|tiers| - 1].from <= prompt then Some(|tiers| - 1)
    else LastReached(tiers[..|tiers| - 1], prompt)
  }

  /** ratesFor: nothing past the limit, else the last tier reached, else the base rates. */
  function RatesFor(pricing: ModelPricing, prompt: int): (found: Option<RatesRef>)
    ensures found.Some? ==> RefIn(pricing, found.value)
  {
    if pricing.maxInputTokens.Some? && prompt > pricing.maxInputTokens.value then None
    else
      var last := LastReached(pricing.longContext, prompt);
      Some(if last.Some? then Long(last.value) else Base)
  }

  // ---- Each request priced alone ----

  function CostAlone(pricing: ModelPricing, request: Request): Option<real> {
    var found := RatesFor(pricing, request.usage.Prompt());
    if found.None? then None
    else Some(ReferenceCost(RatesOf(pricing, found.value), request.usage, request.hour))
  }

  function Plus(a: Option<real>, b: Option<real>): Option<real> {
    if a.None? || b.None? then None else Some(a.value + b.value)
  }

  /** The sum of `f` over `xs`; nothing when one of them has none. */
  function SumOver<T>(f: T -> Option<real>, xs: seq<T>): Option<real> {
    if xs == [] then Some(0.0) else Plus(SumOver(f, xs[..|xs| - 1]), f(xs[|xs| - 1]))
  }

  function Price(pricing: ModelPricing): Request -> Option<real> {
    request => CostAlone(pricing, request)
  }

  /** The sum of the requests' own prices; nothing when one has none. */
  function SumOfCosts(pricing: ModelPricing, requests: seq<Request>): Option<real> {
    SumOver(Price(pricing), requests)
  }

  function SumUsage(usages: seq<Usage>): Usage {
    if usages == [] then NO_USAGE
    else SumUsage(usages[..|usages| - 1]).Plus(usages[|usages| - 1])
  }

  method SumUsageOf(usages: seq<Usage>) returns (sum: Usage)
    ensures sum == SumUsage(usages)
  {
    sum := NO_USAGE;
    var i := 0;
    while i < |usages|
      invariant 0 <= i <= |usages|
      invariant sum == SumUsage(usages[..i])
    {
      assert usages[..i + 1][..i] == usages[..i];
      sum := sum.Plus(usages[i]);
      i := i + 1;
    }
    assert usages[..i] == usages;
  }

  lemma CostsAdd(rates: Rates, a: Usage, b: Usage, ha: int, hb: int)
    ensures ReferenceCost(rates, a.Plus(b), ha + hb) == ReferenceCost(rates, a, ha) + ReferenceCost(rates, b, hb)
  {
    var s := a.Plus(b);
    Distributes(a.input, b.input, rates.input);
    Distributes(a.output, b.output, rates.output);
    Distributes(a.cacheRead, b.cacheRead, rates.cacheRead);
    Distributes(a.cacheWrite - ha, b.cacheWrite - hb, rates.cacheWrite);
    assert s.cacheWrite - (ha + hb) == (a.cacheWrite - ha) + (b.cacheWrite - hb);
    Distributes(ha, hb, rates.input);
  }

  lemma Distributes(x: int, y: int, r: real)
    ensures (x + y) as real * r == x as real * r + y as real * r
  {
    assert (x + y) as real == x as real + y as real;
  }

  lemma NothingCostsNothing(rates: Rates)
    ensures ReferenceCost(rates, NO_USAGE, 0) == 0.0
  {
  }

  // ---- Adding up before pricing ----

  /** One entry of the map from rates to what was billed at them, in insertion order. */
  datatype Group = Group(key: RatesRef, usages: seq<Usage>, hour: int)

  predicate GroupsOk(pricing: ModelPricing, groups: seq<Group>) {
    && (forall i :: 0 <= i < |groups| ==> RefIn(pricing, groups[i].key))
    && (forall i, j :: 0 <= i < j < |groups| ==> groups[i].key != groups[j].key)
  }

  function GroupsCost(pricing: ModelPricing, groups: seq<Group>): real
    requires forall i :: 0 <= i < |groups| ==> RefIn(pricing, groups[i].key)
  {
    if groups == [] then 0.0
    else
      var last := groups[|groups| - 1];
      GroupsCost(pricing, groups[..|groups| - 1]) + ReferenceCost(RatesOf(pricing, last.key), SumUsage(last.usages), last.hour)
  }

  function AddTo(group: Group, request: Request): Group {
    Group(group.key, group.usages + [request.usage], group.hour + request.hour)
  }

  lemma GrownGroupCost(rates: Rates, group: Group, request: Request)
    ensures ReferenceCost(rates, SumUsage(AddTo(group, request).usages), AddTo(group, request).hour)
            == ReferenceCost(rates, SumUsage(group.usages), group.hour) + ReferenceCost(rates, request.usage, request.hour)
  {
    assert (group.usages + [request.usage])[..|group.usages|] == group.usages;
    CostsAdd(rates, SumUsage(group.usages), request.usage, group.hour, request.hour);
  }

  lemma {:induction false} GroupsCostAfterAdd(pricing: ModelPricing, groups: seq<Group>, at: nat, request: Request)
    requires forall i :: 0 <= i < |groups| ==> RefIn(pricing, groups[i].key)
    requires at < |groups|
    ensures GroupsCost(pricing, groups[at := AddTo(groups[at], request)])
            == GroupsCost(pricing, groups) + ReferenceCost(RatesOf(pricing, groups[at].key), request.usage, request.hour)
  {
    var n := |groups| - 1;
    var grown := groups[at := AddTo(groups[at], request)];
    if at == n {
      assert grown[..n] == groups[..n];
      GrownGroupCost(RatesOf(pricing, groups[n].key), groups[n], request);
    } else {
      assert grown[..n] == groups[..n][at := AddTo(groups[at], request)];
      GroupsCostAfterAdd(pricing, groups[..n], at, request);
    }
  }

  method GroupAt(groups: seq<Group>, key: RatesRef) returns (at: nat)
    ensures at <= |groups|
    ensures at < |groups| ==> groups[at].key == key
    ensures at == |groups| ==> forall i :: 0 <= i < |groups| ==> groups[i].key != key
  {
    at := 0;
    while at < |groups| && groups[at].key != key
      invariant at <= |groups|
      invariant forall i :: 0 <= i < at ==> groups[i].key != key
    {
      at := at + 1;
    }
  }

  lemma NewGroupCostsNothing(pricing: ModelPricing, groups: seq<Group>, key: RatesRef)
    requires RefIn(pricing, key) && forall i :: 0 <= i < |groups| ==> RefIn(pricing, groups[i].key)
    ensures forall i :: 0 <= i < |groups| + 1 ==> RefIn(pricing, (groups + [Group(key, [], 0)])[i].key)
    ensures GroupsCost(pricing, groups + [Group(key, [], 0)]) == GroupsCost(pricing, groups)
  {
    assert (groups + [Group(key, [], 0)])[..|groups|] == groups;
    NothingCostsNothing(RatesOf(pricing, key));
  }

  /** Bills one more request with those at the same rates. */
  method AddToGroup(pricing: ModelPricing, groups: seq<Group>, key: RatesRef, request: Request) returns (after: seq<Group>)
    requires GroupsOk(pricing, groups) && RefIn(pricing, key)
    ensures GroupsOk(pricing, after)
    ensures GroupsCost(pricing, after) == GroupsCost(pricing, groups) + ReferenceCost(RatesOf(pricing, key), request.usage, request.hour)
  {
    var at := GroupAt(groups, key);
    after := groups;
    if at == |groups| {
      after := groups + [Group(key, [], 0)];
      NewGroupCostsNothing(pricing, groups, key);
    }
    GroupsCostAfterAdd(pricing, after, at, request);
    after := after[at := AddTo(after[at], request)];
  }

  method CostOfGroups(pricing: ModelPricing, groups: seq<Group>) returns (total: real)
    requires GroupsOk(pricing, groups)
    ensures total == GroupsCost(pricing, groups)
  {
    total := 0.0;
    var k := 0;
    while k < |groups|
      invariant 0 <= k <= |groups|
      invariant total == GroupsCost(pricing, groups[..k])
    {
      assert groups[..k + 1][..k] == groups[..k];
      var sum := SumUsageOf(groups[k].usages);
      total := total + ReferenceCost(RatesOf(pricing, groups[k].key), sum, groups[k].hour);
      k := k + 1;
    }
    assert groups[..k] == groups;
  }

  /** requestsCost costs exactly what its requests cost one by one, each at its own tier. */
  method RequestsCost(pricing: ModelPricing, requests: seq<Request>) returns (cost: Option<real>)
    ensures cost == SumOfCosts(pricing, requests)
  {
    var groups: seq<Group> := [];
    var i := 0;
    while i < |requests|
      invariant 0 <= i <= |requests|
      invariant GroupsOk(pricing, groups)
      invariant SumOfCosts(pricing, requests[..i]) == Some(GroupsCost(pricing, groups))
    {
      assert requests[..i + 1][..i] == requests[..i];
      var found := RatesFor(pricing, requests[i].usage.Prompt());
      if found.None? {
        NoneStays(pricing, requests, i + 1);
        return None;
      }
      groups := AddToGroup(pricing, groups, found.value, requests[i]);
      i := i + 1;
    }
    assert requests[..i] == requests;
    var total := CostOfGroups(pricing, groups);
    return Some(total);
  }

  lemma {:induction false} NoneStays(pricing: ModelPricing, requests: seq<Request>, n: nat)
    requires n <= |requests| && SumOfCosts(pricing, requests[..n]).None?
    ensures SumOfCosts(pricing, requests).None?
    decreases |requests| - n
  {
    if n < |requests| {
      assert requests[..n + 1][..n] == requests[..n];
      NoneStays(pricing, requests, n + 1);
    } else {
      assert requests[..n] == requests;
    }
  }

  // ---- Order does not matter ----

  lemma {:induction false} SumWithout<T>(f: T -> Option<real>, xs: seq<T>, at: nat)
    requires at < |xs|
    ensures SumOver(f, xs) == Plus(SumOver(f, xs[..at] + xs[at + 1..]), f(xs[at]))
  {
    var n := |xs| - 1;
    var rest := xs[..at] + xs[at + 1..];
    if at == n {
      assert rest == xs[..n];
    } else {
      assert rest[..|rest| - 1] == xs[..n][..at] + xs[..n][at + 1..];
      SumWithout(f, xs[..n], at);
    }
  }

  lemma {:induction false} SumInAnyOrder<T>(f: T -> Option<real>, a: seq<T>, b: seq<T>)
    requires multiset(a) == multiset(b)
    ensures SumOver(f, a) == SumOver(f, b)
    decreases |a|
  {
    if a == [] {
      assert |multiset(b)| == 0;
    } else {
      var n := |a| - 1;
      assert a[n] in multiset(b);
      var at :| 0 <= at < |b| && b[at] == a[n];
      var rest := b[..at] + b[at + 1..];
      assert a == a[..n] + [a[n]];
      assert b == b[..at] + [b[at]] + b[at + 1..];
      assert multiset(a[..n]) == multiset(a) - multiset{a[n]};
      assert multiset(rest) == multiset(b) - multiset{b[at]};
      SumInAnyOrder(f, a[..n], rest);
      SumWithout(f, b, at);
    }
  }

  /** The same requests in any order cost the same. */
  lemma OrderDoesNotMatter(pricing: ModelPricing, a: seq<Request>, b: seq<Request>)
    requires multiset(a) == multiset(b)
    ensures SumOfCosts(pricing, a) == SumOfCosts(pricing, b)
  {
    SumInAnyOrder(Price(pricing), a, b);
  }

  // ---- A trial priced whole ----

  /** baseRatesLimit: the smallest prompt the base rates do not price. */
  function BaseRatesLimit(pricing: ModelPricing): Option<int> {
    var tier := if pricing.longContext == [] then None else Some(pricing.longContext[0].from);
    var past := if pricing.maxInputTokens.None? then None else Some(pricing.maxInputTokens.value + 1);
    if tier.None? then past
    else if past.None? || tier.value < past.value then tier
    else past
  }

  /** wholeCost: a usage whose split is unknown, at the base rates or not at all. */
  function WholeCost(pricing: ModelPricing, usage: Usage, largestPrompt: Option<int>, hour: int): Option<real> {
    var prompt := if largestPrompt.Some? then largestPrompt.value else usage.Prompt();
    var limit := BaseRatesLimit(pricing);
    if limit.None? || prompt < limit.value then Some(ReferenceCost(pricing.base, usage, hour)) else None
  }

  /** Recorded tiers are in ascending order. */
  predicate Ascending(tiers: seq<Tier>) {
    forall i, j :: 0 <= i < j < |tiers| ==> tiers[i].from < tiers[j].from
  }

  function UsagesOf(requests: seq<Request>): seq<Usage> {
    seq(|requests|, i requires 0 <= i < |requests| => requests[i].usage)
  }

  function SumHours(requests: seq<Request>): int {
    if requests == [] then 0 else SumHours(requests[..|requests| - 1]) + requests[|requests| - 1].hour
  }

  /** A way the trial's usage may have been split into requests the record does not show. */
  predicate IsSplit(requests: seq<Request>, usage: Usage, largestPrompt: Option<int>, hour: int) {
    && (forall i :: 0 <= i < |requests| ==> requests[i].usage.NonNegative())
    && SumUsage(UsagesOf(requests)) == usage
    && SumHours(requests) == hour
    && (largestPrompt.Some? ==> forall i :: 0 <= i < |requests| ==> requests[i].usage.Prompt() <= largestPrompt.value)
  }

  /** Below the limit, and only there, a prompt is billed at the base rates. */
  lemma BaseRatesBelowLimit(pricing: ModelPricing, prompt: int)
    requires Ascending(pricing.longContext)
    ensures RatesFor(pricing, prompt) == Some(Base) <==> BaseRatesLimit(pricing).None? || prompt < BaseRatesLimit(pricing).value
  {
    var tiers := pricing.longContext;
    var last := LastReached(tiers, prompt);
    if |tiers| > 0 && last.Some? && last.value > 0 {
      assert tiers[0].from < tiers[last.value].from;
    }
  }

  lemma UsagesPrefix(requests: seq<Request>)
    requires requests != []
    ensures UsagesOf(requests)[..|requests| - 1] == UsagesOf(requests[..|requests| - 1])
  {
  }

  lemma {:induction false} PromptsWithinTotal(requests: seq<Request>, i: nat)
    requires i < |requests| && forall k :: 0 <= k < |requests| ==> requests[k].usage.NonNegative()
    ensures SumUsage(UsagesOf(requests)).NonNegative()
    ensures requests[i].usage.Prompt() <= SumUsage(UsagesOf(requests)).Prompt()
    decreases |requests|
  {
    var n := |requests| - 1;
    UsagesPrefix(requests);
    if n > 0 {
      PromptsWithinTotal(requests[..n], if i < n then i else 0);
    } else {
      assert UsagesOf(requests[..n]) == [];
    }
  }

  lemma {:induction false} AllAtBaseRates(pricing: ModelPricing, requests: seq<Request>)
    requires forall i :: 0 <= i < |requests| ==> RatesFor(pricing, requests[i].usage.Prompt()) == Some(Base)
    ensures SumOfCosts(pricing, requests) == Some(ReferenceCost(pricing.base, SumUsage(UsagesOf(requests)), SumHours(requests)))
  {
    if requests == [] {
      assert UsagesOf(requests) == [];
      NothingCostsNothing(pricing.base);
    } else {
      var n := |requests| - 1;
      UsagesPrefix(requests);
      AllAtBaseRates(pricing, requests[..n]);
      CostsAdd(pricing.base, SumUsage(UsagesOf(requests[..n])), requests[n].usage, SumHours(requests[..n]), requests[n].hour);
    }
  }

  /** Pricing a trial whole is sound for every split it may have had: each one costs the same. */
  lemma WholeCostIsEverySplitsCost(pricing: ModelPricing, usage: Usage, largestPrompt: Option<int>, hour: int, requests: seq<Request>)
    requires Ascending(pricing.longContext)
    requires WholeCost(pricing, usage, largestPrompt, hour).Some?
    requires IsSplit(requests, usage, largestPrompt, hour)
    ensures SumOfCosts(pricing, requests) == WholeCost(pricing, usage, largestPrompt, hour)
  {
    forall i | 0 <= i < |requests| ensures RatesFor(pricing, requests[i].usage.Prompt()) == Some(Base) {
      PromptsWithinTotal(requests, i);
      BaseRatesBelowLimit(pricing, requests[i].usage.Prompt());
    }
    AllAtBaseRates(pricing, requests);
  }

  /** It refuses only where it must: the largest prompt it was told of, or without one the whole
      usage sent as a single request, is not billed at the base rates. */
  lemma WholeCostRefusesOnlyPastBaseRates(pricing: ModelPricing, usage: Usage, largestPrompt: Option<int>, hour: int)
    requires Ascending(pricing.longContext)
    ensures WholeCost(pricing, usage, largestPrompt, hour).None? <==>
              RatesFor(pricing, if largestPrompt.Some? then largestPrompt.value else usage.Prompt()) != Some(Base)
  {
    BaseRatesBelowLimit(pricing, if largestPrompt.Some? then largestPrompt.value else usage.Prompt());
  }

  // ---- What a token costs ----

  /** The rates a prompt is billed at: those of the last tier it reaches, else the base rates; none
      past the limit. */
  ghost predicate BilledAt(pricing: ModelPricing, prompt: int, rates: Rates) {
    && (pricing.maxInputTokens.Some? ==> prompt <= pricing.maxInputTokens.value)
    && ((rates == pricing.base && forall i :: 0 <= i < |pricing.longContext| ==> prompt < pricing.longContext[i].from)
        || exists k :: LastTierReached(pricing, prompt, k) && rates == pricing.longContext[k].rates)
  }

  predicate LastTierReached(pricing: ModelPricing, prompt: int, k: int) {
    && 0 <= k < |pricing.longContext| && pricing.longContext[k].from <= prompt
    && forall i :: k < i < |pricing.longContext| ==> prompt < pricing.longContext[i].from
  }

  lemma BilledAtIsFound(pricing: ModelPricing, prompt: int, rates: Rates)
    requires BilledAt(pricing, prompt, rates)
    ensures RatesFor(pricing, prompt).Some? && RatesOf(pricing, RatesFor(pricing, prompt).value) == rates
  {
    var last := LastReached(pricing.longContext, prompt);
    if k :| LastTierReached(pricing, prompt, k) && rates == pricing.longContext[k].rates {
      assert last == Some(k);
    }
  }

  lemma OneRequestCosts(pricing: ModelPricing, request: Request, rates: Rates)
    requires BilledAt(pricing, request.usage.input + request.usage.cacheRead + request.usage.cacheWrite, rates)
    ensures SumOfCosts(pricing, [request]) == Some(ReferenceCost(rates, request.usage, request.hour))
  {
    BilledAtIsFound(pricing, request.usage.Prompt(), rates);
    assert [request][..0] == [];
    assert SumOver(Price(pricing), []) == Some(0.0);
  }

  const MILLION := 1_000_000

  datatype Bucket = Input | Output | CacheRead | CacheWrite | HourCacheWrite

  /** A request of a million tokens of one bucket and nothing else. */
  function MillionOf(bucket: Bucket): Request {
    match bucket
    case Input => Request(Usage(MILLION, 0, 0, 0), 0)
    case Output => Request(Usage(0, MILLION, 0, 0), 0)
    case CacheRead => Request(Usage(0, 0, MILLION, 0), 0)
    case CacheWrite => Request(Usage(0, 0, 0, MILLION), 0)
    case HourCacheWrite => Request(Usage(0, 0, 0, MILLION), MILLION)
  }

  /** What a million of them are listed at; writing the cache for an hour costs twice the input rate. */
  function ListedAt(rates: Rates, bucket: Bucket): real {
    match bucket
    case Input => rates.input
    case Output => rates.output
    case CacheRead => rates.cacheRead
    case CacheWrite => rates.cacheWrite
    case HourCacheWrite => 2.0 * rates.input
  }

  lemma BucketCosts(rates: Rates, bucket: Bucket)
    ensures ReferenceCost(rates, MillionOf(bucket).usage, MillionOf(bucket).hour) == ListedAt(rates, bucket)
  {
    assert MILLION as real == 1_000_000.0 && 0 as real == 0.0;
  }

  /** A million tokens of one bucket, sent as one request, cost that bucket's rate where it is billed. */
  lemma MillionTokensCostTheirRate(pricing: ModelPricing, bucket: Bucket, rates: Rates)
    requires BilledAt(pricing, if bucket.Output? then 0 else MILLION, rates)
    ensures SumOfCosts(pricing, [MillionOf(bucket)]) == Some(ListedAt(rates, bucket))
  {
    OneRequestCosts(pricing, MillionOf(bucket), rates);
    BucketCosts(rates, bucket);
  }

  /** Priced whole, if at all, they cost its base rate. */
  lemma MillionTokensWhole(pricing: ModelPricing, bucket: Bucket, largestPrompt: Option<int>)
    ensures var whole := WholeCost(pricing, MillionOf(bucket).usage, largestPrompt, MillionOf(bucket).hour);
            whole.Some? ==> whole.value == ListedAt(pricing.base, bucket)
  {
    BucketCosts(pricing.base, bucket);
  }

  /** Past the limit a request has no price, and below it always one. */
  lemma UnpricedPastTheLimit(pricing: ModelPricing, request: Request)
    ensures SumOfCosts(pricing, [request]).None? <==>
              && pricing.maxInputTokens.Some?
              && request.usage.input + request.usage.cacheRead + request.usage.cacheWrite > pricing.maxInputTokens.value
  {
    assert [request][..0] == [];
    assert SumOver(Price(pricing), []) == Some(0.0);
  }

  /** Requests billed at one tier cost what a single request of their tokens would, billed there. */
  lemma MergedRequestsCostTheSame(pricing: ModelPricing, a: Request, b: Request, merged: Request, rates: Rates)
    requires merged.usage.input == a.usage.input + b.usage.input && merged.usage.output == a.usage.output + b.usage.output
    requires merged.usage.cacheRead == a.usage.cacheRead + b.usage.cacheRead
    requires merged.usage.cacheWrite == a.usage.cacheWrite + b.usage.cacheWrite && merged.hour == a.hour + b.hour
    requires BilledAt(pricing, a.usage.input + a.usage.cacheRead + a.usage.cacheWrite, rates)
    requires BilledAt(pricing, b.usage.input + b.usage.cacheRead + b.usage.cacheWrite, rates)
    requires BilledAt(pricing, merged.usage.input + merged.usage.cacheRead + merged.usage.cacheWrite, rates)
    ensures SumOfCosts(pricing, [a, b]) == SumOfCosts(pricing, [merged])
  {
    OneRequestCosts(pricing, a, rates);
    OneRequestCosts(pricing, b, rates);
    OneRequestCosts(pricing, merged, rates);
    SumOfTwo(Price(pricing), a, b);
    assert merged.usage == a.usage.Plus(b.usage);
    CostsAdd(rates, a.usage, b.usage, a.hour, b.hour);
  }

  lemma SumOfTwo<T>(f: T -> Option<real>, a: T, b: T)
    ensures SumOver(f, [a, b]) == Plus(SumOver(f, [a]), SumOver(f, [b]))
  {
    assert [a, b][..1] == [a] && [b][..0] == [];
    assert SumOver(f, [b]) == Plus(Some(0.0), f(b));
  }

  /** A usage is priced whole exactly when the prompt that stands for it reaches no tier and is within the limit. */
  lemma BaseRatesReachTheLimit(pricing: ModelPricing, usage: Usage, largestPrompt: Option<int>, hour: int)
    requires Ascending(pricing.longContext)
    ensures var prompt := if largestPrompt.Some? then largestPrompt.value else usage.input + usage.cacheRead + usage.cacheWrite;
            WholeCost(pricing, usage, largestPrompt, hour).Some? <==>
              && (pricing.maxInputTokens.Some? ==> prompt <= pricing.maxInputTokens.value)
              && forall i :: 0 <= i < |pricing.longContext| ==> prompt < pricing.longContext[i].from
  {
    WholeCostRefusesOnlyPastBaseRates(pricing, usage, largestPrompt, hour);
  }
}
