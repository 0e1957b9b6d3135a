/**
 * From a catalog's price to the rates a prompt is billed at: listedRates (src/gateways/catalog.ts),
 * ratesPricing (src/contracts/models.ts) and ratesFor (src/evaluation/request-cost.ts) in turn.
 */
module PriceTiers {
  import opened Wrappers
  import opened Pricing

  /** A catalog's rates for prompts above so many tokens; a cache price may be missing. */
  datatype CatalogTier = CatalogTier(above: nat, input: real, output: real, cachedInput: Option<real>, cacheWrite: Option<real>)

  datatype CatalogPrice = CatalogPrice(
    input: real, output: real, cachedInput: Option<real>, cacheWrite: Option<real>, tiers: seq<CatalogTier>)

  /** What listedRates records. */
  datatype ListedRates = ListedRates(rates: Rates, longContext: seq<Tier>, unpricedFrom: Option<int>)

  // ---- A stable sort by size ----

  function Insert(tier: CatalogTier, sorted: seq<CatalogTier>): seq<CatalogTier> {
    if sorted == [] || tier.above <= sorted[0].above then [tier] + sorted
    else [sorted[0]] + Insert(tier, sorted[1..])
  }

  function Sorted(tiers: seq<CatalogTier>): seq<CatalogTier> {
    if tiers == [] then [] else Insert(tiers[0], Sorted(tiers[1..]))
  }

  predicate InOrder(tiers: seq<CatalogTier>) {
    forall i, j :: 0 <= i < j < |tiers| ==> tiers[i].above <= tiers[j].above
  }

  /** The first listed tier above exactly `above` tokens. */
  function FirstAt(tiers: seq<CatalogTier>, above: int): Option<CatalogTier> {
    if tiers == [] then None
    else if tiers[0].above == above then Some(tiers[0])
    else FirstAt(tiers[1..], above)
  }

  lemma {:induction false} InsertKeepsFirst(tier: CatalogTier, sorted: seq<CatalogTier>, above: int)
    requires InOrder(sorted)
    ensures InOrder(Insert(tier, sorted))
    ensures FirstAt(Insert(tier, sorted), above) == FirstAt([tier] + sorted, above)
    ensures forall t :: t in Insert(tier, sorted) <==> t == tier || t in sorted
  {
    if sorted != [] && tier.above > sorted[0].above {
      InsertKeepsFirst(tier, sorted[1..], above);
      assert ([sorted[0]] + Insert(tier, sorted[1..]))[1..] == Insert(tier, sorted[1..]);
      assert ([tier] + sorted[1..])[1..] == sorted[1..];
      assert ([tier] + sorted)[1..] == sorted;
      forall t | t in Insert(tier, sorted) ensures sorted[0].above <= t.above {
        assert t == tier || t in sorted;
      }
      var all := Insert(tier, sorted);
      assert all[0] == sorted[0] && all[1..] == Insert(tier, sorted[1..]);
      forall i, j | 0 <= i < j < |all| ensures all[i].above <= all[j].above {
        assert all[j] in all;
        if i > 0 {
          assert all[1..][i - 1].above <= all[1..][j - 1].above;
        }
      }
    }
  }

  /** Sorting keeps, among tiers of one size, the first listed first. */
  lemma {:induction false} SortIsStable(tiers: seq<CatalogTier>, above: int)
    ensures InOrder(Sorted(tiers))
    ensures FirstAt(Sorted(tiers), above) == FirstAt(tiers, above)
  {
    if tiers != [] {
      SortIsStable(tiers[1..], above);
      InsertKeepsFirst(tiers[0], Sorted(tiers[1..]), above);
      assert [tiers[0]] + tiers[1..] == tiers;
      assert ([tiers[0]] + Sorted(tiers[1..]))[1..] == Sorted(tiers[1..]);
    }
  }

  // ---- listedRates ----

  /** Whether the tier lists every cache price its base lists. */
  predicate Priced(price: CatalogPrice, tier: CatalogTier) {
    && (tier.cachedInput.None? ==> price.cachedInput.None?)
    && (tier.cacheWrite.None? ==> price.cacheWrite.None?)
  }

  function TierRates(tier: CatalogTier): Rates {
    Rates(tier.input, tier.output,
          if tier.cachedInput.Some? then tier.cachedInput.value else tier.input,
          if tier.cacheWrite.Some? then tier.cacheWrite.value else tier.input)
  }

  function BaseRates(price: CatalogPrice): Rates {
    Rates(price.input, price.output,
          if price.cachedInput.Some? then price.cachedInput.value else price.input,
          if price.cacheWrite.Some? then price.cacheWrite.value else price.input)
  }

  /** The scan over sorted tiers, after the tier last recorded: tiers recorded, and where it stops. */
  function Scan(price: CatalogPrice, sorted: seq<CatalogTier>, last: Option<int>): (seq<Tier>, Option<int>) {
    if sorted == [] then ([], None)
    else
      var from := sorted[0].above + 1;
      if last == Some(from) then Scan(price, sorted[1..], last)
      else if !Priced(price, sorted[0]) then ([], Some(from))
      else
        var rest := Scan(price, sorted[1..], Some(from));
        ([Tier(from, TierRates(sorted[0]))] + rest.0, rest.1)
  }

  function Listed(price: CatalogPrice): ListedRates {
    var scan := Scan(price, Sorted(price.tiers), None);
    ListedRates(BaseRates(price), scan.0, scan.1)
  }

  function LastFrom(tiers: seq<Tier>): Option<int> {
    if tiers == [] then None else Some(tiers[|tiers| - 1].from)
  }

  method ListedRatesOf(price: CatalogPrice) returns (listed: ListedRates)
    ensures listed == Listed(price)
  {
    var longContext: seq<Tier> := [];
    var unpricedFrom: Option<int> := None;
    var tiers := Sorted(price.tiers);
    var i := 0;
    assert tiers[0..] == tiers;
    assert [] + Scan(price, tiers, None).0 == Scan(price, tiers, None).0;
    while i < |tiers|
      invariant 0 <= i <= |tiers| && unpricedFrom.None?
      invariant Scan(price, tiers, None) ==
                var rest := Scan(price, tiers[i..], LastFrom(longContext)); (longContext + rest.0, rest.1)
    {
      var tier := tiers[i];
      var from := tier.above + 1;
      assert tiers[i..][0] == tier && tiers[i..][1..] == tiers[i + 1..];
      if LastFrom(longContext) == Some(from) {
        i := i + 1;
        continue;
      }
      var read := if tier.cachedInput.Some? then tier.cachedInput else if price.cachedInput.None? then Some(tier.input) else None;
      var write := if tier.cacheWrite.Some? then tier.cacheWrite else if price.cacheWrite.None? then Some(tier.input) else None;
      if read.None? || write.None? {
        unpricedFrom := Some(from);
        break;
      }
      var recorded := [Tier(from, Rates(tier.input, tier.output, read.value, write.value))];
      assert forall rest :: longContext + (recorded + rest) == (longContext + recorded) + rest;
      longContext := longContext + recorded;
      i := i + 1;
    }
    return ListedRates(BaseRates(price), longContext, unpricedFrom);
  }

  // ---- ratesPricing ----

  function Below(tiers: seq<Tier>, unpricedFrom: Option<int>): seq<Tier> {
    if tiers == [] then []
    else
      var rest := Below(tiers[1..], unpricedFrom);
      if unpricedFrom.None? || tiers[0].from < unpricedFrom.value then [tiers[0]] + rest else rest
  }

  function RatesPricing(listed: ListedRates): ModelPricing {
    ModelPricing(listed.rates, Below(listed.longContext, listed.unpricedFrom),
                 if listed.unpricedFrom.Some? then Some(listed.unpricedFrom.value - 1) else None)
  }

  // ---- What the pipeline means ----

  /** The rates a prompt is billed at; none past what is priced. */
  function Billed(pricing: ModelPricing, prompt: int): Option<Rates> {
    var found := RatesFor(pricing, prompt);
    if found.None? then None else Some(RatesOf(pricing, found.value))
  }

  /** A recorded scan is strictly ascending, past `last`, and below where it stops. */
  predicate Recorded(scan: (seq<Tier>, Option<int>), last: Option<int>) {
    && Ascending(scan.0)
    && (last.Some? ==> forall i :: 0 <= i < |scan.0| ==> last.value < scan.0[i].from)
    && (scan.1.Some? ==> forall i :: 0 <= i < |scan.0| ==> scan.0[i].from < scan.1.value)
    && (last.Some? && scan.1.Some? ==> last.value < scan.1.value)
  }

  lemma {:induction false} ScanRecords(price: CatalogPrice, sorted: seq<CatalogTier>, last: Option<int>)
    requires InOrder(sorted)
    requires last.Some? ==> forall i :: 0 <= i < |sorted| ==> last.value <= sorted[i].above + 1
    ensures Recorded(Scan(price, sorted, last), last)
  {
    if sorted != [] {
      var from := sorted[0].above + 1;
      if last == Some(from) {
        ScanRecords(price, sorted[1..], last);
      } else if Priced(price, sorted[0]) {
        ScanRecords(price, sorted[1..], Some(from));
      }
    }
  }

  lemma {:induction false} NothingDropped(tiers: seq<Tier>, unpricedFrom: Option<int>)
    requires unpricedFrom.Some? ==> forall i :: 0 <= i < |tiers| ==> tiers[i].from < unpricedFrom.value
    ensures Below(tiers, unpricedFrom) == tiers
  {
    if tiers != [] {
      NothingDropped(tiers[1..], unpricedFrom);
    }
  }

  /** The recorded tiers are strictly ascending, and all below the limit. */
  lemma RecordedTiersAscend(price: CatalogPrice)
    ensures var pricing := RatesPricing(Listed(price));
            && Ascending(pricing.longContext)
            && (pricing.maxInputTokens.Some? ==>
                  forall i :: 0 <= i < |pricing.longContext| ==> pricing.longContext[i].from <= pricing.maxInputTokens.value)
            && pricing.longContext == Listed(price).longContext
  {
    SortIsStable(price.tiers, 0);
    ScanRecords(price, Sorted(price.tiers), None);
    NothingDropped(Listed(price).longContext, Listed(price).unpricedFrom);
  }

  /** Whether some size past `after` that the prompt reaches lists, first, a tier lacking a needed
      cache price. */
  ghost predicate ReachesUnpriced(price: CatalogPrice, tiers: seq<CatalogTier>, after: int, prompt: int) {
    exists above: nat :: after < above < prompt && FirstAt(tiers, above).Some? && !Priced(price, FirstAt(tiers, above).value)
  }

  ghost predicate NoneReached(tiers: seq<CatalogTier>, after: int, prompt: int) {
    forall above: nat :: after < above < prompt ==> FirstAt(tiers, above).None?
  }

  /** `above` is the greatest listed size past `after` that the prompt reaches. */
  ghost predicate HighestReached(tiers: seq<CatalogTier>, above: nat, after: int, prompt: int) {
    after < above < prompt && FirstAt(tiers, above).Some? && NoneReached(tiers, above, prompt)
  }

  /** What `prompt` is billed by scanned tiers: none past the stop, else the last reached, else `current`. */
  function ByScan(scan: (seq<Tier>, Option<int>), prompt: int, current: Rates): Option<Rates> {
    if scan.1.Some? && scan.1.value <= prompt then None
    else
      var last := LastReached(scan.0, prompt);
      Some(if last.Some? then scan.0[last.value].rates else current)
  }

  function After(last: Option<int>): int {
    if last.Some? then last.value - 1 else -1
  }

  lemma {:induction false} FirstAtPastStart(tiers: seq<CatalogTier>, above: int)
    requires InOrder(tiers)
    ensures tiers != [] && above < tiers[0].above ==> FirstAt(tiers, above).None?
    ensures FirstAt(tiers, above).Some? ==> FirstAt(tiers, above).value in tiers && FirstAt(tiers, above).value.above == above
  {
    if tiers != [] {
      FirstAtPastStart(tiers[1..], above);
      if |tiers| > 1 && above < tiers[0].above {
        assert tiers[0].above <= tiers[1].above;
      }
    }
  }

  /** The last tier reached is the one reached with none reached after it. */
  lemma LastReachedIs(tiers: seq<Tier>, prompt: int, i: nat)
    requires i < |tiers| && tiers[i].from <= prompt && forall j :: i < j < |tiers| ==> prompt < tiers[j].from
    ensures LastReached(tiers, prompt) == Some(i)
  {
  }

  lemma NoneReachedBelowFirst(tiers: seq<Tier>, prompt: int)
    requires Ascending(tiers) && tiers != [] && prompt < tiers[0].from
    ensures LastReached(tiers, prompt).None?
  {
    assert forall i :: 0 < i < |tiers| ==> tiers[0].from < tiers[i].from;
  }

  lemma LastReachedAfterFirst(first: Tier, rest: seq<Tier>, prompt: int)
    requires Ascending([first] + rest)
    ensures var last := LastReached([first] + rest, prompt);
            if prompt < first.from then last.None?
            else if LastReached(rest, prompt).Some? then last == Some(LastReached(rest, prompt).value + 1)
            else last == Some(0)
  {
    var all := [first] + rest;
    var later := LastReached(rest, prompt);
    assert forall i :: 0 < i < |all| ==> all[i] == rest[i - 1];
    if prompt < first.from {
      NoneReachedBelowFirst(all, prompt);
    } else {
      LastReachedIs(all, prompt, if later.Some? then later.value + 1 else 0);
    }
  }

  /** What `prompt` is billed, given the sizes in `tiers` past `after`, and `current` below them. */
  ghost predicate Means(price: CatalogPrice, tiers: seq<CatalogTier>, after: int, prompt: int, current: Rates, billed: Option<Rates>) {
    if ReachesUnpriced(price, tiers, after, prompt) then billed.None?
    else
      && (NoneReached(tiers, after, prompt) ==> billed == Some(current))
      && (forall above: nat :: HighestReached(tiers, above, after, prompt) ==>
            billed == Some(TierRates(FirstAt(tiers, above).value)))
  }

  /** Past the first tier's size, only the other tiers count. */
  lemma SameBeyond(price: CatalogPrice, sorted: seq<CatalogTier>, after: int, prompt: int)
    requires sorted != [] && sorted[0].above <= after
    ensures ReachesUnpriced(price, sorted, after, prompt) <==> ReachesUnpriced(price, sorted[1..], after, prompt)
    ensures NoneReached(sorted, after, prompt) <==> NoneReached(sorted[1..], after, prompt)
    ensures forall above: nat :: HighestReached(sorted, above, after, prompt) <==> HighestReached(sorted[1..], above, after, prompt)
    ensures forall above: nat :: above > after ==> FirstAt(sorted, above) == FirstAt(sorted[1..], above)
  {
    assert forall above: nat :: above > after ==> FirstAt(sorted, above) == FirstAt(sorted[1..], above);
  }

  /** A priced first tier that is reached is the highest, unless another is reached past it. */
  lemma NextHighest(price: CatalogPrice, sorted: seq<CatalogTier>, after: int, prompt: int)
    requires sorted != [] && after < sorted[0].above < prompt && Priced(price, sorted[0])
    requires forall above: int :: above < sorted[0].above ==> FirstAt(sorted, above).None?
    ensures ReachesUnpriced(price, sorted, after, prompt) <==> ReachesUnpriced(price, sorted, sorted[0].above, prompt)
    ensures !NoneReached(sorted, after, prompt)
    ensures forall above: nat :: HighestReached(sorted, above, after, prompt) <==>
              if above == sorted[0].above then NoneReached(sorted, above, prompt) else HighestReached(sorted, above, sorted[0].above, prompt)
  {
    assert FirstAt(sorted, sorted[0].above) == Some(sorted[0]);
  }

  lemma SkippedMeans(price: CatalogPrice, sorted: seq<CatalogTier>, after: int, prompt: int, current: Rates, billed: Option<Rates>)
    requires sorted != [] && sorted[0].above <= after
    requires Means(price, sorted[1..], after, prompt, current, billed)
    ensures Means(price, sorted, after, prompt, current, billed)
  {
    SameBeyond(price, sorted, after, prompt);
  }

  lemma NotYetMeans(price: CatalogPrice, sorted: seq<CatalogTier>, after: int, prompt: int, current: Rates)
    requires sorted == [] || (InOrder(sorted) && prompt <= sorted[0].above)
    ensures Means(price, sorted, after, prompt, current, Some(current))
  {
    forall above: int | above < prompt ensures FirstAt(sorted, above).None? {
      FirstAtPastStart(sorted, above);
    }
  }

  lemma UnpricedMeans(price: CatalogPrice, sorted: seq<CatalogTier>, after: int, prompt: int, current: Rates)
    requires sorted != [] && after < sorted[0].above < prompt && !Priced(price, sorted[0])
    ensures Means(price, sorted, after, prompt, current, None)
  {
    assert FirstAt(sorted, sorted[0].above) == Some(sorted[0]);
    assert ReachesUnpriced(price, sorted, after, prompt);
  }

  lemma PricedMeans(price: CatalogPrice, sorted: seq<CatalogTier>, after: int, prompt: int, current: Rates, billed: Option<Rates>)
    requires sorted != [] && InOrder(sorted) && after < sorted[0].above < prompt && Priced(price, sorted[0])
    requires Means(price, sorted[1..], sorted[0].above, prompt, TierRates(sorted[0]), billed)
    ensures Means(price, sorted, after, prompt, current, billed)
  {
    var first := sorted[0].above;
    forall above: int | above < first ensures FirstAt(sorted, above).None? {
      FirstAtPastStart(sorted, above);
    }
    SkippedMeans(price, sorted, first, prompt, TierRates(sorted[0]), billed);
    NextHighest(price, sorted, after, prompt);
  }

  lemma ByScanOfPriced(price: CatalogPrice, sorted: seq<CatalogTier>, last: Option<int>, prompt: int, current: Rates)
    requires sorted != [] && InOrder(sorted) && Priced(price, sorted[0])
    requires last.Some? ==> last.value >= 1 && forall i :: 0 <= i < |sorted| ==> last.value <= sorted[i].above + 1
    requires last != Some(sorted[0].above + 1)
    ensures var from := sorted[0].above + 1;
            ByScan(Scan(price, sorted, last), prompt, current) ==
            if from <= prompt then ByScan(Scan(price, sorted[1..], Some(from)), prompt, TierRates(sorted[0])) else Some(current)
  {
    var first := Tier(sorted[0].above + 1, TierRates(sorted[0]));
    var rest := Scan(price, sorted[1..], Some(first.from));
    ScanRecords(price, sorted, last);
    ScanRecords(price, sorted[1..], Some(first.from));
    assert Scan(price, sorted, last) == ([first] + rest.0, rest.1);
    LastReachedAfterFirst(first, rest.0, prompt);
  }

  lemma {:induction false} ScanMeans(price: CatalogPrice, sorted: seq<CatalogTier>, last: Option<int>, prompt: int, current: Rates)
    requires InOrder(sorted)
    requires last.Some? ==> last.value >= 1 && forall i :: 0 <= i < |sorted| ==> last.value <= sorted[i].above + 1
    ensures Means(price, sorted, After(last), prompt, current, ByScan(Scan(price, sorted, last), prompt, current))
  {
    if sorted == [] {
      NotYetMeans(price, sorted, After(last), prompt, current);
      return;
    }
    var from := sorted[0].above + 1;
    if last == Some(from) {
      ScanMeans(price, sorted[1..], last, prompt, current);
      SkippedMeans(price, sorted, After(last), prompt, current, ByScan(Scan(price, sorted, last), prompt, current));
    } else if Priced(price, sorted[0]) {
      ByScanOfPriced(price, sorted, last, prompt, current);
      if from <= prompt {
        ScanMeans(price, sorted[1..], Some(from), prompt, TierRates(sorted[0]));
        PricedMeans(price, sorted, After(last), prompt, current, ByScan(Scan(price, sorted, last), prompt, current));
      } else {
        NotYetMeans(price, sorted, After(last), prompt, current);
      }
    } else if from <= prompt {
      UnpricedMeans(price, sorted, After(last), prompt, current);
    } else {
      NotYetMeans(price, sorted, After(last), prompt, current);
    }
  }

  lemma BilledByScan(price: CatalogPrice, prompt: int)
    ensures Billed(RatesPricing(Listed(price)), prompt) == ByScan(Scan(price, Sorted(price.tiers), None), prompt, BaseRates(price))
  {
    RecordedTiersAscend(price);
  }

  /** For every catalog price, its tiers in any order and listed any number of times, and every
      prompt: nothing once the prompt reaches a size whose first listed tier lacks a needed cache
      price; else the rates of the first listed tier of the greatest size reached; else the base. */
  lemma TierPipelineMeaning(price: CatalogPrice, prompt: int)
    ensures Means(price, price.tiers, -1, prompt, BaseRates(price), Billed(RatesPricing(Listed(price)), prompt))
  {
    forall above: int ensures FirstAt(Sorted(price.tiers), above) == FirstAt(price.tiers, above) {
      SortIsStable(price.tiers, above);
    }
    SortIsStable(price.tiers, 0);
    BilledByScan(price, prompt);
    ScanMeans(price, Sorted(price.tiers), None, prompt, BaseRates(price));
  }

  /** Some size is the greatest reached as soon as any is: the three cases above are all there are. */
  lemma {:induction false} SomeHighestReached(tiers: seq<CatalogTier>, after: int, prompt: int)
    requires after >= -1
    ensures NoneReached(tiers, after, prompt) || exists above: nat :: HighestReached(tiers, above, after, prompt)
    decreases prompt - after
  {
    if !NoneReached(tiers, after, prompt) {
      var above: nat :| after < above < prompt && FirstAt(tiers, above).Some?;
      SomeHighestReached(tiers, above, prompt);
      if !NoneReached(tiers, above, prompt) {
        var higher: nat :| HighestReached(tiers, higher, above, prompt);
        assert HighestReached(tiers, higher, after, prompt);
      } else {
        assert HighestReached(tiers, above, after, prompt);
      }
    }
  }

  // ---- The same, told in the price list's own fields ----

  /** Tier `i` is the first listed of its size. */
  predicate FirstOfSize(tiers: seq<CatalogTier>, i: nat) {
    i < |tiers| && forall j :: 0 <= j < i ==> tiers[j].above != tiers[i].above
  }

  lemma {:induction false} FirstAtIs(tiers: seq<CatalogTier>, i: nat)
    requires FirstOfSize(tiers, i)
    ensures FirstAt(tiers, tiers[i].above) == Some(tiers[i])
  {
    if i > 0 {
      assert tiers[0].above != tiers[i].above;
      FirstAtIs(tiers[1..], i - 1);
    }
  }

  lemma {:induction false} FirstAtFrom(tiers: seq<CatalogTier>, above: int) returns (i: nat)
    requires FirstAt(tiers, above).Some?
    ensures FirstOfSize(tiers, i) && tiers[i].above == above
  {
    if tiers[0].above == above {
      i := 0;
    } else {
      i := FirstAtFrom(tiers[1..], above);
      i := i + 1;
    }
  }

  /** A tier that leaves out a cache price the base lists. */
  predicate LeavesOut(price: CatalogPrice, tier: CatalogTier) {
    (tier.cachedInput == None && price.cachedInput != None) || (tier.cacheWrite == None && price.cacheWrite != None)
  }

  /** The prompt is longer than the size of a tier, first listed of it, that leaves out such a price. */
  ghost predicate PastPricing(price: CatalogPrice, prompt: int) {
    exists i: nat :: FirstOfSize(price.tiers, i) && price.tiers[i].above < prompt && LeavesOut(price, price.tiers[i])
  }

  /** Tier `i`, first listed of its size, is the largest the prompt is longer than. */
  predicate LargestPassed(tiers: seq<CatalogTier>, i: nat, prompt: int) {
    && FirstOfSize(tiers, i) && tiers[i].above < prompt
    && forall j :: 0 <= j < |tiers| ==> tiers[j].above <= tiers[i].above || prompt <= tiers[j].above
  }

  /** The four rates, a missing cache price following the input price. */
  predicate AtPrices(rates: Rates, input: real, output: real, cachedInput: Option<real>, cacheWrite: Option<real>) {
    && rates.input == input && rates.output == output
    && rates.cacheRead == (if cachedInput == None then input else cachedInput.value)
    && rates.cacheWrite == (if cacheWrite == None then input else cacheWrite.value)
  }

  lemma PastPricingIs(price: CatalogPrice, prompt: int)
    ensures PastPricing(price, prompt) <==> ReachesUnpriced(price, price.tiers, -1, prompt)
  {
    if i: nat :| FirstOfSize(price.tiers, i) && price.tiers[i].above < prompt && LeavesOut(price, price.tiers[i]) {
      FirstAtIs(price.tiers, i);
    }
    if ReachesUnpriced(price, price.tiers, -1, prompt) {
      var above: nat :| -1 < above < prompt && FirstAt(price.tiers, above).Some? && !Priced(price, FirstAt(price.tiers, above).value);
      var i := FirstAtFrom(price.tiers, above);
      FirstAtIs(price.tiers, i);
      assert LeavesOut(price, price.tiers[i]);
    }
  }

  lemma LargestPassedIs(tiers: seq<CatalogTier>, i: nat, prompt: int)
    requires LargestPassed(tiers, i, prompt)
    ensures HighestReached(tiers, tiers[i].above, -1, prompt) && FirstAt(tiers, tiers[i].above) == Some(tiers[i])
  {
    FirstAtIs(tiers, i);
    forall above: nat | tiers[i].above < above < prompt
      ensures FirstAt(tiers, above).None?
    {
      if FirstAt(tiers, above).Some? {
        var j := FirstAtFrom(tiers, above);
      }
    }
  }

  lemma NonePassed(tiers: seq<CatalogTier>, prompt: int)
    requires forall i :: 0 <= i < |tiers| ==> prompt <= tiers[i].above
    ensures NoneReached(tiers, -1, prompt)
  {
    forall above: nat | -1 < above < prompt
      ensures FirstAt(tiers, above).None?
    {
      if FirstAt(tiers, above).Some? {
        var i := FirstAtFrom(tiers, above);
      }
    }
  }

  /** The whole pipeline in the price list's fields: nothing past pricing; else the prices of the
      first listed tier of the largest size the prompt is longer than; else the base prices. */
  lemma BilledAtListPrices(price: CatalogPrice, prompt: int)
    ensures var billed := Billed(RatesPricing(Listed(price)), prompt);
            && (PastPricing(price, prompt) <==> billed == None)
            && (billed.Some? && (forall i :: 0 <= i < |price.tiers| ==> prompt <= price.tiers[i].above) ==>
                  AtPrices(billed.value, price.input, price.output, price.cachedInput, price.cacheWrite))
            && forall i: nat :: billed.Some? && LargestPassed(price.tiers, i, prompt) ==>
                 var tier := price.tiers[i];
                 AtPrices(billed.value, tier.input, tier.output, tier.cachedInput, tier.cacheWrite)
  {
    var billed := Billed(RatesPricing(Listed(price)), prompt);
    TierPipelineMeaning(price, prompt);
    PastPricingIs(price, prompt);
    SomeHighestReached(price.tiers, -1, prompt);
    if forall i :: 0 <= i < |price.tiers| ==> prompt <= price.tiers[i].above {
      NonePassed(price.tiers, prompt);
    }
    forall i: nat | billed.Some? && LargestPassed(price.tiers, i, prompt)
      ensures AtPrices(billed.value, price.tiers[i].input, price.tiers[i].output, price.tiers[i].cachedInput, price.tiers[i].cacheWrite)
    {
      LargestPassedIs(price.tiers, i, prompt);
    }
  }

  lemma OneRequestAtBilled(pricing: ModelPricing, request: Request)
    ensures var billed := Billed(pricing, request.usage.Prompt());
            SumOfCosts(pricing, [request]) ==
            if billed.None? then None else Some(ReferenceCost(billed.value, request.usage, request.hour))
  {
    assert [request][..0] == [];
    assert SumOver(Price(pricing), []) == Some(0.0);
  }

  /** From a price list to money: a request of a million input tokens costs the input price of the
      largest size they pass, or the base's; or has no price. */
  lemma MillionInputTokensAtListPrice(price: CatalogPrice, i: nat)
    ensures var cost := SumOfCosts(RatesPricing(Listed(price)), [MillionOf(Input)]);
            && (PastPricing(price, MILLION) <==> cost == None)
            && (cost.Some? && LargestPassed(price.tiers, i, MILLION) ==> cost.value == price.tiers[i].input)
            && (cost.Some? && (forall k :: 0 <= k < |price.tiers| ==> MILLION <= price.tiers[k].above) ==> cost.value == price.input)
  {
    var pricing := RatesPricing(Listed(price));
    BilledAtListPrices(price, MILLION);
    OneRequestAtBilled(pricing, MillionOf(Input));
    if Billed(pricing, MILLION).Some? {
      BucketCosts(Billed(pricing, MILLION).value, Input);
    }
  }
}
