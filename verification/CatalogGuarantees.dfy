/**
 * The merge loses no listing and puts no two together: each listing of a gateway lands on an entry
 * of its own, whose route on that gateway is the listing's id at the end.
 */
module CatalogGuarantees {
  import opened Wrappers
  import opened GatewayIds
  import opened CatalogMerge

  /** One gateway's pass, from the state it starts in. */
  datatype Round = Round(nameKey: string -> string, g: Gateway, listed: seq<Listed>, start: State)

  function At(r: Round, k: nat): State
    requires r.start.Valid() && k <= |r.listed|
  {
    Pass(r.nameKey, r.g, r.listed, Routed(r.g, r.start), r.start, k)
  }

  /** The catalog id listing `j` lands on. */
  function Key(r: Round, j: nat): string
    requires r.start.Valid() && j < |r.listed|
  {
    Landing(r.nameKey, r.g, r.listed, Routed(r.g, r.start), At(r, j), r.listed[j])
  }

  function Own(r: Round, j: nat): string
    requires j < |r.listed|
  {
    CatalogModelId(r.g, r.listed[j].id)
  }

  /** The gateway lists none without an id. */
  predicate Identified(listed: seq<Listed>) {
    forall i :: 0 <= i < |listed| ==> listed[i].id != ""
  }

  /** Nor does it list a model twice, as the catalog spells it. */
  predicate Listable(g: Gateway, listed: seq<Listed>) {
    && Identified(listed)
    && forall i, j :: 0 <= i < j < |listed| ==> CatalogModelId(g, listed[i].id) != CatalogModelId(g, listed[j].id)
  }

  /** A route on `g` before `g` is merged is the one a curated model was given. */
  ghost predicate RoutesAsSpelled(g: Gateway, s: State) {
    forall k :: s.Knows(k) && g in s.Find(k).gateways ==> s.Find(k).gateways[g] == GatewayModelId(g, k)
  }

  /** `k` has a route on `g` that counts as one. */
  predicate HasRoute(s: State, g: Gateway, k: string) {
    s.Knows(k) && RouteOn(g, s.Find(k)).Some?
  }

  /** The same model, with the same routes on every gateway but `g`. */
  predicate SameBut(g: Gateway, a: Entry, b: Entry) {
    && b == a.(gateways := b.gateways)
    && b.gateways.Keys + {g} == a.gateways.Keys + {g}
    && forall h :: h in a.gateways && h != g ==> b.gateways[h] == a.gateways[h]
  }

  // ---- One listing ----

  /** What a listing merged under `key` as `id` leaves of the entry `x`. */
  predicate Stepped(g: Gateway, before: State, after: State, key: string, id: string, x: string) {
    && (after.Knows(x) <==> before.Knows(x) || x == key)
    && (x in after.merged.entries <==> x in before.merged.entries || x == key)
    && (before.Knows(x) && x != key ==> after.Find(x) == before.Find(x))
    && (before.Knows(x) ==> SameBut(g, before.Find(x), after.Find(x)))
    && (x == key ==> after.Find(x).gateways == (if before.Knows(x) then before.Find(x).gateways else map[])[g := id])
  }

  lemma OneMerged(nameKey: string -> string, g: Gateway, s: State, entry: Listed, id: string, x: string)
    requires s.Valid()
    ensures Stepped(g, s, Merged(nameKey, g, s, entry, id), id, entry.id, x)
  {
  }

  lemma OneStep(r: Round, k: nat, x: string)
    requires r.start.Valid() && k < |r.listed|
    ensures Stepped(r.g, At(r, k), At(r, k + 1), Key(r, k), r.listed[k].id, x)
  {
    OneMerged(r.nameKey, r.g, At(r, k), r.listed[k], Key(r, k), x);
  }

  // ---- Many listings ----

  /** The states of a pass, with the key and the gateway's id of each listing. */
  datatype Trace = Trace(g: Gateway, states: seq<State>, keys: seq<string>, ids: seq<string>) {
    predicate Sized() { |states| == |keys| + 1 && |ids| == |keys| }
  }

  predicate StepAt(t: Trace, k: nat, x: string)
    requires t.Sized() && k < |t.keys|
  {
    Stepped(t.g, t.states[k], t.states[k + 1], t.keys[k], t.ids[k], x)
  }

  ghost predicate IsTrace(t: Trace) {
    t.Sized() && forall k: nat, x :: k < |t.keys| ==> StepAt(t, k, x)
  }

  function TraceOf(r: Round): (t: Trace)
    requires r.start.Valid()
    ensures t.Sized() && |t.keys| == |r.listed| && t.g == r.g
    ensures forall k: nat :: k <= |r.listed| ==> t.states[k] == At(r, k)
    ensures forall k: nat :: k < |r.listed| ==> t.keys[k] == Key(r, k) && t.ids[k] == r.listed[k].id
  {
    Trace(r.g,
          seq(|r.listed| + 1, k requires 0 <= k <= |r.listed| => At(r, k)),
          seq(|r.listed|, k requires 0 <= k < |r.listed| => Key(r, k)),
          seq(|r.listed|, k requires 0 <= k < |r.listed| => r.listed[k].id))
  }

  lemma PassIsTrace(r: Round)
    requires r.start.Valid()
    ensures IsTrace(TraceOf(r))
  {
    var t := TraceOf(r);
    forall k: nat, x | k < |t.keys|
      ensures StepAt(t, k, x)
    {
      OneStep(r, k, x);
    }
  }

  /** Once a listing with an id has landed on `x`, or `x` had a route before, it has one. */
  lemma {:induction false} RouteStays(t: Trace, x: string, k: nat, m: nat)
    requires IsTrace(t) && "" !in t.ids && k <= m <= |t.keys|
    requires HasRoute(t.states[k], t.g, x)
    ensures HasRoute(t.states[m], t.g, x)
    decreases m - k
  {
    if k < m {
      assert StepAt(t, k, x);
      assert t.ids[k] in t.ids;
      RouteStays(t, x, k + 1, m);
    }
  }

  lemma LandedHasRoute(t: Trace, j: nat, m: nat)
    requires IsTrace(t) && "" !in t.ids && j < m <= |t.keys|
    ensures HasRoute(t.states[m], t.g, t.keys[j])
  {
    assert StepAt(t, j, t.keys[j]);
    assert t.ids[j] in t.ids;
    RouteStays(t, t.keys[j], j + 1, m);
  }

  predicate HoldsListing(s: State, g: Gateway, x: string, id: string) {
    && x in s.merged.entries
    && g in s.merged.entries[x].gateways
    && s.merged.entries[x].gateways[g] == id
  }

  /** A listing's entry is untouched by listings that land elsewhere. */
  lemma {:induction false} LandedStays(t: Trace, j: nat, m: nat)
    requires IsTrace(t) && j < m <= |t.keys|
    requires forall i :: j < i < m ==> t.keys[i] != t.keys[j]
    ensures HoldsListing(t.states[m], t.g, t.keys[j], t.ids[j])
    decreases m
  {
    assert StepAt(t, m - 1, t.keys[j]);
    if j < m - 1 {
      LandedStays(t, j, m - 1);
    }
  }

  /** What is known stays known; an entry no listing landed on is as it was; others differ only in `g`'s route. */
  predicate TraceLeaves(t: Trace, x: string, k: nat)
    requires t.Sized() && k <= |t.keys|
  {
    var s, after := t.states[0], t.states[k];
    && (after.Knows(x) <==> s.Knows(x) || x in t.keys[..k])
    && (x in after.merged.entries <==> x in s.merged.entries || x in t.keys[..k])
    && (s.Knows(x) ==> SameBut(t.g, s.Find(x), after.Find(x)))
    && (s.Knows(x) && x !in t.keys[..k] ==> after.Find(x) == s.Find(x))
    && (after.Knows(x) && !s.Knows(x) ==> after.Find(x).gateways.Keys == {t.g})
  }

  lemma {:induction false} TraceKeeps(t: Trace, x: string, k: nat)
    requires IsTrace(t) && k <= |t.keys|
    ensures TraceLeaves(t, x, k)
  {
    if k > 0 {
      TraceKeeps(t, x, k - 1);
      assert StepAt(t, k - 1, x);
      assert t.keys[..k] == t.keys[..k - 1] + [t.keys[k - 1]];
    }
  }

  // ---- Why a listing landed where it did ----

  /** It landed on the model whose route on the gateway was its id to begin with. */
  predicate Claimed(r: Round, j: nat)
    requires r.start.Valid() && j < |r.listed|
  {
    && r.start.Knows(Key(r, j))
    && RouteOn(r.g, r.start.Find(Key(r, j))) == Some(r.listed[j].id)
  }

  function Twins(r: Round, j: nat): seq<string>
    requires r.start.Valid() && j < |r.listed|
  {
    Awaiting(r.g, Exact(r.g, r.listed), At(r, j), r.listed[j], NamedAs(At(r, j), r.nameKey(r.listed[j].title)))
  }

  /** Its vendor's name is listed once, and one known model of that name and vendor awaits a route. */
  predicate HasTwin(r: Round, j: nat)
    requires r.start.Valid() && j < |r.listed|
  {
    && TimesListed(r.nameKey, r.g, r.listed, VendorName(r.nameKey, r.g, r.listed[j])) == 1
    && |Twins(r, j)| == 1 && Twins(r, j)[0] != ""
  }

  /** It landed on that one, which no listing names by id and which had no route. */
  predicate Paired(r: Round, j: nat)
    requires r.start.Valid() && j < |r.listed|
  {
    && HasTwin(r, j) && Twins(r, j) == [Key(r, j)]
    && Key(r, j) !in Exact(r.g, r.listed) && !HasRoute(At(r, j), r.g, Key(r, j))
  }

  /** Its id is a known model's route. */
  predicate HasClaim(r: Round, j: nat)
    requires r.start.Valid() && j < |r.listed|
  {
    r.listed[j].id in Routed(r.g, r.start) && Routed(r.g, r.start)[r.listed[j].id] != ""
  }

  /** Its catalog id is known by then, or neither another model's route nor its name says otherwise. */
  predicate TakesOwnId(r: Round, j: nat)
    requires r.start.Valid() && j < |r.listed|
  {
    At(r, j).Knows(Own(r, j)) || (!HasClaim(r, j) && !HasTwin(r, j))
  }

  lemma RoutedHolds(g: Gateway, s: State, route: string)
    requires s.Valid() && route in Routed(g, s)
    ensures s.Knows(Routed(g, s)[route])
    ensures RouteOn(g, s.Find(Routed(g, s)[route])) == Some(route)
  {
    var key := Routed(g, s)[route];
    if route in RoutedIn(g, s.merged, s.merged.order) {
      assert key in s.merged.entries;
    } else {
      assert key in s.curated.entries && key !in s.merged.entries;
    }
  }

  lemma TwinAwaits(r: Round, j: nat)
    requires r.start.Valid() && j < |r.listed| && HasTwin(r, j)
    ensures Twins(r, j)[0] !in Exact(r.g, r.listed) && !HasRoute(At(r, j), r.g, Twins(r, j)[0])
  {
    assert Twins(r, j)[0] in Twins(r, j);
  }

  lemma OwnIsListed(r: Round, j: nat)
    requires j < |r.listed|
    ensures Own(r, j) in Exact(r.g, r.listed)
  {
    assert r.listed[j] in r.listed;
  }

  lemma ClaimedLanding(r: Round, j: nat)
    requires r.start.Valid() && j < |r.listed| && !At(r, j).Knows(Own(r, j)) && HasClaim(r, j)
    ensures Claimed(r, j) && Key(r, j) != Own(r, j)
  {
    RoutedHolds(r.g, r.start, r.listed[j].id);
    PassIsTrace(r);
    KnownStays(TraceOf(r), Key(r, j), 0, j);
  }

  /** Where a listing lands and why: exactly one of the three cases, by what is known before it. */
  lemma WhyItLanded(r: Round, j: nat)
    requires r.start.Valid() && j < |r.listed|
    ensures Key(r, j) == Own(r, j) <==> TakesOwnId(r, j)
    ensures !TakesOwnId(r, j) && HasClaim(r, j) ==> Claimed(r, j)
    ensures !TakesOwnId(r, j) && !HasClaim(r, j) ==> Paired(r, j)
  {
    if !At(r, j).Knows(Own(r, j)) {
      if HasClaim(r, j) {
        ClaimedLanding(r, j);
      } else if HasTwin(r, j) {
        TwinAwaits(r, j);
        OwnIsListed(r, j);
        assert Twins(r, j) == [Twins(r, j)[0]];
      }
    }
  }

  // ---- No two listings of a gateway land together ----

  lemma ClaimedIsOwn(r: Round, i: nat, j: nat)
    requires r.start.Valid() && RoutesAsSpelled(r.g, r.start) && i < |r.listed| && j < |r.listed|
    requires Claimed(r, j) && Key(r, j) == Own(r, i)
    ensures Own(r, i) == Own(r, j)
  {
    CatalogSpellingSettles(r.g, r.listed[i].id);
  }

  /** A listing paired by name never lands where an earlier one did: that entry has a route. */
  lemma PairedApart(r: Round, i: nat, j: nat)
    requires r.start.Valid() && Identified(r.listed) && j < i < |r.listed|
    ensures Paired(r, i) ==> Key(r, i) != Key(r, j)
  {
    PassIsTrace(r);
    LandedHasRoute(TraceOf(r), j, i);
  }

  /** Nor does one claimed by its route land where an earlier one was paired: there was a route. */
  lemma ClaimedApart(r: Round, i: nat, j: nat)
    requires r.start.Valid() && Identified(r.listed) && j < i < |r.listed|
    ensures Claimed(r, i) && Paired(r, j) ==> Key(r, i) != Key(r, j)
  {
    if Claimed(r, i) {
      PassIsTrace(r);
      assert HasRoute(r.start, r.g, Key(r, i));
      RouteStays(TraceOf(r), Key(r, i), 0, j);
    }
  }

  /** Listings of different catalog ids land on different entries. */
  lemma LandApart(r: Round, i: nat, j: nat)
    requires r.start.Valid() && Identified(r.listed) && RoutesAsSpelled(r.g, r.start)
    requires j < i < |r.listed| && Own(r, i) != Own(r, j)
    ensures Key(r, i) != Key(r, j)
  {
    WhyItLanded(r, i);
    WhyItLanded(r, j);
    PairedApart(r, i, j);
    ClaimedApart(r, i, j);
    OwnIsListed(r, i);
    OwnIsListed(r, j);
    if Key(r, i) == Key(r, j) {
      if Claimed(r, j) && Key(r, i) == Own(r, i) {
        ClaimedIsOwn(r, i, j);
      } else if Claimed(r, i) && Key(r, j) == Own(r, j) {
        ClaimedIsOwn(r, j, i);
      }
    }
  }

  lemma {:induction false} KnownStays(t: Trace, x: string, k: nat, m: nat)
    requires IsTrace(t) && k <= m <= |t.keys| && t.states[k].Knows(x)
    ensures t.states[m].Knows(x)
    decreases m - k
  {
    if k < m {
      assert StepAt(t, k, x);
      KnownStays(t, x, k + 1, m);
    }
  }

  /** Two listings of one catalog id, when the first did not take that id. */
  lemma ClaimedTogether(r: Round, i: nat, j: nat)
    requires r.start.Valid() && Identified(r.listed) && i < j < |r.listed|
    requires Own(r, i) == Own(r, j) && !TakesOwnId(r, i)
    ensures Key(r, i) == Key(r, j) <==>
            HasClaim(r, i) && r.listed[i].id == r.listed[j].id && !At(r, j).Knows(Own(r, j))
  {
    WhyItLanded(r, i);
    WhyItLanded(r, j);
    PairedApart(r, j, i);
    ClaimedApart(r, j, i);
  }

  /** Two listings land together exactly when they are of one catalog id, and the first took it or
      both are the one route of a known model and nothing took the id before the second. */
  lemma TogetherExactlyWhen(r: Round, i: nat, j: nat)
    requires r.start.Valid() && Identified(r.listed) && RoutesAsSpelled(r.g, r.start)
    requires i < j < |r.listed|
    ensures Key(r, i) == Key(r, j) <==> MeetAgain(r, i, j)
  {
    if Own(r, i) != Own(r, j) {
      LandApart(r, j, i);
    } else if TakesOwnId(r, i) {
      WhyItLanded(r, i);
      LandedIsKnown(r, i, j);
    } else {
      ClaimedTogether(r, i, j);
    }
  }

  predicate MeetAgain(r: Round, i: nat, j: nat)
    requires r.start.Valid() && i < |r.listed| && j < |r.listed|
  {
    && Own(r, i) == Own(r, j)
    && (TakesOwnId(r, i)
        || (HasClaim(r, i) && r.listed[i].id == r.listed[j].id && !At(r, j).Knows(Own(r, j))))
  }

  predicate MeetsNone(r: Round, j: nat)
    requires r.start.Valid() && j < |r.listed|
  {
    && (forall i: nat :: i < j ==> !MeetAgain(r, i, j))
    && (forall i: nat :: j < i < |r.listed| ==> !MeetAgain(r, j, i))
  }

  lemma AloneExactlyWhen(r: Round, j: nat)
    requires r.start.Valid() && Identified(r.listed) && RoutesAsSpelled(r.g, r.start) && j < |r.listed|
    ensures (forall i: nat :: i < |r.listed| && i != j ==> Key(r, i) != Key(r, j)) <==> MeetsNone(r, j)
  {
    forall i: nat | i < j
      ensures Key(r, i) == Key(r, j) <==> MeetAgain(r, i, j)
    {
      TogetherExactlyWhen(r, i, j);
    }
    forall i: nat | j < i < |r.listed|
      ensures Key(r, i) == Key(r, j) <==> MeetAgain(r, j, i)
    {
      TogetherExactlyWhen(r, j, i);
    }
  }

  lemma LandedIsKnown(r: Round, i: nat, j: nat)
    requires r.start.Valid() && i < j < |r.listed|
    ensures At(r, j).Knows(Key(r, i))
  {
    PassIsTrace(r);
    LandedIsKnownAfter(TraceOf(r), i, j);
  }

  lemma LandedIsKnownAfter(t: Trace, i: nat, j: nat)
    requires IsTrace(t) && i < j <= |t.keys|
    ensures t.states[j].Knows(t.keys[i])
  {
    assert StepAt(t, i, t.keys[i]);
    KnownStays(t, t.keys[i], i + 1, j);
  }

  // ---- What a pass leaves ----

  /** Listing `j`'s entry holds its route when the pass ends. */
  lemma ListingKeepsItsEntry(r: Round, j: nat)
    requires r.start.Valid() && j < |r.listed|
    requires forall i: nat :: i < |r.listed| && i != j ==> Key(r, i) != Key(r, j)
    ensures HoldsListing(At(r, |r.listed|), r.g, Key(r, j), r.listed[j].id)
  {
    PassIsTrace(r);
    LandedStays(TraceOf(r), j, |r.listed|);
  }

  predicate LandedOn(r: Round, x: string)
    requires r.start.Valid()
  {
    x in TraceOf(r).keys
  }

  /** What is known stays known; an entry no listing landed on is as it was; others differ only in `g`'s route. */
  predicate PassLeaves(r: Round, x: string, after: State)
    requires r.start.Valid()
  {
    && (after.Knows(x) <==> r.start.Knows(x) || LandedOn(r, x))
    && (r.start.Knows(x) ==> SameBut(r.g, r.start.Find(x), after.Find(x)))
    && (r.start.Knows(x) && !LandedOn(r, x) ==> after.Find(x) == r.start.Find(x))
    && (after.Knows(x) && !r.start.Knows(x) ==> after.Find(x).gateways.Keys == {r.g})
  }

  lemma PassKeeps(r: Round, x: string)
    requires r.start.Valid()
    ensures PassLeaves(r, x, At(r, |r.listed|))
  {
    var t := TraceOf(r);
    PassIsTrace(r);
    TraceKeeps(t, x, |r.listed|);
  }

  // ---- The whole merge ----

  predicate ListableAll(listings: map<Gateway, Listing>)
    requires listings.Keys == {OpenRouter, Vercel}
  {
    Listable(OpenRouter, listings[OpenRouter].models) && Listable(Vercel, listings[Vercel].models)
  }

  lemma {:induction false} CuratedRoutesAsSpelled(listings: map<Gateway, Listing>, catalog: seq<Curated>, g: Gateway, k: string)
    requires listings.Keys == {OpenRouter, Vercel}
    ensures var table := CuratedTable(listings, catalog);
            k in table.entries && g in table.entries[k].gateways ==> table.entries[k].gateways[g] == GatewayModelId(g, k)
  {
    if catalog != [] {
      CuratedRoutesAsSpelled(listings, catalog[..|catalog| - 1], g, k);
    }
  }

  /** The merge's state when the pass of gateway `n` starts. */
  function Upto(nameKey: string -> string, listings: map<Gateway, Listing>, catalog: seq<Curated>, n: nat): (s: State)
    requires listings.Keys == {OpenRouter, Vercel} && n <= |GATEWAYS|
    ensures s.Valid()
  {
    InitialValid(nameKey, listings, catalog);
    MergedUpTo(nameKey, listings, Initial(nameKey, listings, catalog), n)
  }

  function RoundOf(nameKey: string -> string, listings: map<Gateway, Listing>, catalog: seq<Curated>, n: nat): (r: Round)
    requires listings.Keys == {OpenRouter, Vercel} && n < |GATEWAYS|
    ensures r.start.Valid()
  {
    Round(nameKey, GATEWAYS[n], listings[GATEWAYS[n]].models, Upto(nameKey, listings, catalog, n))
  }

  lemma GatewayLeaves(nameKey: string -> string, listings: map<Gateway, Listing>, catalog: seq<Curated>, n: nat, k: string)
    requires listings.Keys == {OpenRouter, Vercel} && n < |GATEWAYS|
    ensures PassLeaves(RoundOf(nameKey, listings, catalog, n), k, Upto(nameKey, listings, catalog, n + 1))
  {
    PassKeeps(RoundOf(nameKey, listings, catalog, n), k);
  }

  lemma RouteAsSpelled(nameKey: string -> string, listings: map<Gateway, Listing>, catalog: seq<Curated>, n: nat, k: string)
    requires listings.Keys == {OpenRouter, Vercel} && n < |GATEWAYS|
    ensures var s := Upto(nameKey, listings, catalog, n);
            s.Knows(k) && GATEWAYS[n] in s.Find(k).gateways ==> s.Find(k).gateways[GATEWAYS[n]] == GatewayModelId(GATEWAYS[n], k)
  {
    CuratedRoutesAsSpelled(listings, catalog, GATEWAYS[n], k);
    if n == 1 {
      GatewayLeaves(nameKey, listings, catalog, 0, k);
    }
  }

  lemma StartsAsSpelled(nameKey: string -> string, listings: map<Gateway, Listing>, catalog: seq<Curated>, n: nat)
    requires listings.Keys == {OpenRouter, Vercel} && n < |GATEWAYS|
    ensures RoutesAsSpelled(GATEWAYS[n], Upto(nameKey, listings, catalog, n))
  {
    forall k
      ensures var s := Upto(nameKey, listings, catalog, n);
              s.Knows(k) && GATEWAYS[n] in s.Find(k).gateways ==> s.Find(k).gateways[GATEWAYS[n]] == GatewayModelId(GATEWAYS[n], k)
    {
      RouteAsSpelled(nameKey, listings, catalog, n, k);
    }
  }

  predicate SameRoute(g: Gateway, a: Entry, b: Entry) {
    && (g in b.gateways <==> g in a.gateways)
    && (g in a.gateways ==> b.gateways[g] == a.gateways[g])
  }

  /** The same model, with the same routes on the first `n` gateways. */
  predicate SameOn(n: nat, a: Entry, b: Entry)
    requires n <= |GATEWAYS|
  {
    b == a.(gateways := b.gateways) && forall i :: 0 <= i < n ==> SameRoute(GATEWAYS[i], a, b)
  }

  lemma SameOnEarlier(n: nat, a: Entry, b: Entry, c: Entry)
    requires n < |GATEWAYS| && SameBut(GATEWAYS[n], a, b) && SameOn(n + 1, b, c)
    ensures SameOn(n, a, c)
  {
    forall i | 0 <= i < n
      ensures SameRoute(GATEWAYS[i], a, c)
    {
      assert SameRoute(GATEWAYS[i], b, c);
      assert GATEWAYS[i] in b.gateways <==> GATEWAYS[i] in b.gateways.Keys + {GATEWAYS[n]};
    }
  }

  /** What later gateways leave of an entry: the model it is and its routes on gateways before them. */
  lemma {:induction false} EarlierRoutesSurvive(nameKey: string -> string, listings: map<Gateway, Listing>, catalog: seq<Curated>, n: nat, k: string)
    requires listings.Keys == {OpenRouter, Vercel} && n <= |GATEWAYS|
    requires Upto(nameKey, listings, catalog, n).Knows(k)
    ensures var final := Upto(nameKey, listings, catalog, |GATEWAYS|);
            final.Knows(k) && SameOn(n, Upto(nameKey, listings, catalog, n).Find(k), final.Find(k))
    decreases |GATEWAYS| - n
  {
    if n < |GATEWAYS| {
      GatewayLeaves(nameKey, listings, catalog, n, k);
      EarlierRoutesSurvive(nameKey, listings, catalog, n + 1, k);
      SameOnEarlier(n, Upto(nameKey, listings, catalog, n).Find(k), Upto(nameKey, listings, catalog, n + 1).Find(k),
                    Upto(nameKey, listings, catalog, |GATEWAYS|).Find(k));
    }
  }

  /** The entry's route on the gateway is `id`. */
  predicate RoutedAs(s: State, g: Gateway, k: string, id: string) {
    s.Knows(k) && g in s.Find(k).gateways && s.Find(k).gateways[g] == id
  }

  lemma AloneKeepsRoute(r: Round, j: nat)
    requires r.start.Valid() && Identified(r.listed) && RoutesAsSpelled(r.g, r.start) && j < |r.listed| && MeetsNone(r, j)
    ensures RoutedAs(At(r, |r.listed|), r.g, Key(r, j), r.listed[j].id)
  {
    AloneExactlyWhen(r, j);
    ListingKeepsItsEntry(r, j);
  }

  lemma RouteStaysToTheEnd(nameKey: string -> string, listings: map<Gateway, Listing>, catalog: seq<Curated>, n: nat, k: string, id: string)
    requires listings.Keys == {OpenRouter, Vercel} && n < |GATEWAYS|
    requires RoutedAs(Upto(nameKey, listings, catalog, n + 1), GATEWAYS[n], k, id)
    ensures RoutedAs(Final(nameKey, listings, catalog), GATEWAYS[n], k, id)
  {
    EarlierRoutesSurvive(nameKey, listings, catalog, n + 1, k);
    assert SameRoute(GATEWAYS[n], Upto(nameKey, listings, catalog, n + 1).Find(k), Upto(nameKey, listings, catalog, |GATEWAYS|).Find(k));
  }

  lemma ListableMeetsNone(r: Round, j: nat)
    requires r.start.Valid() && Listable(r.g, r.listed) && j < |r.listed|
    ensures MeetsNone(r, j)
  {
  }

  /**
   * A listing has an entry to itself among its gateway's listings exactly when it meets none of
   * them, and then that entry's route on the gateway is the listing's id at the end. Where no
   * gateway lists one catalog id twice, none meets another.
   */
  lemma NoListingIsLost(nameKey: string -> string, listings: map<Gateway, Listing>, catalog: seq<Curated>, n: nat, j: nat)
    requires listings.Keys == {OpenRouter, Vercel} && n < |GATEWAYS| && Identified(listings[GATEWAYS[n]].models)
    requires j < |listings[GATEWAYS[n]].models|
    ensures var r := RoundOf(nameKey, listings, catalog, n);
            && ((forall i: nat :: i < |r.listed| && i != j ==> Key(r, i) != Key(r, j)) <==> MeetsNone(r, j))
            && (MeetsNone(r, j) ==> RoutedAs(Final(nameKey, listings, catalog), GATEWAYS[n], Key(r, j), r.listed[j].id))
            && (Listable(r.g, r.listed) ==> MeetsNone(r, j))
  {
    var r := RoundOf(nameKey, listings, catalog, n);
    StartsAsSpelled(nameKey, listings, catalog, n);
    AloneExactlyWhen(r, j);
    if MeetsNone(r, j) {
      AloneKeepsRoute(r, j);
      RouteStaysToTheEnd(nameKey, listings, catalog, n, Key(r, j), r.listed[j].id);
    }
    if Listable(r.g, r.listed) {
      ListableMeetsNone(r, j);
    }
  }

  // ---- One listing lost, and one kept ----

  /** Vercel lists one model under both its spellings of a vendor, and nothing else is listed. */
  function TwoSpellings(): map<Gateway, Listing> {
    map[OpenRouter := Listing([], {}), Vercel := Listing([Listed("meta" + "/x", "X"), Listed("meta-llama" + "/x", "X")], {})]
  }

  lemma StartOf(nameKey: string -> string, listings: map<Gateway, Listing>, catalog: seq<Curated>)
    requires listings.Keys == {OpenRouter, Vercel} && listings[OpenRouter].models == []
    ensures RoundOf(nameKey, listings, catalog, 1).start == Initial(nameKey, listings, catalog)
  {
    var s := Initial(nameKey, listings, catalog);
    InitialValid(nameKey, listings, catalog);
    assert MergedUpTo(nameKey, listings, s, 1 - 1) == s;
    assert GATEWAYS[1 - 1] == OpenRouter;
  }

  /** With no curated model both land on one entry, and the first one's route is gone. */
  lemma RepeatedIdIsLost(nameKey: string -> string)
    ensures var r := RoundOf(nameKey, TwoSpellings(), [], 1);
            Key(r, 0) == Key(r, 1) && HoldsListing(At(r, 2), Vercel, Key(r, 0), r.listed[1].id)
  {
    var r := RoundOf(nameKey, TwoSpellings(), [], 1);
    StartOf(nameKey, TwoSpellings(), []);
    MetaIsMetaLlama("/x");
    WhyItLanded(r, 0);
    assert At(r, 0) == r.start == State(EMPTY, EMPTY, map[]);
    assert TakesOwnId(r, 0);
    LandedIsKnown(r, 0, 1);
    PassIsTrace(r);
    LandedStays(TraceOf(r), 1, 2);
  }

  /** A curated model that Vercel calls by the first spelling. */
  function Muse(): Curated {
    Curated("meta" + "/x", Entry("muse", "", "", "X", map[]))
  }

  function MuseRound(nameKey: string -> string): (r: Round)
    ensures r.start.Valid() && |r.listed| == 2
  {
    RoundOf(nameKey, TwoSpellings(), [Muse()], 1)
  }

  lemma MuseTable()
    ensures CuratedTable(TwoSpellings(), [Muse()]) == Table([Muse().openRouter], map[Muse().openRouter := Served(TwoSpellings(), Muse())])
  {
    assert [Muse()][..0] == [];
  }

  lemma MuseRoute()
    ensures RouteOn(Vercel, Served(TwoSpellings(), Muse())) == Some(Muse().openRouter)
  {
    MetaIsMetaLlama("/x");
  }

  lemma OneRouted(g: Gateway, s: State, id: string, entry: Entry)
    requires s.curated == Table([id], map[id := entry]) && s.merged == EMPTY && RouteOn(g, entry) == Some(id)
    ensures s.Valid() && Routed(g, s) == map[id := id]
    ensures forall k :: s.Knows(k) <==> k == id
  {
    assert [id][..0] == [];
  }

  lemma MuseIsRouted(nameKey: string -> string)
    ensures var r := MuseRound(nameKey);
            && (forall k :: r.start.Knows(k) <==> k == Muse().openRouter)
            && Routed(Vercel, r.start) == map[Muse().openRouter := Muse().openRouter]
  {
    StartOf(nameKey, TwoSpellings(), [Muse()]);
    MuseTable();
    MuseRoute();
    OneRouted(Vercel, MuseRound(nameKey).start, Muse().openRouter, Served(TwoSpellings(), Muse()));
  }

  lemma NamedTwice(nameKey: string -> string, g: Gateway, listed: seq<Listed>)
    requires |listed| == 2 && VendorName(nameKey, g, listed[0]) == VendorName(nameKey, g, listed[1])
    ensures TimesListed(nameKey, g, listed, VendorName(nameKey, g, listed[1])) == 2
  {
    assert listed[..1][..0] == [];
    assert TimesListed(nameKey, g, listed[..1], VendorName(nameKey, g, listed[1])) == 1;
  }

  lemma FirstIsMuse(r: Round, id: string)
    requires r.start.Valid() && |r.listed| == 2 && Own(r, 0) == Own(r, 1) == r.listed[1].id
    requires r.listed[0].id == id != "" && r.listed[1].id != id && r.listed[0].title == r.listed[1].title
    requires (forall k :: r.start.Knows(k) <==> k == id) && Routed(r.g, r.start) == map[id := id]
    ensures Key(r, 0) == id && Key(r, 1) == r.listed[1].id
  {
    assert At(r, 0) == r.start;
    assert Key(r, 0) == id;
    OneStep(r, 0, Own(r, 1));
    NamedTwice(r.nameKey, r.g, r.listed);
    WhyItLanded(r, 1);
  }

  lemma SpellingsDiffer()
    ensures "meta" + "/x" != "meta-llama" + "/x"
  {
    assert ("meta" + "/x")[4] == '/' && ("meta-llama" + "/x")[4] == '-';
  }

  /** With that model each has an entry to itself, though their catalog ids are one. */
  lemma RepeatedIdIsKept(nameKey: string -> string)
    ensures var r := MuseRound(nameKey);
            Own(r, 0) == Own(r, 1) && Key(r, 0) == r.listed[0].id && Key(r, 1) == r.listed[1].id
  {
    MetaIsMetaLlama("/x");
    MuseIsRouted(nameKey);
    SpellingsDiffer();
    FirstIsMuse(MuseRound(nameKey), Muse().openRouter);
  }

  /** A route on `g` that no listing gave is one the entry had from the start. */
  predicate RouteHasSource(g: Gateway, r: Round, start: State, final: State, k: string)
    requires r.start.Valid()
  {
    final.Knows(k) && g in final.Find(k).gateways ==>
      || LandedOn(r, k)
      || (start.Knows(k) && g in start.Find(k).gateways && final.Find(k).gateways[g] == start.Find(k).gateways[g])
  }

  /** A route at the end is that of a listing that landed there, or one a curated model started with. */
  lemma RoutesComeFromListings(nameKey: string -> string, listings: map<Gateway, Listing>, catalog: seq<Curated>, n: nat, k: string)
    requires listings.Keys == {OpenRouter, Vercel} && n < |GATEWAYS|
    ensures RouteHasSource(GATEWAYS[n], RoundOf(nameKey, listings, catalog, n), Upto(nameKey, listings, catalog, 0),
                           Final(nameKey, listings, catalog), k)
  {
    var first, second := RoundOf(nameKey, listings, catalog, 0), RoundOf(nameKey, listings, catalog, 1);
    var final := Upto(nameKey, listings, catalog, 2);
    assert PassLeaves(first, k, second.start) by { GatewayLeaves(nameKey, listings, catalog, 0, k); }
    assert PassLeaves(second, k, final) by { GatewayLeaves(nameKey, listings, catalog, 1, k); }
  }

  /** Every curated model is in the catalog once, as the model it is. */
  lemma CuratedModelsStay(nameKey: string -> string, listings: map<Gateway, Listing>, catalog: seq<Curated>, k: string)
    requires listings.Keys == {OpenRouter, Vercel} && k in CuratedTable(listings, catalog).entries
    ensures var final, entry := Final(nameKey, listings, catalog), CuratedTable(listings, catalog).entries[k];
            && (k in final.merged.entries) != (k in final.curated.entries)
            && final.Find(k) == entry.(gateways := final.Find(k).gateways)
  {
    EarlierRoutesSurvive(nameKey, listings, catalog, 0, k);
  }

  // ---- The order of the catalog ----

  /** The keys of a pass that were not merged before it, in listing order. */
  function NewKeys(t: Trace, k: nat): seq<string>
    requires t.Sized() && k <= |t.keys|
  {
    if k == 0 then []
    else NewKeys(t, k - 1) + if t.keys[k - 1] in t.states[0].merged.entries then [] else [t.keys[k - 1]]
  }

  predicate OrderSteps(t: Trace, k: nat)
    requires t.Sized() && k < |t.keys|
  {
    t.states[k + 1].merged.order
    == t.states[k].merged.order + if t.keys[k] in t.states[k].merged.entries then [] else [t.keys[k]]
  }

  lemma {:induction false} OrderOfTrace(t: Trace, k: nat)
    requires IsTrace(t) && Distinct(t.keys) && k <= |t.keys|
    requires forall i: nat :: i < |t.keys| ==> OrderSteps(t, i)
    ensures t.states[k].merged.order == t.states[0].merged.order + NewKeys(t, k)
  {
    if k > 0 {
      OrderOfTrace(t, k - 1);
      TraceKeeps(t, t.keys[k - 1], k - 1);
      assert OrderSteps(t, k - 1);
    }
  }

  lemma OrderOfRound(r: Round)
    requires r.start.Valid() && Listable(r.g, r.listed) && RoutesAsSpelled(r.g, r.start)
    ensures At(r, |r.listed|).merged.order == r.start.merged.order + NewKeys(TraceOf(r), |r.listed|)
  {
    var t := TraceOf(r);
    PassIsTrace(r);
    forall i, j | 0 <= i < j < |t.keys|
      ensures t.keys[i] != t.keys[j]
    {
      LandApart(r, j, i);
    }
    forall i: nat | i < |t.keys|
      ensures OrderSteps(t, i)
    {
    }
    OrderOfTrace(t, |r.listed|);
    assert t.states[0] == r.start;
  }

  /** Each gateway's models follow those of the gateways before it, in the order it lists them. */
  lemma OrderFollowsListings(nameKey: string -> string, listings: map<Gateway, Listing>, catalog: seq<Curated>, n: nat)
    requires listings.Keys == {OpenRouter, Vercel} && ListableAll(listings) && n < |GATEWAYS|
    ensures var r := RoundOf(nameKey, listings, catalog, n);
            Upto(nameKey, listings, catalog, n + 1).merged.order
            == r.start.merged.order + NewKeys(TraceOf(r), |r.listed|)
  {
    var r := RoundOf(nameKey, listings, catalog, n);
    StartsAsSpelled(nameKey, listings, catalog, n);
    OrderOfRound(r);
  }
}
