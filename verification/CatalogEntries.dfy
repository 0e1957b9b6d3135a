/**
 * What the catalog's entries are: a new one is the gateway's listing it was made of, a curated one is
 * itself with the routes its gateways serve, and a listing lands where the models' own ids, routes,
 * names and vendors say.
 */
module CatalogEntries {
  import opened Wrappers
  import opened GatewayIds
  import opened CatalogMerge
  import opened CatalogGuarantees

  // ---- New entries ----

  predicate SameModel(a: Entry, b: Entry) {
    a.id == b.id && a.provider == b.provider && a.model == b.model && a.title == b.title
  }

  /** The entry made of a listing `m` of gateway `g`, under `id`. */
  predicate MadeOf(entry: Entry, id: string, g: Gateway, m: Listed) {
    && entry.id == id && entry.model == m.id && entry.title == m.title
    && entry.provider == if g == OpenRouter then "openrouter" else "vercel-ai-gateway"
  }

  lemma ListingMakesEntry(r: Round, j: nat)
    requires r.start.Valid() && j < |r.listed| && !At(r, j).Knows(Key(r, j))
    ensures At(r, j + 1).Knows(Key(r, j)) && MadeOf(At(r, j + 1).Find(Key(r, j)), Key(r, j), r.g, r.listed[j])
  {
  }

  lemma {:induction false} ModelStays(t: Trace, x: string, k: nat, m: nat)
    requires IsTrace(t) && k <= m <= |t.keys| && t.states[k].Knows(x)
    ensures t.states[m].Knows(x) && SameModel(t.states[k].Find(x), t.states[m].Find(x))
    decreases m - k
  {
    if k < m {
      assert StepAt(t, k, x);
      ModelStays(t, x, k + 1, m);
    }
  }

  lemma RoundKeepsNew(r: Round, j: nat)
    requires r.start.Valid() && j < |r.listed| && !At(r, j).Knows(Key(r, j))
    ensures At(r, |r.listed|).Knows(Key(r, j)) && MadeOf(At(r, |r.listed|).Find(Key(r, j)), Key(r, j), r.g, r.listed[j])
  {
    ListingMakesEntry(r, j);
    PassIsTrace(r);
    ModelStays(TraceOf(r), Key(r, j), j + 1, |r.listed|);
  }

  /** What a pass made is in the final catalog, whatever later gateways add to it. */
  lemma MadeStays(nameKey: string -> string, listings: map<Gateway, Listing>, catalog: seq<Curated>, n: nat, k: string, m: Listed)
    requires listings.Keys == {OpenRouter, Vercel} && n < |GATEWAYS| && Upto(nameKey, listings, catalog, n + 1).Knows(k)
    requires MadeOf(Upto(nameKey, listings, catalog, n + 1).Find(k), k, GATEWAYS[n], m)
    ensures Final(nameKey, listings, catalog).Knows(k) && MadeOf(Final(nameKey, listings, catalog).Find(k), k, GATEWAYS[n], m)
  {
    EarlierRoutesSurvive(nameKey, listings, catalog, n + 1, k);
  }

  /** A listing that lands on an id unknown at its turn is the entry's model, title and provider at the end. */
  lemma NewModelIsTheListing(nameKey: string -> string, listings: map<Gateway, Listing>, catalog: seq<Curated>, n: nat, j: nat)
    requires listings.Keys == {OpenRouter, Vercel} && n < |GATEWAYS| && j < |listings[GATEWAYS[n]].models|
    requires var r := RoundOf(nameKey, listings, catalog, n); !At(r, j).Knows(Key(r, j))
    ensures var r, final := RoundOf(nameKey, listings, catalog, n), Final(nameKey, listings, catalog);
            final.Knows(Key(r, j)) && MadeOf(final.Find(Key(r, j)), Key(r, j), GATEWAYS[n], listings[GATEWAYS[n]].models[j])
  {
    var r := RoundOf(nameKey, listings, catalog, n);
    RoundKeepsNew(r, j);
    MadeStays(nameKey, listings, catalog, n, Key(r, j), r.listed[j]);
  }

  /** The listing by which `x` came to be known. */
  lemma {:induction false} Origin(t: Trace, x: string, k: nat) returns (j: nat)
    requires IsTrace(t) && k <= |t.keys| && t.states[k].Knows(x) && !t.states[0].Knows(x)
    ensures j < k && t.keys[j] == x && !t.states[j].Knows(x)
  {
    assert StepAt(t, k - 1, x);
    if t.states[k - 1].Knows(x) {
      j := Origin(t, x, k - 1);
    } else {
      j := k - 1;
    }
  }

  lemma OriginInRound(r: Round, x: string) returns (j: nat)
    requires r.start.Valid() && At(r, |r.listed|).Knows(x) && !r.start.Knows(x)
    ensures j < |r.listed| && Key(r, j) == x && !At(r, j).Knows(x)
  {
    PassIsTrace(r);
    j := Origin(TraceOf(r), x, |r.listed|);
  }

  // ---- Names ----

  /** The models recorded under a name are those known whose titles give it, each once. */
  ghost predicate NamedRight(nameKey: string -> string, s: State) {
    forall name :: NamedOnce(nameKey, s, name)
  }

  ghost predicate NamedOnce(nameKey: string -> string, s: State, name: string) {
    && Distinct(NamedAs(s, name))
    && forall c :: c in NamedAs(s, name) <==> s.Knows(c) && nameKey(s.Find(c).title) == name
  }

  predicate NamesOf(nameKey: string -> string, table: Table, keys: seq<string>, name: string, ids: seq<string>)
    requires forall k :: k in keys ==> k in table.entries
  {
    Distinct(ids) && (forall c :: c in ids ==> c in keys) && forall k :: k in keys ==> (k in ids <==> nameKey(table.entries[k].title) == name)
  }

  lemma {:induction false} NamesHold(nameKey: string -> string, table: Table, keys: seq<string>, name: string)
    requires (forall k :: k in keys ==> k in table.entries) && Distinct(keys)
    ensures var named := Names(nameKey, table, keys); NamesOf(nameKey, table, keys, name, if name in named then named[name] else [])
  {
    if keys != [] {
      var n := |keys| - 1;
      NamesHold(nameKey, table, keys[..n], name);
      assert keys == keys[..n] + [keys[n]];
      assert keys[n] !in keys[..n];
    }
  }

  lemma NamedRightAtFirst(nameKey: string -> string, listings: map<Gateway, Listing>, catalog: seq<Curated>)
    requires listings.Keys == {OpenRouter, Vercel}
    ensures NamedRight(nameKey, Initial(nameKey, listings, catalog))
  {
    CuratedTableValid(listings, catalog);
    var curated := CuratedTable(listings, catalog);
    forall name
      ensures NamedOnce(nameKey, Initial(nameKey, listings, catalog), name)
    {
      NamesHold(nameKey, curated, curated.order, name);
    }
  }

  lemma MergingKeepsNames(nameKey: string -> string, g: Gateway, s: State, entry: Listed, id: string, name: string)
    requires NamedOnce(nameKey, s, name)
    ensures NamedOnce(nameKey, Merged(nameKey, g, s, entry, id), name)
  {
  }

  lemma StepKeepsNames(r: Round, k: nat)
    requires r.start.Valid() && k < |r.listed| && NamedRight(r.nameKey, At(r, k))
    ensures NamedRight(r.nameKey, At(r, k + 1))
  {
    var after := At(r, k + 1);
    forall name
      ensures NamedOnce(r.nameKey, after, name)
    {
      MergingKeepsNames(r.nameKey, r.g, At(r, k), r.listed[k], Key(r, k), name);
    }
  }

  ghost predicate NamesStep(nameKey: string -> string, t: Trace, k: nat)
    requires t.Sized() && k < |t.keys|
  {
    NamedRight(nameKey, t.states[k]) ==> NamedRight(nameKey, t.states[k + 1])
  }

  lemma {:induction false} NamesAlong(nameKey: string -> string, t: Trace, k: nat)
    requires t.Sized() && k <= |t.keys| && NamedRight(nameKey, t.states[0])
    requires forall m: nat :: m < |t.keys| ==> NamesStep(nameKey, t, m)
    ensures NamedRight(nameKey, t.states[k])
  {
    if k > 0 {
      NamesAlong(nameKey, t, k - 1);
      assert NamesStep(nameKey, t, k - 1);
    }
  }

  lemma OneNames(r: Round, k: nat)
    requires r.start.Valid() && k < |r.listed|
    ensures NamesStep(r.nameKey, TraceOf(r), k)
  {
    if NamedRight(r.nameKey, At(r, k)) {
      StepKeepsNames(r, k);
    }
  }

  lemma PassKeepsNames(r: Round, k: nat)
    requires r.start.Valid() && NamedRight(r.nameKey, r.start) && k <= |r.listed|
    ensures NamedRight(r.nameKey, At(r, k))
  {
    var t := TraceOf(r);
    forall m: nat | m < |t.keys|
      ensures NamesStep(r.nameKey, t, m)
    {
      OneNames(r, m);
    }
    assert t.states[0] == r.start;
    NamesAlong(r.nameKey, t, k);
  }

  lemma {:induction false} NamesStayRight(nameKey: string -> string, listings: map<Gateway, Listing>, catalog: seq<Curated>, n: nat)
    requires listings.Keys == {OpenRouter, Vercel} && n <= |GATEWAYS|
    ensures NamedRight(nameKey, Upto(nameKey, listings, catalog, n))
  {
    if n == 0 {
      NamedRightAtFirst(nameKey, listings, catalog);
    } else {
      NamesStayRight(nameKey, listings, catalog, n - 1);
      PassKeepsNames(RoundOf(nameKey, listings, catalog, n - 1), |listings[GATEWAYS[n - 1]].models|);
    }
  }

  // ---- Twins ----

  /** Two listings of one vendor, as the catalog spells it, under one name. */
  predicate SameVendorAndName(r: Round, i: nat, j: nat)
    requires i < |r.listed| && j < |r.listed|
  {
    && Vendor(CatalogModelId(r.g, r.listed[i].id)) == Vendor(CatalogModelId(r.g, r.listed[j].id))
    && r.nameKey(r.listed[i].title) == r.nameKey(r.listed[j].title)
  }

  /** No other listing of the gateway is of that vendor and name. */
  predicate OnlyOne(r: Round, j: nat)
    requires j < |r.listed|
  {
    forall i: nat :: i < |r.listed| && i != j ==> !SameVendorAndName(r, i, j)
  }

  lemma VendorHasNoSlash(id: string)
    ensures '/' !in Vendor(id)
  {
  }

  /** A text with a slash after a part without one is read back in one way. */
  lemma SplitInOneWay(a: string, x: string, b: string, y: string)
    requires '/' !in a && '/' !in b
    ensures a + "/" + x == b + "/" + y <==> a == b && x == y
  {
    SlashAfter(a, "/" + x);
    SlashAfter(b, "/" + y);
    assert a + "/" + x == a + ("/" + x) && b + "/" + y == b + ("/" + y);
    if a + "/" + x == b + "/" + y {
      assert |a| == |b|;
      assert (a + "/" + x)[..|a|] == a && (b + "/" + y)[..|b|] == b;
      assert (a + "/" + x)[|a| + 1..] == x && (b + "/" + y)[|b| + 1..] == y;
    }
  }

  lemma VendorNamesDiffer(r: Round, i: nat, j: nat)
    requires i < |r.listed| && j < |r.listed|
    ensures VendorName(r.nameKey, r.g, r.listed[i]) == VendorName(r.nameKey, r.g, r.listed[j]) <==> SameVendorAndName(r, i, j)
  {
    VendorHasNoSlash(CatalogModelId(r.g, r.listed[i].id));
    VendorHasNoSlash(CatalogModelId(r.g, r.listed[j].id));
    SplitInOneWay(Vendor(CatalogModelId(r.g, r.listed[i].id)), r.nameKey(r.listed[i].title),
                  Vendor(CatalogModelId(r.g, r.listed[j].id)), r.nameKey(r.listed[j].title));
  }

  function Times(names: seq<string>, name: string): nat {
    if names == [] then 0 else Times(names[..|names| - 1], name) + if names[|names| - 1] == name then 1 else 0
  }

  lemma {:induction false} CountedNever(names: seq<string>, name: string)
    ensures Times(names, name) == 0 <==> name !in names
  {
    if names != [] {
      CountedNever(names[..|names| - 1], name);
      assert names == names[..|names| - 1] + [names[|names| - 1]];
    }
  }

  lemma {:induction false} CountedOnce(names: seq<string>, j: nat)
    requires j < |names|
    ensures Times(names, names[j]) >= 1
    ensures Times(names, names[j]) == 1 <==> forall i: nat :: i < |names| && i != j ==> names[i] != names[j]
  {
    var n := |names| - 1;
    if j == n {
      CountedNever(names[..n], names[n]);
    } else {
      CountedOnce(names[..n], j);
    }
  }

  function VendorNames(nameKey: string -> string, g: Gateway, listed: seq<Listed>): (names: seq<string>)
    ensures |names| == |listed| && forall i :: 0 <= i < |listed| ==> names[i] == VendorName(nameKey, g, listed[i])
  {
    seq(|listed|, i requires 0 <= i < |listed| => VendorName(nameKey, g, listed[i]))
  }

  lemma {:induction false} TimesListedIs(nameKey: string -> string, g: Gateway, listed: seq<Listed>, name: string)
    ensures TimesListed(nameKey, g, listed, name) == Times(VendorNames(nameKey, g, listed), name)
  {
    if listed != [] {
      var n := |listed| - 1;
      TimesListedIs(nameKey, g, listed[..n], name);
      assert VendorNames(nameKey, g, listed)[..n] == VendorNames(nameKey, g, listed[..n]);
    }
  }

  lemma OnlyOneIs(r: Round, j: nat)
    requires j < |r.listed|
    ensures OnlyOne(r, j) <==> TimesListed(r.nameKey, r.g, r.listed, VendorName(r.nameKey, r.g, r.listed[j])) == 1
  {
    TimesListedIs(r.nameKey, r.g, r.listed, VendorName(r.nameKey, r.g, r.listed[j]));
    CountedOnce(VendorNames(r.nameKey, r.g, r.listed), j);
    forall i: nat | i < |r.listed|
      ensures VendorName(r.nameKey, r.g, r.listed[i]) == VendorName(r.nameKey, r.g, r.listed[j]) <==> SameVendorAndName(r, i, j)
    {
      VendorNamesDiffer(r, i, j);
    }
  }

  /** The ids of a model's routes and of a listing have a vendor in common, as gateways or the catalog spell it. */
  predicate SharesVendor(g: Gateway, id: string, routes: map<Gateway, string>) {
    exists h :: h in routes && VendorsMeet(g, id, h, routes[h])
  }

  predicate VendorsMeet(g: Gateway, a: string, h: Gateway, b: string) {
    || Vendor(a) == Vendor(b) || Vendor(a) == Vendor(CatalogModelId(h, b))
    || Vendor(CatalogModelId(g, a)) == Vendor(b) || Vendor(CatalogModelId(g, a)) == Vendor(CatalogModelId(h, b))
  }

  lemma VendorsOfOne(g: Gateway, id: string, v: string)
    ensures v in VendorsOf(map[g := id]) <==> v == Vendor(id) || v == Vendor(CatalogModelId(g, id))
  {
    var mine := map[g := id];
    assert g in mine && mine[g] == id;
  }

  lemma VendorsOfMany(routes: map<Gateway, string>, v: string)
    ensures v in VendorsOf(routes) <==> exists h :: h in routes && (v == Vendor(routes[h]) || v == Vendor(CatalogModelId(h, routes[h])))
  {
  }

  lemma VendorsShared(g: Gateway, id: string, routes: map<Gateway, string>)
    ensures VendorsOf(routes) * VendorsOf(map[g := id]) != {} <==> SharesVendor(g, id, routes)
  {
    var mine := map[g := id];
    var a, b := Vendor(id), Vendor(CatalogModelId(g, id));
    VendorsOfOne(g, id, a);
    VendorsOfOne(g, id, b);
    VendorsOfMany(routes, a);
    VendorsOfMany(routes, b);
    if SharesVendor(g, id, routes) {
      var h :| h in routes && VendorsMeet(g, id, h, routes[h]);
      assert a in VendorsOf(routes) * VendorsOf(mine) || b in VendorsOf(routes) * VendorsOf(mine);
    } else if v :| v in VendorsOf(routes) * VendorsOf(mine) {
      VendorsOfOne(g, id, v);
      VendorsOfMany(routes, v);
    }
  }

  /** A known model of the listing's name and vendor, without a route on the gateway, that it does not list by id. */
  ghost predicate IsTwin(r: Round, j: nat, x: string)
    requires r.start.Valid() && j < |r.listed|
  {
    var s := At(r, j);
    && s.Knows(x)
    && r.nameKey(s.Find(x).title) == r.nameKey(r.listed[j].title)
    && (r.g !in s.Find(x).gateways || s.Find(x).gateways[r.g] == "")
    && (forall i :: 0 <= i < |r.listed| ==> CatalogModelId(r.g, r.listed[i].id) != x)
    && SharesVendor(r.g, r.listed[j].id, s.Find(x).gateways)
  }

  lemma ExactIs(g: Gateway, listed: seq<Listed>, x: string)
    ensures x in Exact(g, listed) <==> exists i :: 0 <= i < |listed| && CatalogModelId(g, listed[i].id) == x
  {
    if i :| 0 <= i < |listed| && CatalogModelId(g, listed[i].id) == x {
      assert listed[i] in listed;
    }
  }

  lemma TwinsAre(r: Round, j: nat, x: string)
    requires r.start.Valid() && j < |r.listed| && NamedRight(r.nameKey, At(r, j))
    ensures x in Twins(r, j) <==> IsTwin(r, j, x)
  {
    var s := At(r, j);
    assert NamedOnce(r.nameKey, s, r.nameKey(r.listed[j].title));
    ExactIs(r.g, r.listed, x);
    VendorsShared(r.g, r.listed[j].id, RoutesOf(s, x));
  }

  lemma {:induction false} AwaitingDistinct(g: Gateway, exact: set<string>, s: State, entry: Listed, candidates: seq<string>)
    requires Distinct(candidates)
    ensures Distinct(Awaiting(g, exact, s, entry, candidates))
  {
    if candidates != [] {
      var n := |candidates| - 1;
      AwaitingDistinct(g, exact, s, entry, candidates[..n]);
      assert candidates[n] !in candidates[..n];
    }
  }

  lemma TwoDiffer(xs: seq<string>)
    requires Distinct(xs)
    ensures |xs| > 1 ==> xs[0] in xs && xs[1] in xs && xs[0] != xs[1]
  {
  }

  lemma OneOfThem(xs: seq<string>, x: string)
    requires Distinct(xs)
    ensures xs == [x] <==> x in xs && forall y :: y in xs ==> y == x
  {
    TwoDiffer(xs);
  }

  /** Which pairing by name there is, in the models' own terms. */
  lemma TwinExactlyWhen(r: Round, j: nat, x: string)
    requires r.start.Valid() && NamedRight(r.nameKey, r.start) && j < |r.listed|
    ensures HasTwin(r, j) && Twins(r, j) == [x] <==>
              OnlyOne(r, j) && x != "" && IsTwin(r, j, x) && forall y :: IsTwin(r, j, y) ==> y == x
  {
    PassKeepsNames(r, j);
    OnlyOneIs(r, j);
    assert NamedOnce(r.nameKey, At(r, j), r.nameKey(r.listed[j].title));
    AwaitingDistinct(r.g, Exact(r.g, r.listed), At(r, j), r.listed[j], NamedAs(At(r, j), r.nameKey(r.listed[j].title)));
    forall y
      ensures y in Twins(r, j) <==> IsTwin(r, j, y)
    {
      TwinsAre(r, j, y);
    }
    OneOfThem(Twins(r, j), x);
  }

  // ---- Claims ----

  /** The last place where `route` is. */
  function LastIndex(routes: seq<Option<string>>, route: string): Option<nat> {
    if routes == [] then None
    else if routes[|routes| - 1] == Some(route) then Some(|routes| - 1)
    else LastIndex(routes[..|routes| - 1], route)
  }

  lemma {:induction false} LastIndexIs(routes: seq<Option<string>>, route: string)
    ensures var p := LastIndex(routes, route);
            && (p.None? ==> forall q :: 0 <= q < |routes| ==> routes[q] != Some(route))
            && (p.Some? ==>
                  && p.value < |routes| && routes[p.value] == Some(route)
                  && forall q :: p.value < q < |routes| ==> routes[q] != Some(route))
  {
    if routes != [] {
      LastIndexIs(routes[..|routes| - 1], route);
    }
  }

  lemma {:induction false} LastIndexOfBoth(a: seq<Option<string>>, b: seq<Option<string>>, route: string)
    ensures LastIndex(a + b, route) ==
            if LastIndex(b, route).Some? then Some(|a| + LastIndex(b, route).value) else LastIndex(a, route)
  {
    if b == [] {
      assert a + b == a;
    } else {
      assert (a + b)[..|a + b| - 1] == a + b[..|b| - 1];
      LastIndexOfBoth(a, b[..|b| - 1], route);
    }
  }

  lemma LastIndexWithin(routes: seq<Option<string>>, route: string)
    ensures LastIndex(routes, route).Some? ==> LastIndex(routes, route).value < |routes|
  {
    LastIndexIs(routes, route);
  }

  function RoutesFor(g: Gateway, table: Table, keys: seq<string>): (routes: seq<Option<string>>)
    requires forall k :: k in keys ==> k in table.entries
    ensures |routes| == |keys| && forall i :: 0 <= i < |keys| ==> routes[i] == RouteOn(g, table.entries[keys[i]])
  {
    seq(|keys|, i requires 0 <= i < |keys| => RouteOn(g, table.entries[keys[i]]))
  }

  predicate FoundBy(routed: map<string, string>, keys: seq<string>, route: string, p: Option<nat>) {
    && (route in routed <==> p.Some?)
    && (p.Some? ==> p.value < |keys| && routed[route] == keys[p.value])
  }

  lemma FoundOneMore(g: Gateway, table: Table, keys: seq<string>, route: string)
    requires keys != [] && forall k :: k in keys ==> k in table.entries
    requires FoundBy(RoutedIn(g, table, keys[..|keys| - 1]), keys[..|keys| - 1], route,
                     LastIndex(RoutesFor(g, table, keys)[..|keys| - 1], route))
    ensures FoundBy(RoutedIn(g, table, keys), keys, route, LastIndex(RoutesFor(g, table, keys), route))
  {
  }

  lemma {:induction false} RoutedInIs(g: Gateway, table: Table, keys: seq<string>, route: string)
    requires forall k :: k in keys ==> k in table.entries
    ensures FoundBy(RoutedIn(g, table, keys), keys, route, LastIndex(RoutesFor(g, table, keys), route))
  {
    if keys != [] {
      var n := |keys| - 1;
      RoutedInIs(g, table, keys[..n], route);
      assert RoutesFor(g, table, keys)[..n] == RoutesFor(g, table, keys[..n]);
      FoundOneMore(g, table, keys, route);
    }
  }

  /** Every model known, in the order claims are looked up: curated ones not taken up, then merged ones. */
  function KnownOrder(s: State): (keys: seq<string>)
    requires s.Valid()
    ensures forall k :: k in keys <==> s.Knows(k)
  {
    s.curated.order + s.merged.order
  }

  /** Each one's route on the gateway; an empty one is none. */
  function KnownRoutes(g: Gateway, s: State): (routes: seq<Option<string>>)
    requires s.Valid()
    ensures |routes| == |KnownOrder(s)|
  {
    seq(|KnownOrder(s)|, i requires 0 <= i < |KnownOrder(s)| =>
      var routes := s.Find(KnownOrder(s)[i]).gateways;
      if g in routes && routes[g] != "" then Some(routes[g]) else None)
  }

  lemma KnownRoutesAre(g: Gateway, s: State)
    requires s.Valid()
    ensures KnownRoutes(g, s) == RoutesFor(g, s.curated, s.curated.order) + RoutesFor(g, s.merged, s.merged.order)
  {
    var n := |s.curated.order|;
    forall i | 0 <= i < |KnownOrder(s)|
      ensures KnownRoutes(g, s)[i] ==
              if i < n then RouteOn(g, s.curated.entries[s.curated.order[i]]) else RouteOn(g, s.merged.entries[s.merged.order[i - n]])
    {
      assert KnownOrder(s)[i] in KnownOrder(s);
    }
  }

  lemma FoundInBoth(a: map<string, string>, keysA: seq<string>, p: Option<nat>, b: map<string, string>, keysB: seq<string>, q: Option<nat>,
                    route: string)
    requires FoundBy(a, keysA, route, p) && FoundBy(b, keysB, route, q)
    ensures FoundBy(a + b, keysA + keysB, route, if q.Some? then Some(|keysA| + q.value) else p)
  {
  }

  lemma RoutedIs(g: Gateway, s: State, route: string)
    requires s.Valid()
    ensures FoundBy(Routed(g, s), KnownOrder(s), route, LastIndex(KnownRoutes(g, s), route))
  {
    var a, b := RoutesFor(g, s.curated, s.curated.order), RoutesFor(g, s.merged, s.merged.order);
    RoutedInIs(g, s.curated, s.curated.order, route);
    RoutedInIs(g, s.merged, s.merged.order, route);
    FoundInBoth(RoutedIn(g, s.curated, s.curated.order), s.curated.order, LastIndex(a, route),
                RoutedIn(g, s.merged, s.merged.order), s.merged.order, LastIndex(b, route), route);
    LastIndexOfBoth(a, b, route);
    KnownRoutesAre(g, s);
  }

  // ---- Where a listing lands ----

  /** The known model whose route on the gateway is the listing's id: the last of them. */
  function ClaimedBy(r: Round, j: nat): (x: Option<string>)
    requires r.start.Valid() && j < |r.listed|
  {
    var p := LastIndex(KnownRoutes(r.g, r.start), r.listed[j].id);
    LastIndexWithin(KnownRoutes(r.g, r.start), r.listed[j].id);
    if p.Some? then Some(KnownOrder(r.start)[p.value]) else None
  }

  ghost predicate OneTwin(r: Round, j: nat, x: string)
    requires r.start.Valid() && j < |r.listed|
  {
    OnlyOne(r, j) && x != "" && IsTwin(r, j, x) && forall y :: IsTwin(r, j, y) ==> y == x
  }

  lemma ClaimIs(r: Round, j: nat)
    requires r.start.Valid() && j < |r.listed|
    ensures HasClaim(r, j) <==> ClaimedBy(r, j).Some? && ClaimedBy(r, j) != Some("")
    ensures HasClaim(r, j) ==> Some(Routed(r.g, r.start)[r.listed[j].id]) == ClaimedBy(r, j)
  {
    RoutedIs(r.g, r.start, r.listed[j].id);
  }

  /** `key` is where the models' own ids, routes, names and vendors send listing `j`. */
  ghost predicate LandsRightly(r: Round, j: nat, key: string)
    requires r.start.Valid() && j < |r.listed|
  {
    var own := CatalogModelId(r.g, r.listed[j].id);
    if At(r, j).Knows(own) then key == own
    else if ClaimedBy(r, j).Some? && ClaimedBy(r, j) != Some("") then Some(key) == ClaimedBy(r, j)
    else (forall x :: OneTwin(r, j, x) ==> key == x) && ((forall x :: !OneTwin(r, j, x)) ==> key == own)
  }

  lemma LandsWithoutClaim(r: Round, j: nat)
    requires r.start.Valid() && NamedRight(r.nameKey, r.start) && j < |r.listed| && !At(r, j).Knows(Own(r, j)) && !HasClaim(r, j)
    ensures forall x :: OneTwin(r, j, x) ==> Key(r, j) == x
    ensures (forall x :: !OneTwin(r, j, x)) ==> Key(r, j) == Own(r, j)
  {
    forall x
      ensures HasTwin(r, j) && Twins(r, j) == [x] <==> OneTwin(r, j, x)
    {
      TwinExactlyWhen(r, j, x);
    }
    WhyItLanded(r, j);
    if HasTwin(r, j) {
      assert Twins(r, j) == [Twins(r, j)[0]];
    }
  }

  lemma LandsInRound(r: Round, j: nat)
    requires r.start.Valid() && NamedRight(r.nameKey, r.start) && j < |r.listed|
    ensures LandsRightly(r, j, Key(r, j))
  {
    ClaimIs(r, j);
    if !At(r, j).Knows(Own(r, j)) && !HasClaim(r, j) {
      LandsWithoutClaim(r, j);
    }
  }

  /**
   * A listing lands on its own catalog id if that is known by then; else on the model whose route it
   * is; else, if the gateway lists that vendor's name once and one known model of that name and vendor
   * awaits a route, on that; else on its own id, as a new model.
   */
  lemma WhereAListingLands(nameKey: string -> string, listings: map<Gateway, Listing>, catalog: seq<Curated>, n: nat, j: nat)
    requires listings.Keys == {OpenRouter, Vercel} && n < |GATEWAYS| && j < |listings[GATEWAYS[n]].models|
    ensures var r := RoundOf(nameKey, listings, catalog, n); LandsRightly(r, j, Key(r, j))
  {
    NamesStayRight(nameKey, listings, catalog, n);
    LandsInRound(RoundOf(nameKey, listings, catalog, n), j);
  }

  /** A listing that lands where nothing is known lands on its own catalog id. */
  lemma UnknownIsOwn(r: Round, j: nat)
    requires r.start.Valid() && NamedRight(r.nameKey, r.start) && j < |r.listed| && !At(r, j).Knows(Key(r, j))
    ensures Key(r, j) == CatalogModelId(r.g, r.listed[j].id)
  {
    WhyItLanded(r, j);
    if !TakesOwnId(r, j) {
      if HasClaim(r, j) {
        PassIsTrace(r);
        KnownStays(TraceOf(r), Key(r, j), 0, j);
      } else {
        PassKeepsNames(r, j);
        TwinsAre(r, j, Key(r, j));
      }
    }
  }

  /** Every entry of the catalog that is not a curated model is some gateway's listing, under its catalog id. */
  lemma NewEntriesAreListed(nameKey: string -> string, listings: map<Gateway, Listing>, catalog: seq<Curated>, k: string)
    returns (n: nat, j: nat)
    requires listings.Keys == {OpenRouter, Vercel}
    requires Final(nameKey, listings, catalog).Knows(k) && k !in CuratedTable(listings, catalog).entries
    ensures n < |GATEWAYS| && j < |listings[GATEWAYS[n]].models|
    ensures MadeOf(Final(nameKey, listings, catalog).Find(k), k, GATEWAYS[n], listings[GATEWAYS[n]].models[j])
    ensures k == CatalogModelId(GATEWAYS[n], listings[GATEWAYS[n]].models[j].id)
  {
    n := if Upto(nameKey, listings, catalog, 1).Knows(k) then 0 else 1;
    j := OriginInRound(RoundOf(nameKey, listings, catalog, n), k);
    NewModelIsTheListing(nameKey, listings, catalog, n, j);
    NamesStayRight(nameKey, listings, catalog, n);
    UnknownIsOwn(RoundOf(nameKey, listings, catalog, n), j);
  }

  // ---- Curated entries ----

  /** The gateway prices or lists `id`, or has loaded no prices. */
  predicate IsServed(listing: Listing, id: string) {
    id != "" && (listing.rates == {} || id in listing.rates || exists i :: 0 <= i < |listing.models| && listing.models[i].id == id)
  }

  /** The curated model itself, with the routes that are served, by each gateway's own spelling of its id. */
  predicate IsCurated(listings: map<Gateway, Listing>, model: Curated, entry: Entry)
    requires listings.Keys == {OpenRouter, Vercel}
  {
    && SameModel(entry, model.entry)
    && forall g :: g in listings ==>
         && (g in entry.gateways <==> IsServed(listings[g], GatewayModelId(g, model.openRouter)))
         && (g in entry.gateways ==> entry.gateways[g] == GatewayModelId(g, model.openRouter))
  }

  lemma ServesIs(listing: Listing, id: string)
    ensures id != "" && GatewayServes(listing, id) <==> IsServed(listing, id)
  {
    if i :| 0 <= i < |listing.models| && listing.models[i].id == id {
      assert listing.models[i] in listing.models;
    }
  }

  lemma ServedIs(listings: map<Gateway, Listing>, model: Curated)
    requires listings.Keys == {OpenRouter, Vercel}
    ensures IsCurated(listings, model, Served(listings, model))
  {
    ServesIs(listings[OpenRouter], GatewayModelId(OpenRouter, model.openRouter));
    ServesIs(listings[Vercel], GatewayModelId(Vercel, model.openRouter));
  }

  /** Of curated models under one id the last counts. */
  lemma {:induction false} CuratedEntryIs(listings: map<Gateway, Listing>, catalog: seq<Curated>, i: nat)
    requires listings.Keys == {OpenRouter, Vercel}
    requires i < |catalog| && forall j :: i < j < |catalog| ==> catalog[j].openRouter != catalog[i].openRouter
    ensures catalog[i].openRouter in CuratedTable(listings, catalog).entries
    ensures IsCurated(listings, catalog[i], CuratedTable(listings, catalog).entries[catalog[i].openRouter])
  {
    if i == |catalog| - 1 {
      ServedIs(listings, catalog[i]);
    } else {
      CuratedEntryIs(listings, catalog[..|catalog| - 1], i);
    }
  }

  lemma OtherGatewaysKeepRoute(g: Gateway, a: Entry, b: Entry, h: Gateway)
    requires SameBut(g, a, b) && h != g
    ensures SameRoute(h, a, b)
  {
    assert h in a.gateways.Keys + {g} <==> h in b.gateways.Keys + {g};
  }

  /** One pass leaves the route on `h` of what it knew, unless it is of `h` and landed there. */
  lemma PassKeepsRoute(r: Round, k: string, after: State, h: Gateway)
    requires r.start.Valid() && PassLeaves(r, k, after) && r.start.Knows(k) && (h == r.g ==> !LandedOn(r, k))
    ensures after.Knows(k) && SameRoute(h, r.start.Find(k), after.Find(k))
  {
    if h != r.g {
      OtherGatewaysKeepRoute(r.g, r.start.Find(k), after.Find(k), h);
    }
  }

  lemma GatewayKeepsRoute(nameKey: string -> string, listings: map<Gateway, Listing>, catalog: seq<Curated>, n: nat, k: string, h: Gateway)
    requires listings.Keys == {OpenRouter, Vercel} && n < |GATEWAYS| && Upto(nameKey, listings, catalog, n).Knows(k)
    requires h == GATEWAYS[n] ==> !LandedOn(RoundOf(nameKey, listings, catalog, n), k)
    ensures Upto(nameKey, listings, catalog, n + 1).Knows(k)
    ensures SameRoute(h, Upto(nameKey, listings, catalog, n).Find(k), Upto(nameKey, listings, catalog, n + 1).Find(k))
  {
    GatewayLeaves(nameKey, listings, catalog, n, k);
    PassKeepsRoute(RoundOf(nameKey, listings, catalog, n), k, Upto(nameKey, listings, catalog, n + 1), h);
  }

  lemma UnlandedRouteStays(nameKey: string -> string, listings: map<Gateway, Listing>, catalog: seq<Curated>, n: nat, k: string)
    requires listings.Keys == {OpenRouter, Vercel} && n < |GATEWAYS| && Upto(nameKey, listings, catalog, 0).Knows(k)
    requires !LandedOn(RoundOf(nameKey, listings, catalog, n), k)
    ensures Upto(nameKey, listings, catalog, 2).Knows(k)
    ensures SameRoute(GATEWAYS[n], Upto(nameKey, listings, catalog, 0).Find(k), Upto(nameKey, listings, catalog, 2).Find(k))
  {
    GatewayKeepsRoute(nameKey, listings, catalog, 0, k, GATEWAYS[n]);
    GatewayKeepsRoute(nameKey, listings, catalog, 1, k, GATEWAYS[n]);
  }

  /** At the end a curated model that no listing of a gateway landed on has a route there exactly when
      the gateway serves it. */
  lemma CuratedModelIsServed(nameKey: string -> string, listings: map<Gateway, Listing>, catalog: seq<Curated>, n: nat, i: nat)
    requires listings.Keys == {OpenRouter, Vercel} && n < |GATEWAYS|
    requires i < |catalog| && forall j :: i < j < |catalog| ==> catalog[j].openRouter != catalog[i].openRouter
    requires !LandedOn(RoundOf(nameKey, listings, catalog, n), catalog[i].openRouter)
    ensures var g, k, final := GATEWAYS[n], catalog[i].openRouter, Final(nameKey, listings, catalog);
            && final.Knows(k) && SameModel(final.Find(k), catalog[i].entry)
            && (g in final.Find(k).gateways <==> IsServed(listings[g], GatewayModelId(g, k)))
            && (g in final.Find(k).gateways ==> final.Find(k).gateways[g] == GatewayModelId(g, k))
  {
    CuratedEntryIs(listings, catalog, i);
    UnlandedRouteStays(nameKey, listings, catalog, n, catalog[i].openRouter);
    CuratedModelsStay(nameKey, listings, catalog, catalog[i].openRouter);
  }

  // ---- Curated models no gateway lists ----

  /** The keys not among `merged`, in their order. */
  function Left(keys: seq<string>, merged: map<string, Entry>): seq<string> {
    if keys == [] then []
    else (if keys[0] in merged then [] else [keys[0]]) + Left(keys[1..], merged)
  }

  lemma {:induction false} LeftWithout(keys: seq<string>, merged: map<string, Entry>, k: string, entry: Entry)
    ensures Without(Left(keys, merged), k) == Left(keys, merged[k := entry])
  {
    if keys != [] {
      var rest := Left(keys[1..], merged);
      LeftWithout(keys[1..], merged, k, entry);
      assert ([keys[0]] + rest)[1..] == rest && [] + rest == rest;
    }
  }

  lemma {:induction false} NothingMerged(keys: seq<string>)
    ensures Left(keys, map[]) == keys
  {
    if keys != [] {
      NothingMerged(keys[1..]);
    }
  }

  lemma MergedTakes(nameKey: string -> string, g: Gateway, s: State, entry: Listed, id: string)
    ensures var after := Merged(nameKey, g, s, entry, id);
            && after.curated.order == Without(s.curated.order, id)
            && id in after.merged.entries && after.merged.entries == s.merged.entries[id := after.merged.entries[id]]
  {
  }

  lemma StepLeavesOrder(r: Round, keys: seq<string>, k: nat)
    requires r.start.Valid() && k < |r.listed| && At(r, k).curated.order == Left(keys, At(r, k).merged.entries)
    ensures At(r, k + 1).curated.order == Left(keys, At(r, k + 1).merged.entries)
  {
    MergedTakes(r.nameKey, r.g, At(r, k), r.listed[k], Key(r, k));
    LeftWithout(keys, At(r, k).merged.entries, Key(r, k), At(r, k + 1).merged.entries[Key(r, k)]);
  }

  predicate LeavesRest(s: State, keys: seq<string>) {
    s.curated.order == Left(keys, s.merged.entries)
  }

  predicate RestStep(t: Trace, keys: seq<string>, k: nat)
    requires t.Sized() && k < |t.keys|
  {
    LeavesRest(t.states[k], keys) ==> LeavesRest(t.states[k + 1], keys)
  }

  lemma {:induction false} RestAlong(t: Trace, keys: seq<string>, k: nat)
    requires t.Sized() && k <= |t.keys| && LeavesRest(t.states[0], keys)
    requires forall m: nat :: m < |t.keys| ==> RestStep(t, keys, m)
    ensures LeavesRest(t.states[k], keys)
  {
    if k > 0 {
      RestAlong(t, keys, k - 1);
      assert RestStep(t, keys, k - 1);
    }
  }

  lemma OneRest(r: Round, keys: seq<string>, k: nat)
    requires r.start.Valid() && k < |r.listed|
    ensures RestStep(TraceOf(r), keys, k)
  {
    if LeavesRest(At(r, k), keys) {
      StepLeavesOrder(r, keys, k);
    }
  }

  lemma PassLeavesOrder(r: Round, keys: seq<string>, k: nat)
    requires r.start.Valid() && k <= |r.listed| && LeavesRest(r.start, keys)
    ensures LeavesRest(At(r, k), keys)
  {
    var t := TraceOf(r);
    forall m: nat | m < |t.keys|
      ensures RestStep(t, keys, m)
    {
      OneRest(r, keys, m);
    }
    assert t.states[0] == r.start;
    RestAlong(t, keys, k);
  }

  /** The curated models no listing landed on follow in the order they were given. */
  lemma {:induction false} CuratedRestInOrder(nameKey: string -> string, listings: map<Gateway, Listing>, catalog: seq<Curated>, n: nat)
    requires listings.Keys == {OpenRouter, Vercel} && n <= |GATEWAYS|
    ensures var s := Upto(nameKey, listings, catalog, n);
            s.curated.order == Left(CuratedTable(listings, catalog).order, s.merged.entries)
  {
    var keys := CuratedTable(listings, catalog).order;
    if n == 0 {
      NothingMerged(keys);
    } else {
      CuratedRestInOrder(nameKey, listings, catalog, n - 1);
      PassLeavesOrder(RoundOf(nameKey, listings, catalog, n - 1), keys, |listings[GATEWAYS[n - 1]].models|);
    }
  }

  lemma {:induction false} CuratedOrderIs(listings: map<Gateway, Listing>, catalog: seq<Curated>)
    requires listings.Keys == {OpenRouter, Vercel}
    requires forall i, j :: 0 <= i < j < |catalog| ==> catalog[i].openRouter != catalog[j].openRouter
    ensures |CuratedTable(listings, catalog).order| == |catalog|
    ensures forall i :: 0 <= i < |catalog| ==> CuratedTable(listings, catalog).order[i] == catalog[i].openRouter
  {
    CuratedTableValid(listings, catalog);
    if catalog != [] {
      var n := |catalog| - 1;
      CuratedOrderIs(listings, catalog[..n]);
      CuratedTableValid(listings, catalog[..n]);
      var before := CuratedTable(listings, catalog[..n]);
      assert catalog[n].openRouter !in before.order;
    }
  }
}
