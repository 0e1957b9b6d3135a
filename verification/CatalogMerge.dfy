/**
 * Merging the gateways' listings into one catalog (evaluationCatalog, src/evaluation/catalog.ts).
 * `nameKey` is any function of a label, here called a title. Reasoning levels, harnesses and sources are left out.
 */
module CatalogMerge {
  import opened Wrappers
  import opened GatewayIds

  datatype Entry = Entry(id: string, provider: string, model: string, title: string, gateways: map<Gateway, string>)

  datatype Listed = Listed(id: string, title: string)

  datatype Listing = Listing(models: seq<Listed>, rates: set<string>)

  /** A curated model and its id on OpenRouter, which is its catalog id. */
  datatype Curated = Curated(openRouter: string, entry: Entry)

  predicate Distinct(keys: seq<string>) {
    forall i, j :: 0 <= i < j < |keys| ==> keys[i] != keys[j]
  }

  /** A map that remembers the order its keys were first set in. */
  datatype Table = Table(order: seq<string>, entries: map<string, Entry>) {
    ghost predicate Valid() {
      (forall k :: k in order <==> k in entries) && Distinct(order)
    }

    function Put(k: string, entry: Entry): Table {
      Table(if k in entries then order else order + [k], entries[k := entry])
    }

    function Remove(k: string): Table {
      Table(Without(order, k), entries - {k})
    }
  }

  const EMPTY := Table([], map[])

  function Without(keys: seq<string>, k: string): (rest: seq<string>)
    ensures forall x :: x in rest <==> x in keys && x != k
  {
    if keys == [] then []
    else if keys[0] == k then Without(keys[1..], k)
    else [keys[0]] + Without(keys[1..], k)
  }

  /** The merge's state: curated models not yet taken up, merged ones, and catalog ids by name. */
  datatype State = State(curated: Table, merged: Table, named: map<string, seq<string>>) {
    ghost predicate Valid() {
      curated.Valid() && merged.Valid() && forall k :: k in curated.entries ==> k !in merged.entries
    }

    predicate Knows(k: string) {
      k in merged.entries || k in curated.entries
    }

    function Find(k: string): Entry
      requires Knows(k)
    {
      if k in merged.entries then merged.entries[k] else curated.entries[k]
    }
  }

  function AddName(named: map<string, seq<string>>, name: string, id: string): map<string, seq<string>> {
    named[name := (if name in named then named[name] else []) + [id]]
  }

  // ---- Before the first gateway ----

  function GatewayServes(listing: Listing, id: string): bool {
    || listing.rates == {}
    || id in listing.rates
    || exists m :: m in listing.models && m.id == id
  }

  /** The curated entry before any merge: of its gateways' routes, those `GatewayServes` accepts. */
  function Served(listings: map<Gateway, Listing>, model: Curated): Entry
    requires listings.Keys == {OpenRouter, Vercel}
  {
    model.entry.(gateways := map g | g in {OpenRouter, Vercel}
                                     && GatewayModelId(g, model.openRouter) != ""
                                     && GatewayServes(listings[g], GatewayModelId(g, model.openRouter))
                             :: GatewayModelId(g, model.openRouter))
  }

  function CuratedTable(listings: map<Gateway, Listing>, catalog: seq<Curated>): Table
    requires listings.Keys == {OpenRouter, Vercel}
  {
    if catalog == [] then EMPTY
    else
      var last := catalog[|catalog| - 1];
      CuratedTable(listings, catalog[..|catalog| - 1]).Put(last.openRouter, Served(listings, last))
  }

  function Names(nameKey: string -> string, table: Table, keys: seq<string>): map<string, seq<string>>
    requires forall k :: k in keys ==> k in table.entries
  {
    if keys == [] then map[]
    else
      var last := keys[|keys| - 1];
      AddName(Names(nameKey, table, keys[..|keys| - 1]), nameKey(table.entries[last].title), last)
  }

  lemma CuratedTableValid(listings: map<Gateway, Listing>, catalog: seq<Curated>)
    requires listings.Keys == {OpenRouter, Vercel}
    ensures CuratedTable(listings, catalog).Valid()
  {
  }

  function Initial(nameKey: string -> string, listings: map<Gateway, Listing>, catalog: seq<Curated>): State
    requires listings.Keys == {OpenRouter, Vercel}
  {
    CuratedTableValid(listings, catalog);
    var curated := CuratedTable(listings, catalog);
    State(curated, EMPTY, Names(nameKey, curated, curated.order))
  }

  // ---- One gateway ----

  function RouteOn(g: Gateway, entry: Entry): Option<string> {
    if g in entry.gateways && entry.gateways[g] != "" then Some(entry.gateways[g]) else None
  }

  /** Catalog ids by their route on `g`; of two with one route the later. */
  function RoutedIn(g: Gateway, table: Table, keys: seq<string>): (routed: map<string, string>)
    requires forall k :: k in keys ==> k in table.entries
    ensures forall r :: r in routed ==> routed[r] in keys && RouteOn(g, table.entries[routed[r]]) == Some(r)
  {
    if keys == [] then map[]
    else
      var last := keys[|keys| - 1];
      var before := RoutedIn(g, table, keys[..|keys| - 1]);
      match RouteOn(g, table.entries[last])
      case Some(route) => before[route := last]
      case None => before
  }

  function Routed(g: Gateway, s: State): map<string, string>
    requires s.Valid()
  {
    RoutedIn(g, s.curated, s.curated.order) + RoutedIn(g, s.merged, s.merged.order)
  }

  function Exact(g: Gateway, listed: seq<Listed>): set<string> {
    set e | e in listed :: CatalogModelId(g, e.id)
  }

  function VendorName(nameKey: string -> string, g: Gateway, entry: Listed): string {
    Vendor(CatalogModelId(g, entry.id)) + "/" + nameKey(entry.title)
  }

  function TimesListed(nameKey: string -> string, g: Gateway, listed: seq<Listed>, name: string): nat {
    if listed == [] then 0
    else
      var n := |listed| - 1;
      TimesListed(nameKey, g, listed[..n], name) + if VendorName(nameKey, g, listed[n]) == name then 1 else 0
  }

  function VendorsOf(routes: map<Gateway, string>): set<string> {
    (set g | g in routes :: Vendor(routes[g])) + (set g | g in routes :: Vendor(CatalogModelId(g, routes[g])))
  }

  function RoutesOf(s: State, k: string): map<Gateway, string> {
    if s.Knows(k) then s.Find(k).gateways else map[]
  }

  /** `candidate` awaits a route on `g`, is not listed there by id, and shares a vendor with `entry`. */
  predicate Awaits(g: Gateway, exact: set<string>, s: State, entry: Listed, candidate: string) {
    var routes := RoutesOf(s, candidate);
    && (g !in routes || routes[g] == "")
    && candidate !in exact
    && VendorsOf(routes) * VendorsOf(map[g := entry.id]) != {}
  }

  function Awaiting(g: Gateway, exact: set<string>, s: State, entry: Listed, candidates: seq<string>): (twins: seq<string>)
    ensures forall c :: c in twins <==> c in candidates && Awaits(g, exact, s, entry, c)
  {
    if candidates == [] then []
    else
      var n := |candidates| - 1;
      var before := Awaiting(g, exact, s, entry, candidates[..n]);
      assert candidates == candidates[..n] + [candidates[n]];
      if Awaits(g, exact, s, entry, candidates[n]) then before + [candidates[n]] else before
  }

  function NamedAs(s: State, name: string): seq<string> {
    if name in s.named then s.named[name] else []
  }

  /** The catalog id `entry` is merged under. */
  function Landing(nameKey: string -> string, g: Gateway, listed: seq<Listed>, routed: map<string, string>, s: State, entry: Listed): string {
    var id := CatalogModelId(g, entry.id);
    if s.Knows(id) then id
    else if entry.id in routed && routed[entry.id] != "" then routed[entry.id]
    else if TimesListed(nameKey, g, listed, VendorName(nameKey, g, entry)) == 1 then
      var twins := Awaiting(g, Exact(g, listed), s, entry, NamedAs(s, nameKey(entry.title)));
      if |twins| == 1 && twins[0] != "" then twins[0] else id
    else id
  }

  /** `entry` merged under `id`: its route on `g` is added to what is known, or it is a new model. */
  function Merged(nameKey: string -> string, g: Gateway, s: State, entry: Listed, id: string): State {
    var model := if s.Knows(id) then s.Find(id).(gateways := s.Find(id).gateways[g := entry.id])
                 else Entry(id, Name(g), entry.id, entry.title, map[g := entry.id]);
    State(s.curated.Remove(id), s.merged.Put(id, model),
          if s.Knows(id) then s.named else AddName(s.named, nameKey(entry.title), id))
  }

  lemma {:induction false} WithoutStaysDistinct(keys: seq<string>, k: string)
    requires Distinct(keys)
    ensures Distinct(Without(keys, k))
  {
    if keys != [] {
      var rest := keys[1..];
      assert forall i :: 0 <= i < |rest| ==> rest[i] == keys[i + 1];
      WithoutStaysDistinct(rest, k);
      assert keys[0] !in Without(rest, k);
    }
  }

  lemma MergedValid(nameKey: string -> string, g: Gateway, s: State, entry: Listed, id: string)
    requires s.Valid()
    ensures Merged(nameKey, g, s, entry, id).Valid()
  {
    WithoutStaysDistinct(s.curated.order, id);
  }

  function MergeNext(nameKey: string -> string, g: Gateway, listed: seq<Listed>, routed: map<string, string>, s: State, entry: Listed): (after: State)
    requires s.Valid()
    ensures after.Valid()
  {
    var id := Landing(nameKey, g, listed, routed, s, entry);
    MergedValid(nameKey, g, s, entry, id);
    Merged(nameKey, g, s, entry, id)
  }

  /** The first `k` of a gateway's listings merged. */
  function Pass(nameKey: string -> string, g: Gateway, listed: seq<Listed>, routed: map<string, string>, s: State, k: nat): (after: State)
    requires s.Valid() && k <= |listed|
    ensures after.Valid()
  {
    if k == 0 then s
    else
      var before := Pass(nameKey, g, listed, routed, s, k - 1);
      MergeNext(nameKey, g, listed, routed, before, listed[k - 1])
  }

  function GatewayMerged(nameKey: string -> string, g: Gateway, listing: Listing, s: State): (after: State)
    requires s.Valid()
    ensures after.Valid()
  {
    Pass(nameKey, g, listing.models, Routed(g, s), s, |listing.models|)
  }

  // ---- Every gateway ----

  /** After the first `n` gateways. */
  function MergedUpTo(nameKey: string -> string, listings: map<Gateway, Listing>, s: State, n: nat): (after: State)
    requires listings.Keys == {OpenRouter, Vercel} && s.Valid() && n <= |GATEWAYS|
    ensures after.Valid()
  {
    if n == 0 then s
    else
      var before := MergedUpTo(nameKey, listings, s, n - 1);
      var g := GATEWAYS[n - 1];
      GatewayMerged(nameKey, g, listings[g], before)
  }

  lemma InitialValid(nameKey: string -> string, listings: map<Gateway, Listing>, catalog: seq<Curated>)
    requires listings.Keys == {OpenRouter, Vercel}
    ensures Initial(nameKey, listings, catalog).Valid()
  {
    CuratedTableValid(listings, catalog);
  }

  /** The catalog's final state. */
  function Final(nameKey: string -> string, listings: map<Gateway, Listing>, catalog: seq<Curated>): (final: State)
    requires listings.Keys == {OpenRouter, Vercel}
    ensures final.Valid()
  {
    InitialValid(nameKey, listings, catalog);
    MergedUpTo(nameKey, listings, Initial(nameKey, listings, catalog), |GATEWAYS|)
  }

  /** The entries in the order their keys were first set. */
  function Values(table: Table): (values: seq<Entry>)
    requires table.Valid()
    ensures |values| == |table.order|
    ensures forall i :: 0 <= i < |values| ==> table.order[i] in table.entries && values[i] == table.entries[table.order[i]]
  {
    seq(|table.order|, i requires 0 <= i < |table.order| => assert table.order[i] in table.entries; table.entries[table.order[i]])
  }

  const DARI_ROUTER := Entry("dari/routing", "dari", "routing", "Dari Router", map[])

  // ---- The merge itself ----

  ghost predicate NamesRight(nameKey: string -> string, g: Gateway, listed: seq<Listed>, names: map<string, nat>) {
    forall name :: (if name in names then names[name] else 0) == TimesListed(nameKey, g, listed, name)
  }

  lemma OneMoreName(nameKey: string -> string, g: Gateway, listed: seq<Listed>, i: nat, names: map<string, nat>)
    requires i < |listed| && NamesRight(nameKey, g, listed[..i], names)
    ensures var name := VendorName(nameKey, g, listed[i]);
            NamesRight(nameKey, g, listed[..i + 1], names[name := (if name in names then names[name] else 0) + 1])
  {
    assert listed[..i + 1][..i] == listed[..i];
  }

  method NamesListed(nameKey: string -> string, g: Gateway, listed: seq<Listed>) returns (names: map<string, nat>)
    ensures NamesRight(nameKey, g, listed, names)
  {
    names := map[];
    for i := 0 to |listed|
      invariant NamesRight(nameKey, g, listed[..i], names)
    {
      OneMoreName(nameKey, g, listed, i, names);
      var name := VendorName(nameKey, g, listed[i]);
      names := names[name := (if name in names then names[name] else 0) + 1];
    }
    assert listed[..|listed|] == listed;
  }

  method TwinsAwaiting(g: Gateway, exact: set<string>, s: State, entry: Listed, candidates: seq<string>) returns (twins: seq<string>)
    ensures twins == Awaiting(g, exact, s, entry, candidates)
  {
    twins := [];
    for c := 0 to |candidates|
      invariant twins == Awaiting(g, exact, s, entry, candidates[..c])
    {
      assert candidates[..c + 1][..c] == candidates[..c];
      if Awaits(g, exact, s, entry, candidates[c]) {
        twins := twins + [candidates[c]];
      }
    }
    assert candidates[..|candidates|] == candidates;
  }

  method MergeEntry(nameKey: string -> string, g: Gateway, listed: seq<Listed>, exact: set<string>,
                    names: map<string, nat>, routed: map<string, string>, s: State, entry: Listed)
    returns (after: State)
    requires s.Valid() && exact == Exact(g, listed)
    requires NamesRight(nameKey, g, listed, names)
    ensures after == MergeNext(nameKey, g, listed, routed, s, entry)
  {
    var id := CatalogModelId(g, entry.id);
    var name := VendorName(nameKey, g, entry);
    if !s.Knows(id) && entry.id in routed && routed[entry.id] != "" {
      id := routed[entry.id];
    } else if !s.Knows(id) && name in names && names[name] == 1 {
      var twins := TwinsAwaiting(g, exact, s, entry, NamedAs(s, nameKey(entry.title)));
      if |twins| == 1 && twins[0] != "" {
        id := twins[0];
      }
    }
    assert id == Landing(nameKey, g, listed, routed, s, entry);
    var known := s.Knows(id);
    var model := if known then s.Find(id).(gateways := s.Find(id).gateways[g := entry.id])
                 else Entry(id, Name(g), entry.id, entry.title, map[g := entry.id]);
    after := State(s.curated.Remove(id), s.merged.Put(id, model),
                   if known then s.named else AddName(s.named, nameKey(entry.title), id));
  }

  lemma PassNext(nameKey: string -> string, g: Gateway, listed: seq<Listed>, routed: map<string, string>, s: State, k: nat)
    requires s.Valid() && k < |listed|
    ensures Pass(nameKey, g, listed, routed, s, k + 1)
            == MergeNext(nameKey, g, listed, routed, Pass(nameKey, g, listed, routed, s, k), listed[k])
  {
  }

  method MergeListed(nameKey: string -> string, g: Gateway, listed: seq<Listed>, exact: set<string>,
                     names: map<string, nat>, routed: map<string, string>, s: State)
    returns (after: State)
    requires s.Valid() && exact == Exact(g, listed)
    requires NamesRight(nameKey, g, listed, names)
    ensures after == Pass(nameKey, g, listed, routed, s, |listed|)
  {
    after := s;
    for k := 0 to |listed|
      invariant after == Pass(nameKey, g, listed, routed, s, k)
    {
      PassNext(nameKey, g, listed, routed, s, k);
      after := MergeEntry(nameKey, g, listed, exact, names, routed, after, listed[k]);
    }
  }

  method MergeGateway(nameKey: string -> string, g: Gateway, listing: Listing, s: State) returns (after: State)
    requires s.Valid()
    ensures after == GatewayMerged(nameKey, g, listing, s)
    ensures after.Valid()
  {
    var listed := listing.models;
    var exact := set e | e in listed :: CatalogModelId(g, e.id);
    var names := NamesListed(nameKey, g, listed);
    var routedCurated := RoutesIn(g, s.curated);
    var routedMerged := RoutesIn(g, s.merged);
    var routed := routedCurated + routedMerged;
    after := MergeListed(nameKey, g, listed, exact, names, routed, s);
  }

  lemma OneMoreRoute(g: Gateway, table: Table, i: nat)
    requires table.Valid() && i < |table.order|
    ensures var route, before := RouteOn(g, table.entries[table.order[i]]), RoutedIn(g, table, table.order[..i]);
            RoutedIn(g, table, table.order[..i + 1]) == if route.Some? then before[route.value := table.order[i]] else before
  {
    assert table.order[..i + 1][..i] == table.order[..i];
  }

  method RoutesIn(g: Gateway, table: Table) returns (routed: map<string, string>)
    requires table.Valid()
    ensures routed == RoutedIn(g, table, table.order)
  {
    routed := map[];
    for i := 0 to |table.order|
      invariant routed == RoutedIn(g, table, table.order[..i])
    {
      OneMoreRoute(g, table, i);
      var route := RouteOn(g, table.entries[table.order[i]]);
      if route.Some? {
        routed := routed[route.value := table.order[i]];
      }
    }
    assert table.order[..|table.order|] == table.order;
  }

  method EvaluationCatalog(nameKey: string -> string, listings: map<Gateway, Listing>, catalog: seq<Curated>)
    returns (models: seq<Entry>)
    requires listings.Keys == {OpenRouter, Vercel}
    ensures var final := Final(nameKey, listings, catalog);
            models == [Entry("dari/routing", "dari", "routing", "Dari Router", map[])] + Values(final.merged) + Values(final.curated)
  {
    InitialValid(nameKey, listings, catalog);
    var s := Initial(nameKey, listings, catalog);
    for n := 0 to |GATEWAYS|
      invariant s == MergedUpTo(nameKey, listings, Initial(nameKey, listings, catalog), n)
    {
      s := MergeGateway(nameKey, GATEWAYS[n], listings[GATEWAYS[n]], s);
    }
    models := [DARI_ROUTER] + Values(s.merged) + Values(s.curated);
  }
}
