/**
 * How gateways spell the catalog's model ids (src/gateways/index.ts).
 */
module GatewayIds {
  import opened Wrappers

  datatype Gateway = OpenRouter | Vercel

  /** In the order the catalog merges them. */
  const GATEWAYS := [OpenRouter, Vercel]

  function Name(g: Gateway): string {
    match g
    case OpenRouter => "openrouter"
    case Vercel => "vercel-ai-gateway"
  }

  /** A gateway's spelling of a vendor, and the catalog's. */
  datatype Alias = Alias(own: string, catalog: string)

  function Aliases(g: Gateway): seq<Alias> {
    match g
    case OpenRouter => []
    case Vercel => [
      Alias("alibaba", "qwen"),
      Alias("bytedance", "bytedance-seed"),
      Alias("meta", "meta-llama"),
      Alias("mistral", "mistralai"),
      Alias("spacexai", "x-ai"),
      Alias("zai", "z-ai")
    ]
  }

  function ToCatalog(aliases: seq<Alias>, vendor: string): (spelled: Option<string>)
    ensures spelled.Some? ==> Alias(vendor, spelled.value) in aliases
    ensures spelled.None? ==> forall a :: a in aliases ==> a.own != vendor
  {
    if aliases == [] then None
    else if aliases[0].own == vendor then Some(aliases[0].catalog)
    else ToCatalog(aliases[1..], vendor)
  }

  function ToOwn(aliases: seq<Alias>, vendor: string): (spelled: Option<string>)
    ensures spelled.Some? ==> Alias(spelled.value, vendor) in aliases
    ensures spelled.None? ==> forall a :: a in aliases ==> a.catalog != vendor
  {
    if aliases == [] then None
    else if aliases[0].catalog == vendor then Some(aliases[0].own)
    else ToOwn(aliases[1..], vendor)
  }

  /** Where the first slash is, or -1. */
  function Slash(id: string): (at: int)
    ensures -1 <= at < |id|
    ensures at == -1 ==> '/' !in id
    ensures at >= 0 ==> id[at] == '/' && '/' !in id[..at]
  {
    if id == "" then -1
    else if id[0] == '/' then 0
    else
      var rest := Slash(id[1..]);
      if rest == -1 then -1
      else
        assert id[..rest + 1] == [id[0]] + id[1..][..rest];
        rest + 1
  }

  /** The part before the first slash, or all of it. */
  function Vendor(id: string): string {
    if Slash(id) == -1 then id else id[..Slash(id)]
  }

  function Respell(id: string, alias: string -> Option<string>): string {
    var slash := Slash(id);
    var vendor := if slash > 0 then alias(id[..slash]) else None;
    if vendor.Some? then vendor.value + id[slash..] else id
  }

  function CatalogModelId(g: Gateway, id: string): string {
    Respell(id, vendor => ToCatalog(Aliases(g), vendor))
  }

  function GatewayModelId(g: Gateway, id: string): string {
    Respell(id, vendor => ToOwn(Aliases(g), vendor))
  }

  /** Both spellings are words, no vendor is spelled two ways, and no spelling of its own is the catalog's of another. */
  predicate Unambiguous(aliases: seq<Alias>) {
    && (forall a :: a in aliases ==> a.own != "" && a.catalog != "" && '/' !in a.own && '/' !in a.catalog)
    && (forall a, b :: a in aliases && b in aliases && (a.own == b.own || a.catalog == b.catalog) ==> a == b)
    && (forall a, b :: a in aliases && b in aliases ==> a.own != b.catalog)
  }

  /** Enough of a spelling to tell Vercel's apart. */
  function Mark(spelling: string): (nat, char)
    requires spelling != ""
  {
    (|spelling|, spelling[0])
  }

  lemma VercelCatalogMarks(i: nat)
    requires i < |Aliases(Vercel)|
    ensures var catalog := Aliases(Vercel)[i].catalog;
            catalog != "" && '/' !in catalog
            && Mark(catalog) == [(4, 'q'), (14, 'b'), (10, 'm'), (9, 'm'), (4, 'x'), (4, 'z')][i]
  {
    assert i == 0 || i == 1 || i == 2 || i == 3 || i == 4 || i == 5;
  }

  lemma AliasesUnambiguous(g: Gateway)
    ensures Unambiguous(Aliases(g))
  {
    var aliases := Aliases(g);
    forall i, j | 0 <= i < |aliases| && 0 <= j < |aliases|
      ensures aliases[i].own == aliases[j].own || aliases[i].catalog == aliases[j].catalog ==> i == j
      ensures aliases[i].own != aliases[j].catalog
      ensures aliases[i].own != "" && aliases[i].catalog != "" && '/' !in aliases[i].own && '/' !in aliases[i].catalog
    {
      VercelCatalogMarks(i);
      VercelCatalogMarks(j);
    }
  }

  lemma {:induction false} SlashAfter(vendor: string, rest: string)
    requires '/' !in vendor && rest != "" && rest[0] == '/'
    ensures Slash(vendor + rest) == |vendor|
  {
    if vendor == "" {
      assert vendor + rest == rest;
    } else {
      assert (vendor + rest)[1..] == vendor[1..] + rest;
      SlashAfter(vendor[1..], rest);
    }
  }

  lemma Respelled(vendor: string, rest: string, alias: string -> Option<string>)
    requires vendor != "" && '/' !in vendor && rest != "" && rest[0] == '/'
    ensures Respell(vendor + rest, alias) == (if alias(vendor).Some? then alias(vendor).value else vendor) + rest
  {
    SlashAfter(vendor, rest);
    assert (vendor + rest)[..|vendor|] == vendor && (vendor + rest)[|vendor|..] == rest;
  }

  /** In an id a spelling begins, the catalog's and the gateway's are each other's. */
  lemma AliasIsRespelled(g: Gateway, a: Alias, rest: string)
    requires a in Aliases(g) && rest != "" && rest[0] == '/'
    ensures CatalogModelId(g, a.own + rest) == a.catalog + rest
    ensures GatewayModelId(g, a.catalog + rest) == a.own + rest
  {
    AliasesUnambiguous(g);
    var aliases := Aliases(g);
    assert ToCatalog(aliases, a.own) == Some(a.catalog);
    assert ToOwn(aliases, a.catalog) == Some(a.own);
    Respelled(a.own, rest, v => ToCatalog(aliases, v));
    Respelled(a.catalog, rest, v => ToOwn(aliases, v));
  }

  /** An id no such spelling begins is left as it is. */
  lemma OtherIdsStay(g: Gateway, id: string)
    ensures (forall a :: a in Aliases(g) ==> !(a.own + "/" <= id)) ==> CatalogModelId(g, id) == id
    ensures (forall a :: a in Aliases(g) ==> !(a.catalog + "/" <= id)) ==> GatewayModelId(g, id) == id
  {
    var slash := Slash(id);
    if slash > 0 {
      var vendor := id[..slash];
      assert vendor + "/" <= id by { assert id[..slash + 1] == vendor + "/"; }
      var catalog, own := ToCatalog(Aliases(g), vendor), ToOwn(Aliases(g), vendor);
      assert catalog.Some? ==> Alias(vendor, catalog.value) in Aliases(g);
      assert own.Some? ==> Alias(own.value, vendor) in Aliases(g);
    }
  }

  /** The catalog's spelling survives going to the gateway's and back. */
  lemma CatalogSpellingSettles(g: Gateway, id: string)
    ensures CatalogModelId(g, GatewayModelId(g, CatalogModelId(g, id))) == CatalogModelId(g, id)
  {
    AliasesUnambiguous(g);
    var aliases := Aliases(g);
    var slash := Slash(id);
    if slash > 0 {
      var vendor, rest := id[..slash], id[slash..];
      assert id == vendor + rest;
      var spelled := ToCatalog(aliases, vendor);
      var catalog := if spelled.Some? then spelled.value else vendor;
      Respelled(vendor, rest, v => ToCatalog(aliases, v));
      var back := ToOwn(aliases, catalog);
      var own := if back.Some? then back.value else catalog;
      Respelled(catalog, rest, v => ToOwn(aliases, v));
      Respelled(own, rest, v => ToCatalog(aliases, v));
    }
  }

  /** Vercel's meta is OpenRouter's meta-llama, so both of Vercel's spellings are one catalog id. */
  lemma MetaIsMetaLlama(rest: string)
    requires rest != "" && rest[0] == '/'
    ensures CatalogModelId(Vercel, "meta" + rest) == CatalogModelId(Vercel, "meta-llama" + rest) == "meta-llama" + rest
    ensures GatewayModelId(Vercel, "meta" + rest) == "meta" + rest
  {
    AliasesUnambiguous(Vercel);
    var aliases := Aliases(Vercel);
    assert aliases[2] == Alias("meta", "meta-llama");
    Respelled("meta", rest, v => ToCatalog(aliases, v));
    Respelled("meta-llama", rest, v => ToCatalog(aliases, v));
    Respelled("meta", rest, v => ToOwn(aliases, v));
  }
}
