/**
 * The product catalog and the four query functions over it. The catalog is
 * passed in explicitly instead of being read from a process-wide variable.
 */
module Catalog {
  import opened Wrappers
  import opened Text
  import opened Sequences

  /** The `stock` value of a record as JSON gives it: a flag, a quantity or null. */
  datatype Stock = Flag(on: bool) | Quantity(count: int) | Null

  /** Python truthiness of a stock value. */
  predicate InStock(s: Stock)
  {
    match s
    case Flag(on) => on
    case Quantity(count) => count != 0
    case Null => false
  }

  /**
   * One catalog record. `price` is held as the text that formatting the JSON
   * number produces; how that text is rendered is not modelled.
   */
  datatype Product = Product(name: string, description: string, price: string, stock: Stock)

  /** What reading the catalog file produced. */
  datatype LoadOutcome = Parsed(products: seq<Product>) | FileNotFound | DecodeError

  /** Loading degrades to an empty catalog when the file is missing or malformed. */
  function LoadCatalog(outcome: LoadOutcome): seq<Product>
  {
    match outcome
    case Parsed(products) => products
    case FileNotFound => []
    case DecodeError => []
  }

  /** `query.lower() in product["name"].lower()` */
  predicate NameMatches(query: string, p: Product)
  {
    Contains(Lower(p.name), Lower(query))
  }

  /** The name or the description contains the query, ignoring case. */
  predicate Mentions(query: string, p: Product)
  {
    NameMatches(query, p) || Contains(Lower(p.description), Lower(query))
  }

  function NameFilter(query: string): Product -> bool
  {
    p => NameMatches(query, p)
  }

  function MentionFilter(query: string): Product -> bool
  {
    p => Mentions(query, p)
  }

  /** `get_product_info`: every record whose name contains the query, in catalog order. */
  function ProductInfo(catalog: seq<Product>, productName: string): (found: seq<Product>)
    ensures |found| <= |catalog|
    ensures IsSubseq(found, catalog)
    ensures forall p :: p in found <==> p in catalog && NameMatches(productName, p)
    ensures forall p :: multiset(found)[p] == if NameMatches(productName, p) then multiset(catalog)[p] else 0
  {
    Filter(catalog, NameFilter(productName))
  }

  /** `check_stock`: the stock value of the first record whose name matches, if any. */
  function CheckStock(catalog: seq<Product>, productName: string): (status: Option<Stock>)
    ensures status.None? <==> forall p :: p in catalog ==> !NameMatches(productName, p)
    ensures status.Some? ==> exists p :: p in catalog && NameMatches(productName, p) && p.stock == status.value
  {
    var found := ProductInfo(catalog, productName);
    if found == [] then None else Some(found[0].stock)
  }

  /** `recommend_products`: every record whose name or description contains the query. */
  function RecommendProducts(catalog: seq<Product>, query: string): (found: seq<Product>)
    ensures |found| <= |catalog|
    ensures IsSubseq(found, catalog)
    ensures forall p :: p in found <==> p in catalog && Mentions(query, p)
    ensures forall p :: multiset(found)[p] == if Mentions(query, p) then multiset(catalog)[p] else 0
  {
    Filter(catalog, MentionFilter(query))
  }

  /** After a failed load every query finds nothing. */
  lemma FailedLoadEmpty(outcome: LoadOutcome, query: string)
    requires !outcome.Parsed?
    ensures ProductInfo(LoadCatalog(outcome), query) == []
    ensures RecommendProducts(LoadCatalog(outcome), query) == []
    ensures CheckStock(LoadCatalog(outcome), query) == None
    ensures AllProducts(LoadCatalog(outcome)) == []
  {
  }

  /** `get_all_products`: the catalog itself. */
  function AllProducts(catalog: seq<Product>): seq<Product>
  {
    catalog
  }

  /**
   * Nothing is omitted and nothing is added: any order-preserving selection
   * from the catalog that keeps every copy of each matching record and no
   * other record is the answer of get_product_info.
   */
  lemma ProductInfoExactly(catalog: seq<Product>, productName: string, r: seq<Product>)
    requires IsSubseq(r, catalog)
    requires forall p :: multiset(r)[p] == if NameMatches(productName, p) then multiset(catalog)[p] else 0
    ensures r == ProductInfo(catalog, productName)
  {
    FilterUnique(catalog, NameFilter(productName), r);
  }

  /** The same characterisation for recommend_products. */
  lemma RecommendProductsExactly(catalog: seq<Product>, query: string, r: seq<Product>)
    requires IsSubseq(r, catalog)
    requires forall p :: multiset(r)[p] == if Mentions(query, p) then multiset(catalog)[p] else 0
    ensures r == RecommendProducts(catalog, query)
  {
    FilterUnique(catalog, MentionFilter(query), r);
  }

  /** get_product_info answers with the first matching record first. */
  lemma ProductInfoFirstMatch(catalog: seq<Product>, productName: string, i: nat)
    requires i < |catalog| && NameMatches(productName, catalog[i])
    requires forall j :: 0 <= j < i ==> !NameMatches(productName, catalog[j])
    ensures ProductInfo(catalog, productName) != []
    ensures ProductInfo(catalog, productName)[0] == catalog[i]
  {
    FilterFirst(catalog, NameFilter(productName), i);
  }

  /** check_stock reports the stock of the first record whose name matches. */
  lemma CheckStockFirstMatch(catalog: seq<Product>, productName: string, i: nat)
    requires i < |catalog| && NameMatches(productName, catalog[i])
    requires forall j :: 0 <= j < i ==> !NameMatches(productName, catalog[j])
    ensures CheckStock(catalog, productName) == Some(catalog[i].stock)
  {
    ProductInfoFirstMatch(catalog, productName, i);
  }

  /** A name match alone qualifies a record for recommend_products, in the same order. */
  lemma InfoWithinRecommendations(catalog: seq<Product>, query: string)
    ensures IsSubseq(ProductInfo(catalog, query), RecommendProducts(catalog, query))
    ensures forall p :: p in ProductInfo(catalog, query) ==> p in RecommendProducts(catalog, query)
  {
    FilterWeaker(catalog, NameFilter(query), MentionFilter(query));
  }

  /** The empty query matches every record. */
  lemma EmptyQueryMatchesAll(catalog: seq<Product>)
    ensures ProductInfo(catalog, "") == AllProducts(catalog)
    ensures RecommendProducts(catalog, "") == AllProducts(catalog)
  {
    forall i | 0 <= i < |catalog|
      ensures NameMatches("", catalog[i])
    {
      EmptyContained(Lower(catalog[i].name));
    }
    FilterAll(catalog, NameFilter(""));
    FilterAll(catalog, MentionFilter(""));
  }

  /** The record of the one-product scenario: an in-stock solar lamp. */
  const SolarLamp := Product("Solar Lamp", "Bright outdoor lamp", "20", Flag(true))

  lemma SolarLampName()
    ensures Lower(SolarLamp.name) == "solar lamp"
  {
  }

  /** Recommending "solar" finds the lamp by its name. */
  lemma SolarLampRecommended()
    ensures RecommendProducts([SolarLamp], "solar") == [SolarLamp]
  {
    SolarLampName();
    assert Lower("solar") == "solar";
    assert "solar lamp"[0..5] == "solar";
    assert OccursAt("solar lamp", "solar", 0);
    ContainsIff("solar lamp", "solar");
    FilterAll([SolarLamp], MentionFilter("solar"));
  }

  /** Checking the stock of "solar lamp" reports the lamp's flag. */
  lemma SolarLampStock()
    ensures CheckStock([SolarLamp], "solar lamp") == Some(Flag(true))
  {
    CheckStockFirstMatch([SolarLamp], "solar lamp", 0);
  }

  /** Looking up "lamp" finds the lamp, as a one-element answer. */
  lemma SolarLampInfo()
    ensures ProductInfo([SolarLamp], "lamp") == [SolarLamp]
  {
    SolarLampName();
    assert Lower("lamp") == "lamp";
    assert "solar lamp"[6..10] == "lamp";
    assert OccursAt("solar lamp", "lamp", 6);
    ContainsIff("solar lamp", "lamp");
    FilterAll([SolarLamp], NameFilter("lamp"));
  }
}
