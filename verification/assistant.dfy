/**
 * What the assistant answers once the chat model's reply is known: dispatch
 * of a requested function call, or the keyword cascade over the user's text.
 * The chat model is not modelled; its reply is an input.
 */
module Assistant {
  import opened Wrappers
  import opened Text
  import opened Catalog

  /** The decoded argument object of a function call: only `product_name` is read. */
  datatype Arguments = Arguments(productName: Option<string>)

  /** The chat model's reply: a function-call directive, or plain text (which is not used). */
  datatype ModelReply = FunctionCall(name: string, arguments: Arguments) | PlainText

  const NotFound := "Sorry, I couldn't find that product."
  const InStockText := "Yes, this product is in stock!"
  const OutOfStockText := "Sorry, this product is out of stock."

  const AllHeader := "Here are the products we have available:\n"
  const NoProducts := "Sorry, no products are available right now."
  const SolarHeader := "Here are the solar-powered products we have available:\n"
  const NoSolar := "Sorry, I couldn't find any solar-powered products."
  const WaterHeader := "Here are the water-related products we have available:\n"
  const NoWater := "Sorry, I couldn't find any water-related products."
  const GeneralHeader := "Here are some products that might interest you:\n"
  const NoRelated := "Sorry, I couldn't find any products related to that."

  function YesNo(s: Stock): string
  {
    if InStock(s) then "Yes" else "No"
  }

  /** The four-line description of one record. */
  function Details(p: Product): string
  {
    "Product Name: " + p.name + "\nDescription: " + p.description +
    "\nPrice: $" + p.price + "\nStock Available: " + YesNo(p.stock)
  }

  /** What one iteration of a listing loop appends for a record. */
  function Block(p: Product): string
  {
    "\n" + Details(p) + "\n"
  }

  /** The blocks of all records, one after another. */
  function Blocks(products: seq<Product>): string
  {
    if products == [] then "" else Block(products[0]) + Blocks(products[1..])
  }

  function Listing(header: string, products: seq<Product>): string
  {
    header + Blocks(products)
  }

  /** A listing when there is something to list, the fixed apology otherwise. */
  function ListingOr(products: seq<Product>, header: string, none: string): string
  {
    if products == [] then none else Listing(header, products)
  }

  /** The user asks for the whole catalog, in English or in Spanish. */
  predicate AsksForAll(message: string)
  {
    Contains(Lower(message), "what products") || Contains(Lower(message), "qué más tienes")
  }

  predicate AsksAboutSolar(message: string)
  {
    Contains(Lower(message), "solar")
  }

  predicate AsksAboutWater(message: string)
  {
    Contains(Lower(message), "how much") && Contains(Lower(message), "water")
  }

  /** Answer to a function call; None when the name or the argument is not recognised. */
  function CallReply(catalog: seq<Product>, name: string, arguments: Arguments): Option<string>
  {
    if name == "get_product_info" && arguments.productName.Some? then
      var found := ProductInfo(catalog, arguments.productName.value);
      Some(if found != [] then Details(found[0]) else NotFound)
    else if name == "check_stock" && arguments.productName.Some? then
      var status := CheckStock(catalog, arguments.productName.value);
      // a JSON null stock is Python's None, like a missing record
      Some(if status.Some? && !status.value.Null? then
             (if InStock(status.value) then InStockText else OutOfStockText)
           else NotFound)
    else
      None
  }

  /** The keyword cascade applied to the user's own text, first rule first. */
  function KeywordReply(catalog: seq<Product>, message: string): string
  {
    if AsksForAll(message) then ListingOr(AllProducts(catalog), AllHeader, NoProducts)
    else if AsksAboutSolar(message) then ListingOr(RecommendProducts(catalog, "solar"), SolarHeader, NoSolar)
    else if AsksAboutWater(message) then ListingOr(RecommendProducts(catalog, "water"), WaterHeader, NoWater)
    else ListingOr(RecommendProducts(catalog, message), GeneralHeader, NoRelated)
  }

  /** What `create_assistant` returns for a message, given the chat model's reply. */
  function Reply(catalog: seq<Product>, message: string, reply: ModelReply): Option<string>
  {
    match reply
    case FunctionCall(name, arguments) => CallReply(catalog, name, arguments)
    case PlainText => Some(KeywordReply(catalog, message))
  }

  lemma {:induction false} BlocksAppend(a: seq<Product>, b: seq<Product>)
    ensures Blocks(a + b) == Blocks(a) + Blocks(b)
    decreases |a|
  {
    if a == [] {
      assert a + b == b;
    } else {
      assert (a + b)[1..] == a[1..] + b;
      BlocksAppend(a[1..], b);
    }
  }

  /** Stated once for strings, so that the solver need not compare texts character by character. */
  lemma AppendAssoc(a: string, b: string, c: string)
    ensures (a + b) + c == a + (b + c)
  {
  }

  /** Extending a prefix of the products by one record appends that record's block. */
  lemma BlocksStep(products: seq<Product>, i: nat)
    requires i < |products|
    ensures Blocks(products[..i + 1]) == Blocks(products[..i]) + Block(products[i])
  {
    assert products[..i + 1] == products[..i] + [products[i]];
    BlocksAppend(products[..i], [products[i]]);
    assert Blocks([products[i]]) == Block(products[i]) + Blocks([]);
  }

  /** A listing is its header followed by one block per product, in the given order. */
  lemma ListingInOrder(header: string, products: seq<Product>, k: nat)
    requires k < |products|
    ensures Listing(header, products)
         == header + Blocks(products[..k]) + Block(products[k]) + Blocks(products[k + 1..])
  {
    var before, after := products[..k], products[k + 1..];
    assert products == before + ([products[k]] + after);
    BlocksAppend(before, [products[k]] + after);
    assert ([products[k]] + after)[1..] == after;
    AppendAssoc(header, Blocks(before), Block(products[k]) + Blocks(after));
    AppendAssoc(header + Blocks(before), Block(products[k]), Blocks(after));
  }

  /** The `response_message += ...` loop of a listing branch. */
  method BuildListing(header: string, products: seq<Product>) returns (message: string)
    ensures message == Listing(header, products)
  {
    message := header;
    assert products[..0] == [];
    for i := 0 to |products|
      invariant message == header + Blocks(products[..i])
    {
      BlocksStep(products, i);
      AppendAssoc(header, Blocks(products[..i]), Block(products[i]));
      message := message + Block(products[i]);
    }
    assert products[..|products|] == products;
  }

  /** `create_assistant` after the chat model has answered. */
  method CreateAssistant(catalog: seq<Product>, message: string, reply: ModelReply)
    returns (response: Option<string>)
    ensures response == Reply(catalog, message, reply)
  {
    if reply.FunctionCall? {
      var func, params := reply.name, reply.arguments;
      if func == "get_product_info" && params.productName.Some? {
        var productInfo := ProductInfo(catalog, params.productName.value);
        if productInfo != [] {
          return Some(Details(productInfo[0]));
        } else {
          return Some(NotFound);
        }
      } else if func == "check_stock" && params.productName.Some? {
        var stockStatus := CheckStock(catalog, params.productName.value);
        if stockStatus.Some? && !stockStatus.value.Null? {
          return Some(if InStock(stockStatus.value) then InStockText else OutOfStockText);
        } else {
          return Some(NotFound);
        }
      }
      return None;
    }
    var lowered := Lower(message);
    if Contains(lowered, "what products") || Contains(lowered, "qué más tienes") {
      var allProducts := AllProducts(catalog);
      if allProducts != [] {
        var listing := BuildListing(AllHeader, allProducts);
        return Some(listing);
      } else {
        return Some(NoProducts);
      }
    }
    if Contains(lowered, "solar") {
      var solarProducts := RecommendProducts(catalog, "solar");
      if solarProducts != [] {
        var listing := BuildListing(SolarHeader, solarProducts);
        return Some(listing);
      } else {
        return Some(NoSolar);
      }
    }
    if Contains(lowered, "how much") && Contains(lowered, "water") {
      var waterProducts := RecommendProducts(catalog, "water");
      if waterProducts != [] {
        var listing := BuildListing(WaterHeader, waterProducts);
        return Some(listing);
      } else {
        return Some(NoWater);
      }
    }
    var recommended := RecommendProducts(catalog, message);
    if recommended != [] {
      var listing := BuildListing(GeneralHeader, recommended);
      return Some(listing);
    } else {
      return Some(NoRelated);
    }
  }

  /** No reply exactly for an unknown function name or a call without `product_name`. */
  lemma NoReplyExactly(catalog: seq<Product>, message: string, reply: ModelReply)
    ensures Reply(catalog, message, reply).None?
        <==> reply.FunctionCall? &&
             (reply.arguments.productName.None? ||
              (reply.name != "get_product_info" && reply.name != "check_stock"))
  {
  }

  /** A product lookup that matches describes the first matching record, and only it. */
  lemma InfoCallDescribesFirstMatch(catalog: seq<Product>, message: string, productName: string, i: nat)
    requires i < |catalog| && NameMatches(productName, catalog[i])
    requires forall j :: 0 <= j < i ==> !NameMatches(productName, catalog[j])
    ensures Reply(catalog, message, FunctionCall("get_product_info", Arguments(Some(productName))))
         == Some(Details(catalog[i]))
  {
    ProductInfoFirstMatch(catalog, productName, i);
  }

  /** A stock check that matches reports the stock of the first matching record. */
  lemma StockCallReportsFirstMatch(catalog: seq<Product>, message: string, productName: string, i: nat)
    requires i < |catalog| && NameMatches(productName, catalog[i])
    requires forall j :: 0 <= j < i ==> !NameMatches(productName, catalog[j])
    ensures Reply(catalog, message, FunctionCall("check_stock", Arguments(Some(productName))))
         == Some(if catalog[i].stock.Null? then NotFound
                 else if InStock(catalog[i].stock) then InStockText else OutOfStockText)
  {
    CheckStockFirstMatch(catalog, productName, i);
  }

  /**
   * A stock check answers "not found" exactly when no record matches or the
   * first matching record's stock is null: both are Python's `None`.
   */
  lemma StockCallNotFoundExactly(catalog: seq<Product>, message: string, productName: string)
    ensures Reply(catalog, message, FunctionCall("check_stock", Arguments(Some(productName)))) == Some(NotFound)
        <==> ProductInfo(catalog, productName) == [] || ProductInfo(catalog, productName)[0].stock.Null?
  {
  }

  /** Either call with a name that matches no record answers "not found". */
  lemma CallMissIsNotFound(catalog: seq<Product>, message: string, name: string, productName: string)
    requires name == "get_product_info" || name == "check_stock"
    requires forall p :: p in catalog ==> !NameMatches(productName, p)
    ensures Reply(catalog, message, FunctionCall(name, Arguments(Some(productName)))) == Some(NotFound)
  {
  }

  /** A plain-text reply always yields an answer. */
  lemma PlainTextAlwaysAnswers(catalog: seq<Product>, message: string)
    ensures Reply(catalog, message, PlainText).Some?
  {
  }

  /** Asking for all products wins over every other keyword. */
  lemma ListAllTakesPriority(catalog: seq<Product>, message: string)
    requires AsksForAll(message)
    ensures Reply(catalog, message, PlainText)
         == Some(if catalog == [] then NoProducts else Listing(AllHeader, catalog))
  {
  }

  /** "solar" wins over "how much" + "water" and over the general fallback. */
  lemma SolarTakesPriority(catalog: seq<Product>, message: string)
    requires !AsksForAll(message) && AsksAboutSolar(message)
    ensures Reply(catalog, message, PlainText)
         == Some(ListingOr(RecommendProducts(catalog, "solar"), SolarHeader, NoSolar))
  {
  }

  /** "how much" + "water" wins over the general fallback. */
  lemma WaterTakesPriority(catalog: seq<Product>, message: string)
    requires !AsksForAll(message) && !AsksAboutSolar(message) && AsksAboutWater(message)
    ensures Reply(catalog, message, PlainText)
         == Some(ListingOr(RecommendProducts(catalog, "water"), WaterHeader, NoWater))
  {
  }

  /** Without any keyword, the whole message is the recommendation query. */
  lemma GeneralFallback(catalog: seq<Product>, message: string)
    requires !AsksForAll(message) && !AsksAboutSolar(message) && !AsksAboutWater(message)
    ensures Reply(catalog, message, PlainText)
         == Some(ListingOr(RecommendProducts(catalog, message), GeneralHeader, NoRelated))
  {
  }

  /** With an empty catalog every listing branch gives its fixed apology. */
  lemma EmptyCatalogApologises(message: string)
    ensures Reply([], message, PlainText)
         == Some(if AsksForAll(message) then NoProducts
                 else if AsksAboutSolar(message) then NoSolar
                 else if AsksAboutWater(message) then NoWater
                 else NoRelated)
  {
  }
}
