# ShopBot catalog queries and reply selection, in Dafny

This project models the deterministic core of ShopBot, a command-line shopping
assistant (`default.py`). ShopBot forwards each user line to a chat model. If
the model asks for one of two functions (`get_product_info`, `check_stock`),
ShopBot runs it against an in-memory product catalog. Otherwise it applies a
fixed keyword cascade to the user's own text. The model covers:

- the four query functions over the catalog (`Catalog`): case-insensitive
  substring filters that keep catalog order, a first-match stock lookup, and
  the whole-catalog listing;
- the reply chosen once the chat model's reply is known (`Assistant`): dispatch
  of a function call, and the keyword cascade ("what products" or "qué más
  tienes", then "solar", then "how much" with "water", then the whole message as
  a recommendation query), with the listing loops that build the reply text;
- the conversation loop and its exit test (`Interaction`).

Support modules: `Text` holds ASCII lower-casing and the substring test.
`Sequences` holds an order-preserving filter (a list comprehension with a
condition) and its characterisation. `Wrappers` holds `Option`.

The catalog is a parameter instead of a module-level variable. The chat
model's reply is an input value: `FunctionCall(name, Arguments(productName))`
or `PlainText`. `productName` is `None` when the decoded argument object has no
`product_name` key. A record's `stock` is a JSON flag, quantity or null.
Listings and the "Stock Available" line use its Python truthiness. A null stock
is Python's `None`, so a stock check on a record whose stock is null answers
"Sorry, I couldn't find that product." (`Assistant.StockCallReportsFirstMatch`).

Two behaviours of the code worth noting:

- The exit test does not trim the input line (default.py:159). `" exit"` does
  not end the conversation (`Interaction.ExitExamples`).
- The "list all products" branch lists the catalog itself through
  `get_all_products` (default.py:111). It does not call `recommend_products`
  with a keyword.

## Model

| member | source | states |
|---|---|---|
| `Text.ContainsIff` | default.py:33 | The left-to-right scan used for Python's `q in s` holds exactly when `q` occurs in `s` at some position. |
| `Sequences.Filter` | default.py:33 | A list comprehension with a condition is no longer than its input. It is an order-preserving subsequence of the input. It holds every element that meets the condition, with all its copies, and nothing else. |
| `Sequences.FilterUnique` | default.py:47 | That contract determines the result: any order-preserving selection that keeps all copies of the matching elements and no other element equals the comprehension. |
| `Catalog.FailedLoadEmpty` | default.py:16-26 | When the catalog file is missing or is not valid JSON, the catalog is empty, so every product lookup, recommendation and listing finds nothing and the stock check finds no record. |
| `Catalog.ProductInfo` | default.py:31-34 | `get_product_info` returns, in catalog order, every record whose lower-cased name contains the lower-cased query, with all copies, and no other record. Its length is at most the catalog's. |
| `Catalog.ProductInfoExactly` | default.py:33 | Nothing is omitted and nothing is added: the characterisation above singles out `get_product_info`'s answer. |
| `Catalog.ProductInfoFirstMatch` | default.py:33 | The first record of the answer is the first catalog record whose name matches. |
| `Catalog.CheckStock` | default.py:37-42 | The model's `None` means that no record's name matches; otherwise the result is the stock of a matching catalog record, with a JSON-null stock kept as `Some(Null)`. Python returns `None` in both of those cases; `Assistant.StockCallNotFoundExactly` states that combined behaviour. |
| `Catalog.CheckStockFirstMatch` | default.py:39-41 | `check_stock` returns the stock of the first catalog record whose name matches. |
| `Catalog.RecommendProducts` | default.py:45-47 | `recommend_products` returns, in catalog order, every record whose name or description contains the query (ignoring case), and no other record. Its length is at most the catalog's. |
| `Catalog.RecommendProductsExactly` | default.py:47 | The characterisation singles out `recommend_products`'s answer. |
| `Catalog.InfoWithinRecommendations` | default.py:47 | Every record `get_product_info(q)` returns is also returned by `recommend_products(q)`, and in the same relative order, because a name match alone qualifies. |
| `Catalog.EmptyQueryMatchesAll` | default.py:33 | With the empty query both `get_product_info` and `recommend_products` return the whole catalog. |
| `Catalog.SolarLampRecommended` | default.py:45-47 | For a one-record catalog holding "Solar Lamp", `recommend_products("solar")` returns that record. |
| `Catalog.SolarLampStock` | default.py:37-42 | For the same catalog, `check_stock("solar lamp")` returns the lamp's `true` stock flag. |
| `Catalog.SolarLampInfo` | default.py:31-34 | For the same catalog, `get_product_info("lamp")` returns the one-element sequence holding the lamp. |
| `Assistant.BlocksAppend` | default.py:114-115 | The text appended for a list of products splits at any point into the text for each part. |
| `Assistant.ListingInOrder` | default.py:113-116 | A listing reply is its header followed by one block per product, in the order the query returned them: for every position k, the blocks before k, then product k's block, then the blocks after. |
| `Assistant.BuildListing` | default.py:113-116 | The `response_message +=` loop (the same in all four listing branches) ends with the header followed by every product's block, in order. |
| `Assistant.CreateAssistant` | default.py:89-150 | The post-API part of `create_assistant`, with its early returns and listing loops, returns exactly the reply the decision rules give. |
| `Assistant.NoReplyExactly` | default.py:96-107 | There is no reply (`None`) exactly when the model requests a function call whose name is neither `get_product_info` nor `check_stock`, or whose arguments lack `product_name`. |
| `Assistant.InfoCallDescribesFirstMatch` | default.py:96-99 | A `get_product_info` call that matches answers with the description of the first matching record only. |
| `Assistant.StockCallReportsFirstMatch` | default.py:102-105 | A `check_stock` call that matches reports the first matching record's stock: in stock, out of stock, or "not found" when that stock is null. |
| `Assistant.StockCallNotFoundExactly` | default.py:102-107 | A `check_stock` call answers "Sorry, I couldn't find that product." exactly when no record's name matches or the first matching record's stock is null, the two cases in which Python's `check_stock` returns `None`. |
| `Assistant.CallMissIsNotFound` | default.py:100-107 | Either call with a name that matches no record answers "Sorry, I couldn't find that product." |
| `Assistant.PlainTextAlwaysAnswers` | default.py:108-150 | Without a function call the assistant always produces a reply. |
| `Assistant.ListAllTakesPriority` | default.py:110-118 | A message containing "what products" or "qué más tienes" gets the all-products listing, or "no products" for an empty catalog, whatever else it mentions. |
| `Assistant.SolarTakesPriority` | default.py:121-129 | Otherwise a message mentioning "solar" gets the solar listing, even if it also asks "how much" about "water". |
| `Assistant.WaterTakesPriority` | default.py:132-140 | Otherwise a message containing "how much" and "water" gets the water listing, never the general fallback. |
| `Assistant.GeneralFallback` | default.py:143-150 | Otherwise the whole message is the recommendation query. |
| `Assistant.EmptyCatalogApologises` | default.py:117-150 | With an empty catalog each keyword branch answers with its own fixed apology: "no products" for the list-all question, the solar apology for "solar", the water apology for "how much" with "water", and "nothing related" otherwise. |
| `Interaction.ExitWordsOnly` | default.py:159 | Only a four-character line can stop the loop, because the line is not trimmed. |
| `Interaction.ExitExamples` | default.py:159 | "exit", "EXIT" and "Quit" stop the loop. " exit", "exit " and "bye" do not. |
| `Interaction.Interact` | default.py:153-164 | The loop answers every line before the first exit word, in order, each with the assistant's reply to that line. The exit line is not sent to the assistant. If input remains, the next line is an exit word. |

## Left out

- The chat-completion request and its function schema (default.py:57-87): a network call. Its reply is an input value.
- `json.loads` of the call arguments (default.py:93): the decoded object is modelled only as an optional `product_name` string. Argument payloads that are not objects, or whose `product_name` is not a string, are not modelled.
- Reading `product_catalog.json` and the diagnostic it prints (default.py:16-26): only the outcome of the read is modelled.
- Other read errors, such as a permission error or a file that is not valid text, propagate out of default.py:18-20; `LoadOutcome` has no case for them.
- A JSON file whose top-level value is not an array of product records loads without error. An empty object or empty string then behaves as the empty catalog; other values make the comprehensions (default.py:33, default.py:47) or the listing loop (default.py:114) raise. The model's catalog is always a sequence of records.
- Loading the API key from the environment (default.py:6-9): environment I/O.
- Terminal input and printing in the conversation loop (default.py:155-164): input is a finite sequence of lines, and running out of lines ends the session instead of raising an end-of-file error.
- Failures of the chat API: they propagate uncaught in default.py and are not modelled.
- `lower()` handles ASCII letters only. Python also lower-cases other letters, for example "QUÉ" to "qué", which the model does not.
- Price rendering: `price` is held as the text Python prints for it.
- Stock values other than booleans, integers and null (floats, strings); records missing a key; records whose `name` or `description` is not a string, for which `.lower()` at default.py:33 and default.py:47 raises.
