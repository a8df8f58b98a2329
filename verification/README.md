# Warehouse inventory engine — Dafny model

This project models the client-side inventory engine of a warehouse web
application. It has three parts.

- **Availability calculator.** It indexes the article list by id
  (`getArticlesById`). It tests one product requirement against stock:
  `amountRequired * modifier <= amountInStock` (`checkArticleAvailability`).
  It calls a product available in a quantity when every requirement passes
  (`checkProductAvailability`).
- **Inventory mirrors.** The articles, products and sales providers each
  hold a list and a loading flag. After a successful remote call they patch
  the list locally: append on create, replace-by-id on update, merge-by-id on
  the bulk article update, filter on delete, replace wholesale on fetch.
  After a failed call the list stays as it was.
- **Sale coordinator.** `createSale` raises the `isSaleInProgress` guard and
  records the sale remotely. On success it appends the sale and lowers the
  guard. It then computes one deduction `{id, amountToSubtract =
  amountRequired * amountSold}` per requirement of the sold product and
  hands the list to `updateArticles`.

Files, one module each:

- `inventory.dfy`: the entities and the remote outcome.
- `wrappers.dfy`: `Option`.
- `articles_by_id.dfy`, `article_availability.dfy`, `product_availability.dfy`: the calculator.
- `list_patch.dfy`: the map and filter patches, shared by the three providers.
- `articles.dfy`, `products.dfy`, `sales.dfy`: one class per provider.

The pure code is written as functions and lemmas. Each provider is a class
whose fields are the React state (`articles`, `isArticlesDataFetching`, …).
Its methods assign those fields as the setters do. Every remote call is
replaced by a parameter of type `Remote<T> = Ok(payload) | Err`.
`fetchX` and `createSale` pause at an `await`, so each is split into two
methods, `StartFetch`/`CompleteFetch` and `BeginSale`/`CompleteSale`. The
split shows that the flag or guard is up while the call is pending. The
composite methods `FetchX` and `CreateSale` run both halves.

The code assumes several things it does not enforce: requirements are
positive, stock is non-negative, ids are unique, and the product of a sale is
present in the products mirror. The model follows the code rather than
these assumptions:

- Quantities are plain integers, and nothing in the code forces stock to be
  non-negative or requirements to be positive. Lemmas that need a sign ask
  for it.
- `updateArticle`, `updateProduct` and `updateSale` replace *every* item
  with the given id, not just one.
- In `createSale`, a product that is missing from the products mirror makes
  `product.articles` throw a TypeError inside the `try`. This happens after
  the sale has been appended and the guard lowered. The `catch` takes the
  TypeError and raises the "sale was not registered" alert, and no
  deduction is sent. `SalesContext.SaleDeduction` returns `None` in that
  case. The `catch` then runs `JSON.parse(error.message)` on a message that
  is not JSON, so `createSale` still rejects afterwards. The state changes
  are the ones listed here.
- The guard covers only the sale request. It is down before the deduction is
  sent, and a failed deduction does not undo the sale. The model keeps this
  behaviour: `CreateSale` runs `CompleteSale` before
  `ArticlesProvider.UpdateArticles`.
- A missing article id in the availability check is still a crash in the
  code, so `CheckArticleAvailability` and `CheckProductAvailability` require
  every id to be present.

## Model

| member | source | states |
|---|---|---|
| ArticlesById.GetArticlesById | src/utils/getArticlesById.js:1-6 | The empty (or omitted) list gives the empty map. The keys are exactly the ids in the list. Each key maps to an article of the list that has that id. |
| ArticlesById.IndexOfSnoc | src/utils/getArticlesById.js:3 | One reduce step: indexing `s + [x]` stores `x` under its id over the index of `s`. |
| ArticlesById.LastOccurrenceWins | src/utils/getArticlesById.js:3 | When ids repeat, the index holds the last article with that id in list order. |
| ArticlesById.EveryIdIndexed | src/utils/getArticlesById.js:2-5 | Every id of the input is a key, and the article stored under it has that id. |
| ArticlesById.IndexOfConcat | src/utils/getArticlesById.js:2-5 | Indexing `a + b` equals the index of `a` overridden by the index of `b`. |
| ArticleAvailability.AvailabilityBoundary | src/utils/checkArticleAvailability.js:4 | `amountRequired * modifier == amountInStock` passes, and one unit over the stock fails. |
| ArticleAvailability.ZeroModifierAvailable | src/utils/checkArticleAvailability.js:4 | With modifier 0 and non-negative stock, every requirement passes. |
| ArticleAvailability.AvailabilityAntitone | src/utils/checkArticleAvailability.js:4 | With `amountRequired >= 0`, passing at m implies passing at every m' with 0 <= m' <= m. |
| ArticleAvailability.CheckArticleAvailability | src/utils/checkArticleAvailability.js:1-6 | Requires `item.id` to be a key of the index. The test is `amountRequired * modifier <= amountInStock`: a positive requirement passes exactly when the modifier is at most the units the stock covers, and a zero requirement passes exactly when the stock is not negative. |
| ArticleAvailability.UnitsCovered | src/utils/checkArticleAvailability.js:4 | For a positive requirement, the units the stock covers: the largest u with `amountRequired * u <= stock`. |
| ProductAvailability.AvailabilityFlags | src/utils/checkProductAvailability.js:9-11 | The mapped flag list has one entry per requirement, in order, each that requirement's stock test. |
| ProductAvailability.CheckProductAvailability | src/utils/checkProductAvailability.js:3-15 | Requires every requirement id to be an article id. The result is true iff every requirement passes its stock test against the indexed articles. Defaults are `[]`, `[]` and 1. |
| ProductAvailability.NoRequirementsAlwaysAvailable | src/utils/checkProductAvailability.js:3-14 | An empty requirement list is available at any modifier, and the all-defaults call is true. |
| ProductAvailability.OneShortfallBlocks | src/utils/checkProductAvailability.js:13-14 | If any single requirement fails, the product is unavailable. |
| ProductAvailability.OrderIndependent | src/utils/checkProductAvailability.js:9-14 | Two requirement lists with the same multiset give the same answer. |
| ProductAvailability.ProductAvailabilityAntitone | src/utils/checkProductAvailability.js:9-14 | With non-negative requirements, available at m implies available at every m' with 0 <= m' <= m. |
| ProductAvailability.ZeroUnitsAvailable | src/utils/checkProductAvailability.js:9-14 | With no negative stock, zero units of any resolvable product are available. |
| ProductAvailability.TwoPerUnitFromTen | src/utils/checkProductAvailability.js:8-14 | Ten a1 in stock and two a1 per unit: three units are available and six are not. |
| ListPatch.ReplaceById | src/context/articles.jsx:79-81 | Length and order are kept. Every item with the id becomes the payload, and every other item is unchanged. |
| ListPatch.RemoveById | src/context/articles.jsx:134 | No remaining item has the id. Every item without the id remains. Nothing new appears. |
| ListPatch.ReplaceAbsentIsNoOp | src/context/articles.jsx:79-81 | An update whose id matches no item leaves the list equal to what it was. |
| ListPatch.RemoveAbsentIsNoOp | src/context/articles.jsx:134 | A delete whose id matches no item leaves the list equal to what it was. |
| ListPatch.RemoveByIdOfConcat | src/context/articles.jsx:134 | Filtering `a + b` equals filtering `a`, then `b`: the survivors keep their relative order. |
| ListPatch.RemoveByIdIdempotent | src/context/articles.jsx:134 | Deleting the same id twice equals deleting it once. |
| ListPatch.RemoveByIdLength | src/context/articles.jsx:134 | The length drops by exactly the number of items with the id. |
| ArticlesContext.ApplyChanged | src/context/articles.jsx:109-113 | Length and order are kept. An article whose id is a key of the changed map becomes that entry, and every other article is unchanged. |
| ArticlesContext.MergeById | src/context/articles.jsx:107-114 | Length, order and ids are kept. Articles the response does not name are unchanged. Named articles become a response article. Nothing absent from the mirror is added. |
| ArticlesContext.MergeTakesLastResponseItem | src/context/articles.jsx:107-111 | A mirror article named in the response becomes the response's last article with that id. |
| ArticlesContext.MergeDeductionReply | src/context/articles.jsx:107-114 | The mirror holds a1 with stock 10 and the reply says a1 has 4: the mirror then shows 4. |
| ArticlesContext.ArticlesProvider.constructor | src/context/articles.jsx:9-11 | Starts with an empty list, the flag down and no alerts. |
| ArticlesContext.ArticlesProvider.StartFetch | src/context/articles.jsx:17-18 | Raises `isArticlesDataFetching` and changes nothing else. |
| ArticlesContext.ArticlesProvider.CompleteFetch | src/context/articles.jsx:19-36 | Success replaces the list wholesale and failure keeps it. The flag is down on both paths. |
| ArticlesContext.ArticlesProvider.FetchArticles | src/context/articles.jsx:17-37 | The whole fetch: wholesale replace on success, list unchanged on failure, flag down after either. |
| ArticlesContext.ArticlesProvider.CreateArticle | src/context/articles.jsx:39-60 | Success appends the server's article at the end, keeping every earlier one. Failure changes nothing. |
| ArticlesContext.ArticlesProvider.UpdateArticle | src/context/articles.jsx:62-86 | Success applies `ReplaceById` with the server's article. Failure changes nothing. |
| ArticlesContext.ArticlesProvider.UpdateArticles | src/context/articles.jsx:88-121 | Success applies `MergeById` with the response. Failure keeps the list and records the "warehouse not updated" alert. |
| ArticlesContext.ArticlesProvider.DeleteArticle | src/context/articles.jsx:123-139 | Success applies `RemoveById`. Failure changes nothing. |
| ProductContext.ProductProvider.constructor | src/context/products.jsx:9-11 | Starts with an empty list and the flag down. |
| ProductContext.ProductProvider.StartFetch | src/context/products.jsx:17-18 | Raises `isProductsDataFetching` and leaves the list unchanged. |
| ProductContext.ProductProvider.CompleteFetch | src/context/products.jsx:19-34 | Success replaces the list wholesale and failure keeps it. The flag is down on both paths. |
| ProductContext.ProductProvider.FetchProducts | src/context/products.jsx:17-35 | The whole fetch: wholesale replace on success, list unchanged on failure, flag down after either. |
| ProductContext.ProductProvider.CreateProduct | src/context/products.jsx:37-58 | Success appends the server's product at the end. Failure changes nothing. |
| ProductContext.ProductProvider.UpdateProduct | src/context/products.jsx:60-86 | Success applies `ReplaceById` with the server's product. Failure changes nothing. |
| ProductContext.ProductProvider.DeleteProduct | src/context/products.jsx:88-105 | Success applies `RemoveById`. Failure changes nothing. |
| SalesContext.FindProduct | src/context/sales.jsx:64 | The result, if any, is a product of the list with the id. It is `None` exactly when no product has the id. Otherwise it is the product at the first index holding the id. |
| SalesContext.FindReturnsFirst | src/context/sales.jsx:64 | Among several products with the id, the first in list order is returned. |
| SalesContext.Deductions | src/context/sales.jsx:65-68 | Same length and order as the requirements. Element i is `{id: articles[i].id, amountToSubtract: articles[i].amountRequired * amountSold}`. |
| SalesContext.DeductionsWithinStock | src/context/sales.jsx:65-68 | If the product is available at `amountSold`, no deduction asks for more of an article than the mirror holds. |
| SalesContext.DeductionForThreeUnits | src/context/sales.jsx:65-68 | Three units at two a1 per unit give the deduction list `[{a1, 6}]`. |
| SalesContext.SaleDeduction | src/context/sales.jsx:53-70 | A deduction is issued iff the server recorded the sale and a product with the sale's product id exists. It is then the deductions for `amountSold` of the first such product in list order. |
| SalesContext.SalesProvider.constructor | src/context/sales.jsx:11-13 | Starts with no sales, both flags down and no alerts. |
| SalesContext.SalesProvider.StartFetch | src/context/sales.jsx:21-22 | Raises `isSalesDataFetching` and changes nothing else. |
| SalesContext.SalesProvider.CompleteFetch | src/context/sales.jsx:23-38 | Success replaces the sales wholesale and failure keeps them. The flag is down on both paths. |
| SalesContext.SalesProvider.FetchSales | src/context/sales.jsx:21-39 | The whole fetch: wholesale replace on success, sales unchanged on failure, flag down after either. |
| SalesContext.SalesProvider.BeginSale | src/context/sales.jsx:41-42 | Raises `isSaleInProgress` and changes nothing else. |
| SalesContext.SalesProvider.CompleteSale | src/context/sales.jsx:43-75 | The guard is down on every path. Success appends the recorded sale at the end. It returns `SaleDeduction`. When no deduction results, it records the "sale not registered" alert. |
| SalesContext.SalesProvider.CreateSale | src/context/sales.jsx:41-76 | The full cycle. Sales, guard and alerts behave as in `CompleteSale`. Only when a deduction is issued do the articles receive `UpdateArticles`: merged on success, unchanged plus the "warehouse not updated" alert on failure. |
| SalesContext.SalesProvider.UpdateSale | src/context/sales.jsx:78-100 | Success applies `ReplaceById` with the server's sale. Failure changes nothing. |
| SalesContext.SalesProvider.DeleteSale | src/context/sales.jsx:102-120 | Success applies `RemoveById`. Failure changes nothing. |

`SalesContext.SaleCycles` is a client of these contracts. It walks one sale
through three outcomes: full success, a refused sale, and a recorded sale
whose deduction fails.

## Left out

- HTTP transport is not modelled: `fetch`, URLs, methods, headers,
  `response.json()` and the `response.ok` test. Each call becomes a
  `Remote<T>` parameter.
- Request bodies (`newArticle`, `updatedProduct`, `newSale` fields, the
  deduction list) are only serialised and sent by the code. They are not
  parameters, except that `createSale` returns the deduction list it hands to
  `updateArticles`.
- `console.error` is not modelled. Neither is the rejected promise that
  follows a failure: the `JSON.parse(error)` in the `catch` blocks of
  `updateArticles` and `deleteSale`, and the `JSON.parse(error.message)` in
  `createSale`'s `catch`, throw again after the state changes are done.
  `createSale`'s parse fails on a missing product and on network or
  body-decoding failures. `alert` is kept as an entry in a per-provider
  `alerts` log.
- Asynchronous interleaving is not modelled. This covers the three providers
  loading concurrently, the un-awaited `updateArticles` inside `createSale`,
  and a new sale starting before an earlier deduction resolves. Each method
  runs as one sequential step on the current state.
- React's stale closures and state batching are not modelled
  (`setSales([...sales, data])` reading an old `sales`).
- The initial fetch that `useEffect` runs when a provider mounts is not
  modelled. A caller invokes the `Fetch…` methods.
- A remote call that never completes is not modelled. It would leave the
  flag or guard up forever, which is the state after `StartFetch` or
  `BeginSale` with no completion.
- Quantities are integers, not JavaScript numbers. Fractional modifiers,
  float rounding and the string-valued quantity from the input field are not
  modelled.
- Ids are strings. `Object.keys` turns numeric ids into strings, which would
  make the `includes` test in `updateArticles` fail. That case does not arise
  and is not modelled.
- CheckArticleAvailability: modelled uncurried, taking `(articlesById,
  modifier, item)` instead of returning a closure over the first two.
- The UI is not modelled (`ProductItem.jsx`, `ProductList.jsx`, `App.jsx`,
  `ErrorBoundary.jsx`, `Spinner.jsx`). This includes the sale button rule,
  which is only `!available || inProgress`.
