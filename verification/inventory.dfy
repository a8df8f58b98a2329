/**
 * The entities the warehouse client mirrors from the remote inventory
 * service, and the abstract outcome of one remote call.
 *
 * Quantities are mathematical integers: the client never validates them,
 * so no sign is imposed here; lemmas that need a sign say so.
 */
module Inventory {

  /** Opaque identifiers are strings. */
  type Id = string

  /** A stocked raw unit. */
  datatype Article = Article(id: Id, name: string, amountInStock: int)

  /** One entry of a product's `articles` list: `amountRequired` units of article `id` per product unit. */
  datatype Requirement = Requirement(id: Id, amountRequired: int)

  /** A sellable assembly of articles. */
  datatype Product = Product(id: Id, name: string, articles: seq<Requirement>)

  /** The body of a sale-creation request: no id yet. */
  datatype NewSale = NewSale(productId: Id, amountSold: int)

  /** A sale as returned by the remote service. */
  datatype Sale = Sale(id: Id, productId: Id, amountSold: int)

  /** One element of the bulk stock-deduction request. */
  datatype Deduction = Deduction(id: Id, amountToSubtract: int)

  /**
   * What a remote call comes back with: the decoded payload of a 2xx
   * response, or a failure (non-2xx status, network error, bad body).
   * It stands in for `fetch` and `response.json()`.
   */
  datatype Remote<T> = Ok(payload: T) | Err

  /** The user-visible notifications (`alert`) the core raises. */
  datatype Alert =
    | SaleNotRegistered     // a sale-creation cycle failed
    | WarehouseNotUpdated   // the bulk stock deduction failed

  function ArticleKey(a: Article): (id: Id) { a.id }
  function ProductKey(p: Product): (id: Id) { p.id }
  function SaleKey(s: Sale): (id: Id) { s.id }

  /** The set of ids occurring in an article list. */
  function ArticleIds(articles: seq<Article>): (ids: set<Id>)
  {
    set a | a in articles :: a.id
  }

}
