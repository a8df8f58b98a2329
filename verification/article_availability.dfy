/**
 * The per-requirement stock test (src/utils/checkArticleAvailability.js).
 *
 * The source returns a closure over `articlesById` and `modifier` that is
 * then mapped over a product's requirements; here the three arguments are
 * passed together.
 */
module ArticleAvailability {
  import opened Inventory

  /**
   * For a positive requirement, the number of product units the stock can
   * cover: `amountInStock / amountRequired` rounded down.
   */
  function UnitsCovered(stock: int, amountRequired: int): (units: int)
    requires amountRequired > 0
    ensures amountRequired * units <= stock < amountRequired * (units + 1)
  {
    stock / amountRequired
  }

  /**
   * Whether `modifier` product units' worth of requirement `item` is in
   * stock. The source reads `articlesById[item.id]` without a presence
   * check and would crash on a missing id, so the id must be a key.
   * A positive requirement passes exactly up to the units the stock
   * covers; a zero requirement passes exactly when the stock is not
   * negative.
   */
  function CheckArticleAvailability(articlesById: map<Id, Article>, modifier: int, item: Requirement): (r: bool)
    requires item.id in articlesById
    ensures item.amountRequired > 0 ==>
              (r <==> modifier <= UnitsCovered(articlesById[item.id].amountInStock, item.amountRequired))
    ensures item.amountRequired == 0 ==> (r <==> articlesById[item.id].amountInStock >= 0)
  {
    item.amountRequired * modifier <= articlesById[item.id].amountInStock
  }

  /** Consuming exactly the stock is allowed; one unit more is not. */
  lemma AvailabilityBoundary(articlesById: map<Id, Article>, modifier: int, item: Requirement)
    requires item.id in articlesById
    ensures item.amountRequired * modifier == articlesById[item.id].amountInStock ==>
              CheckArticleAvailability(articlesById, modifier, item)
    ensures item.amountRequired * modifier == articlesById[item.id].amountInStock + 1 ==>
              !CheckArticleAvailability(articlesById, modifier, item)
  {
  }

  /** Zero units need nothing, so any non-negative stock suffices. */
  lemma ZeroModifierAvailable(articlesById: map<Id, Article>, item: Requirement)
    requires item.id in articlesById
    requires articlesById[item.id].amountInStock >= 0
    ensures CheckArticleAvailability(articlesById, 0, item)
  {
  }

  /** With a non-negative requirement, what is available for m units is available for fewer. */
  lemma AvailabilityAntitone(articlesById: map<Id, Article>, m: int, m': int, item: Requirement)
    requires item.id in articlesById
    requires item.amountRequired >= 0 && 0 <= m' <= m
    requires CheckArticleAvailability(articlesById, m, item)
    ensures CheckArticleAvailability(articlesById, m', item)
  {
  }

}
