/**
 * The sales mirror and the sale coordinator (src/context/sales.jsx).
 *
 * `createSale` raises the `isSaleInProgress` guard, asks the server to
 * record the sale, appends the recorded sale and lowers the guard, then
 * works out how much of each article the sale consumes and hands that
 * list to the articles mirror's `updateArticles`. The guard is already
 * down when the deduction is sent, and a failed deduction does not undo
 * the sale.
 */
module SalesContext {
  import opened Wrappers
  import opened Inventory
  import opened ListPatch
  import opened ArticlesById
  import opened ArticleAvailability
  import opened ProductAvailability
  import opened ArticlesContext

  /** `products.find(item => item.id === productId)`: the first product with that id, if any. */
  function FindProduct(products: seq<Product>, productId: Id): (r: Option<Product>)
    ensures r.Some? ==> r.value in products && r.value.id == productId
    ensures r.None? <==> forall i :: 0 <= i < |products| ==> products[i].id != productId
    ensures r.Some? ==> exists i :: 0 <= i < |products| && products[i] == r.value &&
                                    forall j :: 0 <= j < i ==> products[j].id != productId
  {
    if products == [] then None
    else if products[0].id == productId then Some(products[0])
    else
      var rest := FindProduct(products[1..], productId);
      if rest.Some? then
        var k :| 0 <= k < |products| - 1 && products[1..][k] == rest.value &&
                 forall j :: 0 <= j < k ==> products[1..][j].id != productId;
        assert products[k + 1] == rest.value;
        assert forall j :: 0 <= j < k + 1 ==> products[j].id != productId by {
          forall j | 0 <= j < k + 1 ensures products[j].id != productId {
            if j > 0 { assert products[j] == products[1..][j - 1]; }
          }
        }
        rest
      else rest
  }

  /** When several products share the id, `find` returns the first of them. */
  lemma {:induction false} FindReturnsFirst(products: seq<Product>, productId: Id, i: int)
    requires 0 <= i < |products| && products[i].id == productId
    requires forall j :: 0 <= j < i ==> products[j].id != productId
    ensures FindProduct(products, productId) == Some(products[i])
  {
    if i > 0 {
      FindReturnsFirst(products[1..], productId, i - 1);
    }
  }

  /**
   * `product.articles.map(a => ({ id: a.id, amountToSubtract: a.amountRequired * amountSold }))`:
   * one deduction per requirement, in the same order.
   */
  function Deductions(productArticles: seq<Requirement>, amountSold: int): (r: seq<Deduction>)
    ensures |r| == |productArticles|
    ensures forall i :: 0 <= i < |r| ==>
              r[i].id == productArticles[i].id &&
              r[i].amountToSubtract == productArticles[i].amountRequired * amountSold
  {
    if productArticles == [] then []
    else [Deduction(productArticles[0].id, productArticles[0].amountRequired * amountSold)]
         + Deductions(productArticles[1..], amountSold)
  }

  /**
   * A sale the availability test let through asks for no more of any
   * article than the mirror holds.
   */
  lemma DeductionsWithinStock(productArticles: seq<Requirement>, articles: seq<Article>, amountSold: int)
    requires AllResolvable(productArticles, articles)
    requires CheckProductAvailability(productArticles, articles, amountSold)
    ensures forall i :: 0 <= i < |productArticles| ==>
              Deductions(productArticles, amountSold)[i].id in GetArticlesById(articles) &&
              Deductions(productArticles, amountSold)[i].amountToSubtract
                <= GetArticlesById(articles)[Deductions(productArticles, amountSold)[i].id].amountInStock
  {
  }

  /** Two a1 per unit, three units sold: subtract six a1. */
  lemma DeductionForThreeUnits()
    ensures Deductions([Requirement("a1", 2)], 3) == [Deduction("a1", 6)]
  {
  }

  /**
   * What one sale-creation cycle hands to `updateArticles`: nothing when
   * the server refused the sale or the product is not in the mirror (the
   * unchecked `product.articles` throws into the same `catch`), otherwise
   * the deductions for the product's requirements.
   */
  function SaleDeduction(newSale: NewSale, response: Remote<Sale>, products: seq<Product>): (r: Option<seq<Deduction>>)
    ensures r.Some? <==> response.Ok? && exists i :: 0 <= i < |products| && products[i].id == newSale.productId
    ensures r.Some? ==> exists i :: 0 <= i < |products| && products[i].id == newSale.productId &&
                                    (forall j :: 0 <= j < i ==> products[j].id != newSale.productId) &&
                                    r.value == Deductions(products[i].articles, newSale.amountSold)
  {
    if response.Err? then None
    else match FindProduct(products, newSale.productId)
      case None => None
      case Some(product) => Some(Deductions(product.articles, newSale.amountSold))
  }

  class SalesProvider {
    var sales: seq<Sale>
    var isSalesDataFetching: bool
    var isSaleInProgress: bool
    /** The `alert`s raised so far, oldest first. */
    var alerts: seq<Alert>

    constructor ()
      ensures sales == [] && !isSalesDataFetching && !isSaleInProgress && alerts == []
    {
      sales, isSalesDataFetching, isSaleInProgress, alerts := [], false, false, [];
    }

    /** `fetchSales` up to its `await`: the flag goes up, nothing else changes. */
    method StartFetch()
      modifies this
      ensures isSalesDataFetching
      ensures sales == old(sales) && isSaleInProgress == old(isSaleInProgress) && alerts == old(alerts)
    {
      isSalesDataFetching := true;
    }

    /** `fetchSales` after its `await`: replace wholesale on success; clear the flag on both paths. */
    method CompleteFetch(response: Remote<seq<Sale>>)
      modifies this
      ensures !isSalesDataFetching
      ensures sales == if response.Ok? then response.payload else old(sales)
      ensures isSaleInProgress == old(isSaleInProgress) && alerts == old(alerts)
    {
      match response
      case Ok(data) =>
        isSalesDataFetching := false;
        sales := data;
      case Err =>
        isSalesDataFetching := false;
    }

    method FetchSales(response: Remote<seq<Sale>>)
      modifies this
      ensures !isSalesDataFetching
      ensures sales == if response.Ok? then response.payload else old(sales)
      ensures isSaleInProgress == old(isSaleInProgress) && alerts == old(alerts)
    {
      StartFetch();
      CompleteFetch(response);
    }

    /** `createSale` up to its `await`: the guard goes up, whatever it was. */
    method BeginSale()
      modifies this
      ensures isSaleInProgress
      ensures sales == old(sales) && isSalesDataFetching == old(isSalesDataFetching) && alerts == old(alerts)
    {
      isSaleInProgress := true;
    }

    /**
     * `createSale` after its `await`, up to the hand-off: on success append
     * the recorded sale; on every path lower the guard; when no deduction
     * results, alert that the sale was not registered.
     */
    method CompleteSale(newSale: NewSale, response: Remote<Sale>, products: seq<Product>)
      returns (deduction: Option<seq<Deduction>>)
      modifies this
      ensures !isSaleInProgress
      ensures sales == if response.Ok? then old(sales) + [response.payload] else old(sales)
      ensures deduction == SaleDeduction(newSale, response, products)
      ensures alerts == if deduction.Some? then old(alerts) else old(alerts) + [SaleNotRegistered]
      ensures isSalesDataFetching == old(isSalesDataFetching)
    {
      deduction := None;
      match response
      case Ok(data) =>
        sales := sales + [data];
        isSaleInProgress := false;
        match FindProduct(products, newSale.productId) {
          case Some(product) =>
            deduction := Some(Deductions(product.articles, newSale.amountSold));
          case None =>
            alerts := alerts + [SaleNotRegistered];
        }
      case Err =>
        isSaleInProgress := false;
        alerts := alerts + [SaleNotRegistered];
    }

    /**
     * The whole of `createSale(newSale)`: `products` is the products
     * mirror it reads, `articles` the articles mirror whose
     * `updateArticles` receives the deduction, and the two responses are
     * the outcomes of the sale request and of the deduction request.
     */
    method CreateSale(newSale: NewSale, response: Remote<Sale>, products: seq<Product>,
                      articles: ArticlesProvider, deductionResponse: Remote<seq<Article>>)
      returns (deduction: Option<seq<Deduction>>)
      modifies this, articles
      ensures !isSaleInProgress
      ensures sales == if response.Ok? then old(sales) + [response.payload] else old(sales)
      ensures deduction == SaleDeduction(newSale, response, products)
      ensures alerts == if deduction.Some? then old(alerts) else old(alerts) + [SaleNotRegistered]
      ensures isSalesDataFetching == old(isSalesDataFetching)
      ensures articles.articles ==
                if deduction.Some? && deductionResponse.Ok?
                then MergeById(old(articles.articles), deductionResponse.payload)
                else old(articles.articles)
      ensures articles.alerts ==
                if deduction.Some? && deductionResponse.Err?
                then old(articles.alerts) + [WarehouseNotUpdated]
                else old(articles.alerts)
      ensures articles.isArticlesDataFetching == old(articles.isArticlesDataFetching)
    {
      BeginSale();
      deduction := CompleteSale(newSale, response, products);
      if deduction.Some? {
        articles.UpdateArticles(deductionResponse);
      }
    }

    /** `updateSale(id, …)`: on success every sale with that id becomes the server's sale. */
    method UpdateSale(id: Id, response: Remote<Sale>)
      modifies this
      ensures sales == if response.Ok? then ReplaceById(old(sales), SaleKey, id, response.payload) else old(sales)
      ensures isSalesDataFetching == old(isSalesDataFetching) && isSaleInProgress == old(isSaleInProgress)
      ensures alerts == old(alerts)
    {
      if response.Ok? {
        sales := ReplaceById(sales, SaleKey, id, response.payload);
      }
    }

    /** `deleteSale(id)`: on success drop every sale with that id. */
    method DeleteSale(id: Id, response: Remote<()>)
      modifies this
      ensures sales == if response.Ok? then RemoveById(old(sales), SaleKey, id) else old(sales)
      ensures isSalesDataFetching == old(isSalesDataFetching) && isSaleInProgress == old(isSaleInProgress)
      ensures alerts == old(alerts)
    {
      if response.Ok? {
        sales := RemoveById(sales, SaleKey, id);
      }
    }
  }

  /**
   * One sale of three units of p1 (two a1 per unit, ten a1 in stock),
   * through each of its three outcomes: everything succeeds; the sale is
   * refused; the sale is recorded but the deduction fails.
   */
  method SaleCycles()
  {
    var products := [Product("p1", "chair", [Requirement("a1", 2)])];
    var newSale := NewSale("p1", 3);
    var sold := Sale("s1", "p1", 3);
    var reply := [Article("a1", "leg", 4)];
    assert FindProduct(products, "p1") == Some(products[0]);

    var sales := new SalesProvider();
    var articles := new ArticlesProvider();
    articles.FetchArticles(Ok([Article("a1", "leg", 10)]));
    var d := sales.CreateSale(newSale, Ok(sold), products, articles, Ok(reply));
    DeductionForThreeUnits();
    assert d == Some([Deduction("a1", 6)]);
    assert sales.sales == [sold] && !sales.isSaleInProgress;
    MergeDeductionReply();
    assert articles.articles == reply;

    var before := articles.articles;
    d := sales.CreateSale(newSale, Err, products, articles, Ok(reply));
    assert d == None && sales.sales == [sold] && !sales.isSaleInProgress;
    assert sales.alerts == [SaleNotRegistered] && articles.articles == before;

    d := sales.CreateSale(newSale, Ok(sold), products, articles, Err);
    assert sales.sales == [sold, sold] && articles.articles == before;
    assert articles.alerts == [WarehouseNotUpdated];
  }

}
