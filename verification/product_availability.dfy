/**
 * Whether a product can be sold in a given quantity
 * (src/utils/checkProductAvailability.js): index the articles, test every
 * requirement, and report false as soon as one test is false.
 */
module ProductAvailability {
  import opened Inventory
  import opened ArticlesById
  import opened ArticleAvailability

  /** Every requirement names an article of the list: the source indexes without checking. */
  predicate AllResolvable(productArticles: seq<Requirement>, articles: seq<Article>)
  {
    forall q :: q in productArticles ==> q.id in ArticleIds(articles)
  }

  /** `productArticles.map(checkArticleAvailability(articlesById, modifier))`. */
  function AvailabilityFlags(articlesById: map<Id, Article>, modifier: int, productArticles: seq<Requirement>): (flags: seq<bool>)
    requires forall q :: q in productArticles ==> q.id in articlesById
    ensures |flags| == |productArticles|
    ensures forall i :: 0 <= i < |flags| ==>
              flags[i] == CheckArticleAvailability(articlesById, modifier, productArticles[i])
  {
    if productArticles == [] then []
    else [CheckArticleAvailability(articlesById, modifier, productArticles[0])]
         + AvailabilityFlags(articlesById, modifier, productArticles[1..])
  }

  /**
   * `checkProductAvailability(productArticles = [], articles = [], modifier = 1)`:
   * true exactly when every requirement passes its stock test against the
   * indexed articles; `!flags.includes(false)` is always a boolean.
   */
  function CheckProductAvailability(productArticles: seq<Requirement> := [], articles: seq<Article> := [], modifier: int := 1): (r: bool)
    requires AllResolvable(productArticles, articles)
    ensures r <==> forall i :: 0 <= i < |productArticles| ==>
                    CheckArticleAvailability(GetArticlesById(articles), modifier, productArticles[i])
  {
    var articlesById := GetArticlesById(articles);
    var flags := AvailabilityFlags(articlesById, modifier, productArticles);
    assert forall i :: 0 <= i < |flags| ==> flags[i] == CheckArticleAvailability(articlesById, modifier, productArticles[i]);
    false !in flags
  }

  /** A product with no requirements is available in any quantity, the defaults included. */
  lemma NoRequirementsAlwaysAvailable(articles: seq<Article>, modifier: int)
    ensures CheckProductAvailability([], articles, modifier)
    ensures CheckProductAvailability()
  {
  }

  /** One failing requirement makes the whole product unavailable. */
  lemma OneShortfallBlocks(productArticles: seq<Requirement>, articles: seq<Article>, modifier: int, i: int)
    requires AllResolvable(productArticles, articles)
    requires 0 <= i < |productArticles|
    requires !CheckArticleAvailability(GetArticlesById(articles), modifier, productArticles[i])
    ensures !CheckProductAvailability(productArticles, articles, modifier)
  {
  }

  /** The answer depends on which requirements there are, not on their order or the index positions. */
  lemma OrderIndependent(p: seq<Requirement>, q: seq<Requirement>, articles: seq<Article>, modifier: int)
    requires multiset(p) == multiset(q)
    requires AllResolvable(p, articles)
    ensures AllResolvable(q, articles)
    ensures CheckProductAvailability(p, articles, modifier) == CheckProductAvailability(q, articles, modifier)
  {
    assert forall x :: x in p <==> x in q by {
      forall x ensures x in p <==> x in q {
        assert x in p <==> x in multiset(p);
        assert x in q <==> x in multiset(q);
      }
    }
    var byId := GetArticlesById(articles);
    if CheckProductAvailability(p, articles, modifier) {
      forall j | 0 <= j < |q| ensures CheckArticleAvailability(byId, modifier, q[j]) {
        assert q[j] in p;
        var i :| 0 <= i < |p| && p[i] == q[j];
      }
    }
    if CheckProductAvailability(q, articles, modifier) {
      forall i | 0 <= i < |p| ensures CheckArticleAvailability(byId, modifier, p[i]) {
        assert p[i] in q;
        var j :| 0 <= j < |q| && q[j] == p[i];
      }
    }
  }

  /** With non-negative requirements, a product sellable in m units is sellable in fewer. */
  lemma ProductAvailabilityAntitone(productArticles: seq<Requirement>, articles: seq<Article>, m: int, m': int)
    requires AllResolvable(productArticles, articles)
    requires forall q :: q in productArticles ==> q.amountRequired >= 0
    requires 0 <= m' <= m
    requires CheckProductAvailability(productArticles, articles, m)
    ensures CheckProductAvailability(productArticles, articles, m')
  {
    var byId := GetArticlesById(articles);
    forall i | 0 <= i < |productArticles|
      ensures CheckArticleAvailability(byId, m', productArticles[i])
    {
      AvailabilityAntitone(byId, m, m', productArticles[i]);
    }
  }

  /** With no article stock negative, zero units of any product are available. */
  lemma ZeroUnitsAvailable(productArticles: seq<Requirement>, articles: seq<Article>)
    requires AllResolvable(productArticles, articles)
    requires forall a :: a in articles ==> a.amountInStock >= 0
    ensures CheckProductAvailability(productArticles, articles, 0)
  {
  }

  /** Ten units of a1 in stock; the product needs two per unit: three units fit, six do not. */
  lemma TwoPerUnitFromTen()
    ensures CheckProductAvailability([Requirement("a1", 2)], [Article("a1", "leg", 10)], 3)
    ensures !CheckProductAvailability([Requirement("a1", 2)], [Article("a1", "leg", 10)], 6)
  {
  }

}
