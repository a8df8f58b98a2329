/**
 * The articles mirror (src/context/articles.jsx): the list of articles and
 * its loading flag, patched locally after each successful remote call and
 * left as it was after a failed one.
 */
module ArticlesContext {
  import opened Inventory
  import opened ArticlesById
  import opened ListPatch

  /** `articles.map(a => a.id in changed ? changed[a.id] : a)`. */
  function ApplyChanged(articles: seq<Article>, changed: map<Id, Article>): (r: seq<Article>)
    ensures |r| == |articles|
    ensures forall i :: 0 <= i < |articles| ==>
              r[i] == if articles[i].id in changed then changed[articles[i].id] else articles[i]
  {
    if articles == [] then []
    else [if articles[0].id in changed then changed[articles[0].id] else articles[0]]
         + ApplyChanged(articles[1..], changed)
  }

  /**
   * How `updateArticles` folds the server's list of changed articles into
   * the mirror: length, order and ids are kept, an article the response
   * names becomes a response article with that id, the others stay, and
   * a response article the mirror does not hold is never added.
   */
  function MergeById(articles: seq<Article>, data: seq<Article>): (r: seq<Article>)
    ensures |r| == |articles|
    ensures forall i :: 0 <= i < |articles| ==> r[i].id == articles[i].id
    ensures forall i :: 0 <= i < |articles| && articles[i].id !in ArticleIds(data) ==> r[i] == articles[i]
    ensures forall i :: 0 <= i < |articles| && articles[i].id in ArticleIds(data) ==> r[i] in data
  {
    ApplyChanged(articles, GetArticlesById(data))
  }

  /** When the response repeats an id, its last article with that id is the one taken. */
  lemma MergeTakesLastResponseItem(articles: seq<Article>, data: seq<Article>, k: int, i: int)
    requires 0 <= k < |articles|
    requires IsLastWithId(data, i) && data[i].id == articles[k].id
    ensures MergeById(articles, data)[k] == data[i]
  {
    LastOccurrenceWins(data, i);
  }

  /** Ten units of a1 in the mirror, the server answers a1 now has four: the mirror shows four. */
  lemma MergeDeductionReply()
    ensures MergeById([Article("a1", "leg", 10)], [Article("a1", "leg", 4)]) == [Article("a1", "leg", 4)]
  {
  }

  class ArticlesProvider {
    var articles: seq<Article>
    var isArticlesDataFetching: bool
    /** The `alert`s raised so far, oldest first. */
    var alerts: seq<Alert>

    constructor ()
      ensures articles == [] && !isArticlesDataFetching && alerts == []
    {
      articles, isArticlesDataFetching, alerts := [], false, [];
    }

    /** `fetchArticles` up to its `await`: the flag goes up, nothing else changes. */
    method StartFetch()
      modifies this
      ensures isArticlesDataFetching
      ensures articles == old(articles) && alerts == old(alerts)
    {
      isArticlesDataFetching := true;
    }

    /** `fetchArticles` after its `await`: replace wholesale on success; clear the flag on both paths. */
    method CompleteFetch(response: Remote<seq<Article>>)
      modifies this
      ensures !isArticlesDataFetching
      ensures articles == if response.Ok? then response.payload else old(articles)
      ensures alerts == old(alerts)
    {
      match response
      case Ok(data) =>
        articles := data;
        isArticlesDataFetching := false;
      case Err =>
        isArticlesDataFetching := false;
    }

    method FetchArticles(response: Remote<seq<Article>>)
      modifies this
      ensures !isArticlesDataFetching
      ensures articles == if response.Ok? then response.payload else old(articles)
      ensures alerts == old(alerts)
    {
      StartFetch();
      CompleteFetch(response);
    }

    /** `createArticle`: on success the server's article is appended at the end. */
    method CreateArticle(response: Remote<Article>)
      modifies this
      ensures articles == if response.Ok? then old(articles) + [response.payload] else old(articles)
      ensures isArticlesDataFetching == old(isArticlesDataFetching) && alerts == old(alerts)
    {
      if response.Ok? {
        articles := articles + [response.payload];
      }
    }

    /** `updateArticle(id, …)`: on success every article with that id becomes the server's article. */
    method UpdateArticle(id: Id, response: Remote<Article>)
      modifies this
      ensures articles == if response.Ok? then ReplaceById(old(articles), ArticleKey, id, response.payload) else old(articles)
      ensures isArticlesDataFetching == old(isArticlesDataFetching) && alerts == old(alerts)
    {
      if response.Ok? {
        articles := ReplaceById(articles, ArticleKey, id, response.payload);
      }
    }

    /**
     * `updateArticles(updatedItems)`: on success merge the changed articles
     * the server returns; on failure alert that the warehouse was not
     * updated and keep the (now stale) mirror.
     */
    method UpdateArticles(response: Remote<seq<Article>>)
      modifies this
      ensures articles == if response.Ok? then MergeById(old(articles), response.payload) else old(articles)
      ensures alerts == if response.Ok? then old(alerts) else old(alerts) + [WarehouseNotUpdated]
      ensures isArticlesDataFetching == old(isArticlesDataFetching)
    {
      match response
      case Ok(data) =>
        articles := MergeById(articles, data);
      case Err =>
        alerts := alerts + [WarehouseNotUpdated];
    }

    /** `deleteArticle(id)`: on success drop every article with that id. */
    method DeleteArticle(id: Id, response: Remote<()>)
      modifies this
      ensures articles == if response.Ok? then RemoveById(old(articles), ArticleKey, id) else old(articles)
      ensures isArticlesDataFetching == old(isArticlesDataFetching) && alerts == old(alerts)
    {
      if response.Ok? {
        articles := RemoveById(articles, ArticleKey, id);
      }
    }
  }

}
