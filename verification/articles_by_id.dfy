/**
 * Indexing an article list by id (src/utils/getArticlesById.js).
 *
 * The source folds the list from the left, and each step builds a fresh
 * object `{ ...acc, [article.id]: article }`, so a later article with an
 * id already seen overwrites the earlier one. Values are immutable here, so
 * the input list cannot be changed by the call.
 */
module ArticlesById {
  import opened Inventory

  /** `getArticlesById(articles = [])`: the id -> article index of a list. */
  function GetArticlesById(articles: seq<Article> := []): (r: map<Id, Article>)
    ensures articles == [] ==> r == map[]
    ensures r.Keys == ArticleIds(articles)
    ensures forall k :: k in r ==> r[k].id == k && r[k] in articles
  {
    if articles == [] then map[]
    else
      var init, last := articles[..|articles| - 1], articles[|articles| - 1];
      assert articles == init + [last];
      GetArticlesById(init)[last.id := last]
  }

  /** Position `i` holds the last article of the list that carries its id. */
  predicate IsLastWithId(articles: seq<Article>, i: int)
  {
    0 <= i < |articles| &&
    forall j :: i < j < |articles| ==> articles[j].id != articles[i].id
  }

  /** Duplicated ids: the last occurrence in list order is the one indexed. */
  lemma {:induction false} LastOccurrenceWins(articles: seq<Article>, i: int)
    requires IsLastWithId(articles, i)
    ensures articles[i].id in GetArticlesById(articles)
    ensures GetArticlesById(articles)[articles[i].id] == articles[i]
  {
    var n := |articles|;
    if i < n - 1 {
      var init := articles[..n - 1];
      assert articles[n - 1].id != articles[i].id;
      assert IsLastWithId(init, i);
      LastOccurrenceWins(init, i);
    }
  }

  /** Every id of the list is a key, and it maps to an article with that id. */
  lemma EveryIdIndexed(articles: seq<Article>, i: int)
    requires 0 <= i < |articles|
    ensures articles[i].id in GetArticlesById(articles)
    ensures GetArticlesById(articles)[articles[i].id].id == articles[i].id
  {
  }

  /** One step of the fold: indexing `s + [x]` is the index of `s` with `x` stored under its id. */
  lemma IndexOfSnoc(s: seq<Article>, x: Article)
    ensures GetArticlesById(s + [x]) == GetArticlesById(s)[x.id := x]
  {
  }

  lemma UpdateOverUnion<K, V>(m: map<K, V>, n: map<K, V>, k: K, v: V)
    ensures (m + n)[k := v] == m + n[k := v]
  {
  }

  /**
   * The fold distributes over concatenation: indexing `a + b` is indexing
   * `a`, then overriding with the index of `b`.
   */
  lemma {:induction false} IndexOfConcat(a: seq<Article>, b: seq<Article>)
    ensures GetArticlesById(a + b) == GetArticlesById(a) + GetArticlesById(b)
  {
    if b == [] {
      assert a + b == a;
    } else {
      var init, last := b[..|b| - 1], b[|b| - 1];
      assert a + b == (a + init) + [last] && b == init + [last];
      IndexOfConcat(a, init);
      IndexOfSnoc(a + init, last);
      IndexOfSnoc(init, last);
      UpdateOverUnion(GetArticlesById(a), GetArticlesById(init), last.id, last);
    }
  }

}
