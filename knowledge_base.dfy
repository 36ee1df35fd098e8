/**
 * The knowledge-base page: published articles in their configured order,
 * searched by title or content and narrowed to one category, with a
 * short preview of each article.
 */
module KnowledgeBase {
  import opened Wrappers
  import opened Text
  import opened Seqs

  datatype Article = Article(title: string, content: string, category: string, isPublished: bool, order: int)

  datatype Category = Category(value: string, name: string)

  /** The category choices, "all" first. */
  const Categories: seq<Category> := [
    Category("all", "All Topics"),
    Category("getting_started", "Getting Started"),
    Category("recording", "Recording"),
    Category("mixing", "Mixing"),
    Category("mastering", "Mastering"),
    Category("ai_features", "AI Features"),
    Category("troubleshooting", "Troubleshooting"),
    Category("hardware", "Hardware"),
    Category("plugins", "Plugins")
  ]

  function Published(a: Article): bool {
    a.isPublished
  }

  function NegatedOrder(a: Article): int {
    -a.order
  }

  /** The fetch: the published articles, sorted by `order`, smallest first. */
  function FetchArticles(store: seq<Article>): (r: seq<Article>)
    ensures multiset(r) == multiset(Filter(store, Published))
    ensures forall i :: 0 <= i < |r| ==> r[i].isPublished && r[i] in store
    ensures forall i, j :: 0 <= i < j < |r| ==> r[i].order <= r[j].order
  {
    var published := Filter(store, Published);
    var r := SortDescending(published, NegatedOrder);
    forall i | 0 <= i < |r| ensures r[i].isPublished && r[i] in store {
      assert r[i] in multiset(published);
    }
    forall i, j | 0 <= i < j < |r| ensures r[i].order <= r[j].order {
      assert NegatedOrder(r[i]) >= NegatedOrder(r[j]);
    }
    r
  }

  /** Every published article of the store is fetched. */
  lemma PublishedAreFetched(store: seq<Article>, i: nat)
    requires i < |store| && store[i].isPublished
    ensures store[i] in FetchArticles(store)
  {
    assert store[i] in multiset(Filter(store, Published));
  }

  predicate MatchesSearch(a: Article, term: string) {
    Contains(LowerStr(a.title), LowerStr(term)) || Contains(LowerStr(a.content), LowerStr(term))
  }

  predicate MatchesCategory(a: Article, selected: string) {
    selected == "all" || a.category == selected
  }

  predicate Passes(a: Article, term: string, selected: string) {
    MatchesSearch(a, term) && MatchesCategory(a, selected)
  }

  /** `filteredArticles`. */
  function FilteredArticles(articles: seq<Article>, term: string, selected: string): (r: seq<Article>)
    ensures |r| <= |articles|
    ensures forall i :: 0 <= i < |r| ==> Passes(r[i], term, selected)
  {
    Filter(articles, (a: Article) => Passes(a, term, selected))
  }

  /** An article is listed exactly when the term occurs in its title or content and its category is selected. */
  lemma FilteredExactly(articles: seq<Article>, term: string, selected: string, i: nat)
    requires i < |articles|
    ensures articles[i] in FilteredArticles(articles, term, selected) <==> Passes(articles[i], term, selected)
  {
    var r := FilteredArticles(articles, term, selected);
    if articles[i] in r {
      var j :| 0 <= j < |r| && r[j] == articles[i];
    }
  }

  /** The listed articles keep the fetched order. */
  lemma FilteredInOrder(articles: seq<Article>, term: string, selected: string)
    ensures var idx := FilterIndices(articles, (a: Article) => Passes(a, term, selected));
      var r := FilteredArticles(articles, term, selected);
      |idx| == |r|
      && (forall k :: 0 <= k < |idx| ==> idx[k] < |articles| && articles[idx[k]] == r[k])
      && (forall k, l :: 0 <= k < l < |idx| ==> idx[k] < idx[l])
  {
    FilterKeepsOrder(articles, (a: Article) => Passes(a, term, selected));
  }

  /** Listing fetched articles keeps them sorted by `order`. */
  lemma FilteredStaySorted(store: seq<Article>, term: string, selected: string)
    ensures var r := FilteredArticles(FetchArticles(store), term, selected);
      forall i, j :: 0 <= i < j < |r| ==> r[i].order <= r[j].order
  {
    var fetched := FetchArticles(store);
    var idx := FilterIndices(fetched, (a: Article) => Passes(a, term, selected));
    FilteredInOrder(fetched, term, selected);
    var r := FilteredArticles(fetched, term, selected);
    forall i, j | 0 <= i < j < |r| ensures r[i].order <= r[j].order {
      assert fetched[idx[i]] == r[i] && fetched[idx[j]] == r[j] && idx[i] < idx[j];
    }
  }

  /** With no search term and "all" selected, every fetched article is listed. */
  lemma EmptySearchShowsAll(articles: seq<Article>)
    ensures FilteredArticles(articles, "", "all") == articles
  {
    forall i | 0 <= i < |articles| ensures Passes(articles[i], "", "all") {
      ContainsEmpty(LowerStr(articles[i].title));
    }
    FilterAll(articles, (a: Article) => Passes(a, "", "all"));
  }

  /** `content.substring(0, 120) + "..."`. */
  function Preview(content: string): (r: string)
    ensures |r| == (if |content| < 120 then |content| else 120) + 3
    ensures StartsWith(content, r[..|r| - 3]) && EndsWith(r, "...")
  {
    (if |content| <= 120 then content else content[..120]) + "..."
  }

  /** `categories.find(c => c.value === v)?.label`. */
  function CategoryLabel(v: string): (name: Option<string>)
    ensures name.None? <==> forall i :: 0 <= i < |Categories| ==> Categories[i].value != v
    ensures name.Some? ==> exists i :: 0 <= i < |Categories| && Categories[i] == Category(v, name.value)
  {
    match Find(Categories, (c: Category) => c.value == v)
    case None => None
    case Some(c) => Some(c.name)
  }

  /** The badge of each listed category is its own name. */
  lemma CategoryLabels()
    ensures CategoryLabel("mixing") == Some("Mixing")
    ensures CategoryLabel("ai_features") == Some("AI Features")
    ensures CategoryLabel("video") == None
  {
    var v := Categories;
    assert v[3].value == "mixing";
    assert v[5].value == "ai_features";
    assert forall i :: 0 <= i < 3 ==> v[i].value != "mixing";
    assert forall i :: 0 <= i < 5 ==> v[i].value != "ai_features";
    assert forall i :: 0 <= i < |v| ==> v[i].value != "video";
  }
}
