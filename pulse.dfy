/** The dashboard of the global pulse page (and of the older dashboard component,
    which repeats it line for line): the newest articles of a sector joined with
    their checks, the four counters above them, and the search box below. */
module Pulse {
  import opened Wrappers
  import opened Lists
  import opened Text
  import opened Schema
  import News
  import Ingest

  // ---------------------------------------------------------------------------
  // The join

  /** An article with the first row of each kind of check that belongs to it. */
  datatype ArticleView = ArticleView(
    article: ArticleRow,
    imageCheck: Option<ImageCheckRow>,
    textCheck: Option<TextCheckRow>,
    strategy: Option<StrategyRow>)

  /** The article with `list?.[0]` of each joined list; the rows of a list are in
      the order the store holds them. */
  function JoinArticle(t: Tables, a: ArticleRow): (v: ArticleView)
    ensures v.article == a
    ensures v.imageCheck.None? <==> forall i :: 0 <= i < |t.imageChecks| ==> t.imageChecks[i].articleId != a.id
    ensures v.imageCheck.Some? ==>
              exists i :: 0 <= i < |t.imageChecks| && t.imageChecks[i] == v.imageCheck.value &&
                          v.imageCheck.value.articleId == a.id &&
                          forall j :: 0 <= j < i ==> t.imageChecks[j].articleId != a.id
    ensures v.textCheck.None? <==> forall i :: 0 <= i < |t.textChecks| ==> t.textChecks[i].articleId != a.id
    ensures v.textCheck.Some? ==>
              exists i :: 0 <= i < |t.textChecks| && t.textChecks[i] == v.textCheck.value &&
                          v.textCheck.value.articleId == a.id &&
                          forall j :: 0 <= j < i ==> t.textChecks[j].articleId != a.id
    ensures v.strategy.None? <==> forall i :: 0 <= i < |t.strategies| ==> t.strategies[i].articleId != a.id
    ensures v.strategy.Some? ==>
              exists i :: 0 <= i < |t.strategies| && t.strategies[i] == v.strategy.value &&
                          v.strategy.value.articleId == a.id &&
                          forall j :: 0 <= j < i ==> t.strategies[j].articleId != a.id
  {
    ArticleView(a,
      FirstWhere(t.imageChecks, (r: ImageCheckRow) => r.articleId == a.id),
      FirstWhere(t.textChecks, (r: TextCheckRow) => r.articleId == a.id),
      FirstWhere(t.strategies, (r: StrategyRow) => r.articleId == a.id))
  }

  // ---------------------------------------------------------------------------
  // The query

  /** At most this many articles are loaded. */
  const PageLimit: nat := 50

  /** The sector filter: none for `all`, otherwise the sector itself. */
  predicate InSector(sector: string, a: ArticleRow) {
    sector == "all" || a.sector == sector
  }

  /** Newest first. Rows are created in id order, so the creation time orders them
      as their ids do. */
  predicate NewerFirst(a: ArticleRow, b: ArticleRow) {
    a.id >= b.id
  }

  lemma NewerFirstIsPreorder()
    ensures TotalPreorder(NewerFirst)
  {
  }

  /** The stored articles of the sector, in stored order. */
  function SectorArticles(t: Tables, sector: string): (r: seq<ArticleRow>)
    ensures forall a :: a in r <==> a in t.articles && InSector(sector, a)
    ensures multiset(r) <= multiset(t.articles)
  {
    var p := (a: ArticleRow) => InSector(sector, a);
    forall a ensures a in Filter(t.articles, p) <==> a in t.articles && InSector(sector, a) {
      FilterMembership(t.articles, p, a);
    }
    FilterSubMultiset(t.articles, p);
    Filter(t.articles, p)
  }

  /** The loaded rows: the sector's articles, newest first, fifty of them or all when
      there are fewer, none more often than stored. */
  function LoadQuery(t: Tables, sector: string): (r: seq<ArticleRow>)
    ensures |r| == if |SectorArticles(t, sector)| <= PageLimit then |SectorArticles(t, sector)| else PageLimit
    ensures multiset(r) <= multiset(SectorArticles(t, sector))
    ensures forall i :: 0 <= i < |r| ==> r[i] in t.articles && InSector(sector, r[i])
    ensures SortedBy(r, NewerFirst)
  {
    var matching := SectorArticles(t, sector);
    var sorted := InsertionSort(matching, NewerFirst);
    NewerFirstIsPreorder();
    SortIsSorted(matching, NewerFirst);
    var r := Take(sorted, PageLimit);
    TakeSorted(sorted, PageLimit, NewerFirst);
    TakeSubMultiset(sorted, PageLimit);
    assert forall i :: 0 <= i < |r| ==> r[i] in t.articles && InSector(sector, r[i]) by {
      forall i | 0 <= i < |r| ensures r[i] in t.articles && InSector(sector, r[i]) {
        assert r[i] in multiset(r);
      }
    }
    r
  }

  /** The query misses an article of the sector only when fifty newer or equally new
      ones are loaded instead. */
  lemma {:induction false} LoadQueryKeepsNewest(t: Tables, sector: string, a: ArticleRow)
    requires a in t.articles && InSector(sector, a)
    requires a !in LoadQuery(t, sector)
    ensures |LoadQuery(t, sector)| == PageLimit
    ensures forall i :: 0 <= i < PageLimit ==> LoadQuery(t, sector)[i].id >= a.id
  {
    var sorted := InsertionSort(SectorArticles(t, sector), NewerFirst);
    NewerFirstIsPreorder();
    SortIsSorted(SectorArticles(t, sector), NewerFirst);
    assert a in multiset(sorted);
    var j :| 0 <= j < |sorted| && sorted[j] == a;
    assert LoadQuery(t, sector) == Take(sorted, PageLimit);
    assert |sorted| > PageLimit;
    assert LoadQuery(t, sector) == sorted[..PageLimit];
    assert forall i | 0 <= i < PageLimit :: sorted[i] != a;
    forall i | 0 <= i < PageLimit ensures LoadQuery(t, sector)[i].id >= a.id {
      assert NewerFirst(sorted[i], sorted[j]);
    }
  }

  /** A sector with at most fifty articles is loaded completely. */
  lemma LoadQueryComplete(t: Tables, sector: string, a: ArticleRow)
    requires a in t.articles && InSector(sector, a)
    requires |SectorArticles(t, sector)| <= PageLimit
    ensures a in LoadQuery(t, sector)
  {
    var sorted := InsertionSort(SectorArticles(t, sector), NewerFirst);
    assert a in multiset(sorted);
    assert LoadQuery(t, sector) == sorted;
  }

  /** `loadArticles`' list: one view per loaded row, in the same order. */
  function Load(t: Tables, sector: string): (vs: seq<ArticleView>)
    ensures |vs| == |LoadQuery(t, sector)|
    ensures forall i :: 0 <= i < |vs| ==> vs[i] == JoinArticle(t, LoadQuery(t, sector)[i])
  {
    var rows := LoadQuery(t, sector);
    seq(|rows|, i requires 0 <= i < |rows| => JoinArticle(t, rows[i]))
  }

  /** Fetching for `all` fetches the general headlines; a fetch never asks for `all`. */
  function FetchSector(selected: string): (s: string)
    ensures s != "all"
    ensures selected == "all" ==> s == "general"
    ensures selected != "all" ==> s == selected
  {
    if selected == "all" then "general" else selected
  }

  // ---------------------------------------------------------------------------
  // The counters

  datatype Stats = Stats(total: nat, verified: nat, suspicious: nat, processing: nat)

  /** Both checks are in and say the article is sound. */
  predicate IsVerified(v: ArticleView) {
    && v.imageCheck.Some? && v.imageCheck.value.status == "verified"
    && v.textCheck.Some? && v.textCheck.value.verificationStatus == "true"
  }

  /** Either check raises a doubt. */
  predicate IsSuspicious(v: ArticleView) {
    || (v.imageCheck.Some? && (v.imageCheck.value.status == "suspicious" || v.imageCheck.value.status == "manipulated"))
    || (v.textCheck.Some? && v.textCheck.value.verificationStatus == "false")
  }

  /** A check is still missing. */
  predicate IsProcessing(v: ArticleView) {
    v.imageCheck.None? || v.textCheck.None?
  }

  predicate HasBothChecks(v: ArticleView) {
    v.imageCheck.Some? && v.textCheck.Some?
  }

  /** `updateStats`: the number of articles and how many of them each condition
      selects. A verified article is never suspicious and never processing, so
      verified and either other counter together stay within the total. */
  function ComputeStats(vs: seq<ArticleView>): (s: Stats)
    ensures s.total == |vs|
    ensures s.verified == |Filter(vs, IsVerified)| && s.suspicious == |Filter(vs, IsSuspicious)|
    ensures s.processing == |Filter(vs, IsProcessing)|
    ensures s.verified + s.suspicious <= s.total
    ensures s.verified + s.processing <= s.total
    ensures s.processing + |Filter(vs, HasBothChecks)| == s.total
  {
    DisjointFilters(vs, IsVerified, IsSuspicious);
    DisjointFilters(vs, IsVerified, IsProcessing);
    FilterComplement(vs, HasBothChecks, IsProcessing);
    Stats(|vs|, |Filter(vs, IsVerified)|, |Filter(vs, IsSuspicious)|, |Filter(vs, IsProcessing)|)
  }

  /** An article is counted as verified exactly when both its checks are in and
      clear it; such an article is counted neither as suspicious nor as processing. */
  lemma VerifiedExactly(vs: seq<ArticleView>, v: ArticleView)
    ensures v in Filter(vs, IsVerified) <==>
              v in vs && v.imageCheck.Some? && v.textCheck.Some? &&
              v.imageCheck.value.status == "verified" && v.textCheck.value.verificationStatus == "true"
    ensures v in Filter(vs, IsVerified) ==> v !in Filter(vs, IsSuspicious) && v !in Filter(vs, IsProcessing)
  {
    FilterMembership(vs, IsVerified, v);
    FilterMembership(vs, IsSuspicious, v);
    FilterMembership(vs, IsProcessing, v);
  }

  // ---------------------------------------------------------------------------
  // The search box

  /** The title or the content contains the query, ignoring case. */
  predicate MatchesQuery(query: string, v: ArticleView) {
    Contains(Lower(v.article.title), Lower(query)) || Contains(Lower(v.article.content), Lower(query))
  }

  lemma ContainsEmpty(s: string)
    ensures Contains(s, "")
  {
    assert OccursAt(s, "", 0);
  }

  /** `filteredArticles`: the articles that match, in order; an empty query keeps
      them all. */
  function SearchFilter(vs: seq<ArticleView>, query: string): (r: seq<ArticleView>)
    ensures forall i :: 0 <= i < |r| ==> MatchesQuery(query, r[i])
    ensures IsSubsequence(r, vs)
    ensures query == "" ==> r == vs
  {
    var p := (v: ArticleView) => MatchesQuery(query, v);
    FilterIsSubsequence(vs, p);
    assert query == "" ==> Filter(vs, p) == vs by {
      if query == "" {
        forall v | v in vs ensures p(v) {
          ContainsEmpty(Lower(v.article.title));
        }
        FilterAll(vs, p);
      }
    }
    Filter(vs, p)
  }

  /** An article is shown exactly when it is loaded and matches the query. */
  lemma SearchFilterExactly(vs: seq<ArticleView>, query: string, v: ArticleView)
    ensures v in SearchFilter(vs, query) <==> v in vs && MatchesQuery(query, v)
  {
    FilterMembership(vs, (x: ArticleView) => MatchesQuery(query, x), v);
  }

  // ---------------------------------------------------------------------------
  // How the ingest pipeline shows on the dashboard

  lemma {:induction false} ImageOwnersIndex(rows: seq<ImageCheckRow>, i: nat)
    requires i < |rows|
    ensures |Ingest.ImageOwners(rows)| == |rows| && Ingest.ImageOwners(rows)[i] == rows[i].articleId
    decreases |rows|
  {
    var n := |rows| - 1;
    if i < n {
      ImageOwnersIndex(rows[..n], i);
      assert rows[..n][i] == rows[i];
    } else if n > 0 {
      ImageOwnersIndex(rows[..n], 0);
    }
  }

  lemma {:induction false} NotAnImageArticle(articles: seq<ArticleRow>, x: nat)
    requires forall i :: 0 <= i < |articles| && articles[i].id == x ==> !Ingest.HasImage(articles[i])
    ensures x !in Ingest.ImageArticleIds(articles)
    decreases |articles|
  {
    if articles != [] {
      var n := |articles| - 1;
      assert forall i :: 0 <= i < n ==> articles[..n][i] == articles[i];
      NotAnImageArticle(articles[..n], x);
    }
  }

  /** In a store the pipeline keeps consistent, an article without an image never
      gets an image check: it counts as processing for good and is never verified. */
  lemma NoImageStaysProcessing(t: Tables, a: ArticleRow)
    requires Ingest.Consistent(t)
    requires a in t.articles && !Ingest.HasImage(a)
    ensures IsProcessing(JoinArticle(t, a)) && !IsVerified(JoinArticle(t, a))
  {
    var k :| 0 <= k < |t.articles| && t.articles[k] == a;
    assert forall i :: 0 <= i < |t.articles| && t.articles[i].id == a.id ==> i == k;
    NotAnImageArticle(t.articles, a.id);
    forall i | 0 <= i < |t.imageChecks| ensures t.imageChecks[i].articleId != a.id {
      ImageOwnersIndex(t.imageChecks, i);
    }
  }

  // ---------------------------------------------------------------------------
  // The page

  /** The page state: the loaded views, their counters, the sector tab and the
      search box. */
  class PulseBoard {
    var articles: seq<ArticleView>
    var stats: Stats
    var selectedSector: string
    var searchQuery: string

    /** The counters always describe the loaded list. */
    ghost predicate Valid()
      reads this
    {
      stats == ComputeStats(articles)
    }

    constructor ()
      ensures articles == [] && stats == Stats(0, 0, 0, 0) && selectedSector == "all" && searchQuery == ""
      ensures Valid()
    {
      articles, stats, selectedSector, searchQuery := [], Stats(0, 0, 0, 0), "all", "";
    }

    /** `loadArticles`: `db` is the query's answer on the store, None when it fails,
        in which case the page keeps what it showed. */
    method LoadArticles(db: Option<Tables>)
      requires Valid()
      modifies this
      ensures db.Some? ==> articles == Load(db.value, selectedSector) && stats == ComputeStats(articles)
      ensures db.None? ==> articles == old(articles) && stats == old(stats)
      ensures selectedSector == old(selectedSector) && searchQuery == old(searchQuery)
      ensures Valid()
    {
      if db.Some? {
        articles := Load(db.value, selectedSector);
        stats := ComputeStats(articles);
      }
    }

    /** Choosing a sector tab reloads for it. */
    method SelectSector(sector: string, db: Option<Tables>)
      requires Valid()
      modifies this
      ensures selectedSector == sector && searchQuery == old(searchQuery)
      ensures db.Some? ==> articles == Load(db.value, sector)
      ensures db.None? ==> articles == old(articles)
      ensures Valid()
    {
      selectedSector := sector;
      LoadArticles(db);
    }

    method SetSearchQuery(query: string)
      modifies this
      ensures searchQuery == query
      ensures articles == old(articles) && stats == old(stats) && selectedSector == old(selectedSector)
    {
      searchQuery := query;
    }

    /** The list shown under the search box. */
    function Shown(): (r: seq<ArticleView>)
      reads this
      ensures forall i :: 0 <= i < |r| ==> r[i] in articles && MatchesQuery(searchQuery, r[i])
      ensures forall v :: v in r <==> v in articles && MatchesQuery(searchQuery, v)
      ensures IsSubsequence(r, articles)
    {
      var r := SearchFilter(articles, searchQuery);
      forall v ensures v in r <==> v in articles && MatchesQuery(searchQuery, v) {
        SearchFilterExactly(articles, searchQuery, v);
      }
      r
    }

    /** `handleFetchNewArticles`: fetch for the selected sector (`general` for `all`)
        into the store, then reload from it; when the fetch fails nothing is reloaded.
        `reloadOk` is whether the reload's query succeeds: when it fails, the reload's
        own error handling keeps the list and the counters. */
    method FetchNewArticles(store: Ingest.Store, newsKey: Option<string>, feed: Option<News.Headlines>,
                            ages: seq<nat>, now: int, rejected: set<nat>, p: Ingest.Providers, reloadOk: bool)
      requires |ages| == 5 && forall i :: 0 <= i < 5 ==> ages[i] <= News.DayMs
      requires Valid() && store.Valid()
      modifies this, store
      ensures store.Valid() && Valid()
      ensures selectedSector == old(selectedSector) && searchQuery == old(searchQuery)
      ensures var fetched := News.Candidates(FetchSector(selectedSector), newsKey, feed, ages, now);
              && (fetched.Failure? ==>
                    articles == old(articles) && stats == old(stats) && store.Snapshot() == old(store.Snapshot()))
              && (fetched.Success? ==>
                    store.Snapshot() == Ingest.IngestPrefix(old(store.Snapshot()), fetched.value, |fetched.value|,
                                                            FetchSector(selectedSector), now, rejected, p))
              && (fetched.Success? && reloadOk ==> articles == Load(store.Snapshot(), selectedSector))
              && (fetched.Success? && !reloadOk ==> articles == old(articles) && stats == old(stats))
    {
      var r := Ingest.FetchArticles(store, FetchSector(selectedSector), newsKey, feed, ages, now, rejected, p);
      if r.Success? {
        LoadArticles(if reloadOk then Some(store.Snapshot()) else None);
      }
    }
  }
}
