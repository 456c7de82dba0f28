/** The discover page: the latest stored articles dressed up with a source, a summary,
    tags and a trust score, two fixed articles when loading fails, and a search and
    tag filter over them. */
module Discover {
  import opened Wrappers
  import opened Lists
  import opened Text
  import opened Schema
  import News
  import Pulse

  /** An article as the page shows it. */
  datatype DiscoverArticle = DiscoverArticle(
    article: ArticleRow,
    source: string,
    aiSummary: string,
    tags: seq<string>,
    trustScore: nat,
    relatedArticles: seq<string>)

  const PageSize: nat := 20

  const PopularTags: seq<string> :=
    ["AI", "Technology", "Politics", "Health", "Climate", "Business", "Science", "Security", "Innovation", "Research"]

  // ---------------------------------------------------------------------------
  // Loading

  /** Latest publication first. */
  predicate LaterPublishedFirst(a: ArticleRow, b: ArticleRow) {
    a.publishedAt >= b.publishedAt
  }

  lemma LaterPublishedFirstIsPreorder()
    ensures TotalPreorder(LaterPublishedFirst)
  {
  }

  /** The stored articles in the order the filter asks for: latest published first
      for the latest filter, newest first for the other three, and as stored for a
      filter the page does not know. */
  function Ranked(t: Tables, filter: string): (r: seq<ArticleRow>)
    ensures |r| == |t.articles|
    ensures multiset(r) == multiset(t.articles)
    ensures filter == "latest" ==> SortedBy(r, LaterPublishedFirst)
    ensures filter in {"trending", "verified", "global"} ==> SortedBy(r, Pulse.NewerFirst)
  {
    if filter == "latest" then
      LaterPublishedFirstIsPreorder();
      SortIsSorted(t.articles, LaterPublishedFirst);
      InsertionSort(t.articles, LaterPublishedFirst)
    else if filter in {"trending", "verified", "global"} then
      Pulse.NewerFirstIsPreorder();
      SortIsSorted(t.articles, Pulse.NewerFirst);
      InsertionSort(t.articles, Pulse.NewerFirst)
    else t.articles
  }

  /** The query of `loadArticles`: the first twenty of the ranked articles. */
  function Query(t: Tables, filter: string): (r: seq<ArticleRow>)
    ensures |r| == if |t.articles| <= PageSize then |t.articles| else PageSize
    ensures multiset(r) <= multiset(t.articles)
    ensures forall i :: 0 <= i < |r| ==> r[i] in t.articles
    ensures filter == "latest" ==> SortedBy(r, LaterPublishedFirst)
    ensures filter in {"trending", "verified", "global"} ==> SortedBy(r, Pulse.NewerFirst)
  {
    var sorted := Ranked(t, filter);
    var r := Take(sorted, PageSize);
    TakeSubMultiset(sorted, PageSize);
    assert filter == "latest" ==> SortedBy(r, LaterPublishedFirst) by {
      if filter == "latest" {
        TakeSorted(sorted, PageSize, LaterPublishedFirst);
      }
    }
    assert filter in {"trending", "verified", "global"} ==> SortedBy(r, Pulse.NewerFirst) by {
      if filter in {"trending", "verified", "global"} {
        TakeSorted(sorted, PageSize, Pulse.NewerFirst);
      }
    }
    assert forall i :: 0 <= i < |r| ==> r[i] in t.articles by {
      forall i | 0 <= i < |r| ensures r[i] in t.articles {
        assert r[i] in multiset(r);
      }
    }
    r
  }

  /** With the latest filter a stored article is left out only when twenty articles
      published no earlier are loaded instead. */
  lemma {:induction false} QueryKeepsLatest(t: Tables, a: ArticleRow)
    requires a in t.articles && a !in Query(t, "latest")
    ensures |Query(t, "latest")| == PageSize
    ensures forall i :: 0 <= i < PageSize ==> Query(t, "latest")[i].publishedAt >= a.publishedAt
  {
    var sorted := Ranked(t, "latest");
    assert a in multiset(sorted);
    var j :| 0 <= j < |sorted| && sorted[j] == a;
    assert |sorted| > PageSize;
    assert Query(t, "latest") == sorted[..PageSize];
    assert forall i | 0 <= i < PageSize :: sorted[i] != a;
    forall i | 0 <= i < PageSize ensures Query(t, "latest")[i].publishedAt >= a.publishedAt {
      assert LaterPublishedFirst(sorted[i], sorted[j]);
    }
  }

  /** With the trending, verified or global filter a stored article is left out only
      when twenty articles created no earlier are loaded instead. */
  lemma {:induction false} QueryKeepsNewest(t: Tables, filter: string, a: ArticleRow)
    requires filter in {"trending", "verified", "global"}
    requires a in t.articles && a !in Query(t, filter)
    ensures |Query(t, filter)| == PageSize
    ensures forall i :: 0 <= i < PageSize ==> Query(t, filter)[i].id >= a.id
  {
    var sorted := Ranked(t, filter);
    assert a in multiset(sorted);
    var j :| 0 <= j < |sorted| && sorted[j] == a;
    assert |sorted| > PageSize;
    assert Query(t, filter) == sorted[..PageSize];
    assert forall i | 0 <= i < PageSize :: sorted[i] != a;
    forall i | 0 <= i < PageSize ensures Query(t, filter)[i].id >= a.id {
      assert Pulse.NewerFirst(sorted[i], sorted[j]);
    }
  }

  /** At most twenty stored articles are all loaded, whatever the filter. */
  lemma QueryComplete(t: Tables, filter: string, a: ArticleRow)
    requires a in t.articles && |t.articles| <= PageSize
    ensures a in Query(t, filter)
  {
    var sorted := Ranked(t, filter);
    assert a in multiset(sorted);
    assert Query(t, filter) == sorted;
  }

  /** `extractDomain`, given what the URL parser makes of the address (None when it
      throws): the host name with its first `www.` removed, wherever it occurs. */
  function ExtractDomain(hostname: Option<string>): (r: string)
    ensures hostname.None? ==> r == "Unknown Source"
    ensures hostname.Some? && !Contains(hostname.value, "www.") ==> r == hostname.value
    ensures hostname.Some? && Contains(hostname.value, "www.") ==>
              var h, i := hostname.value, IndexOf(hostname.value, "www.").value;
              |r| == |h| - 4 && r == h[..i] + h[i + 4..]
  {
    if hostname.None? then "Unknown Source" else ReplaceFirst(hostname.value, "www.", "")
  }

  /** A host name that starts with `www.` loses exactly that prefix. */
  lemma ExtractDomainStripsPrefix(rest: string)
    ensures ExtractDomain(Some("www." + rest)) == rest
  {
    var h := "www." + rest;
    assert OccursAt(h, "www.", 0);
    assert IndexOf(h, "www.") == Some(0);
    assert h[4..] == rest;
  }

  /** The canned summary the summary draw picks. */
  function AiSummary(draw: nat): string
    requires draw < 4
  {
    match draw
    case 0 => "AI analysis reveals key insights about "
              + "emerging trends and their potential impact "
              + "on global markets."
    case 1 => "Advanced verification confirms authenticity "
              + "while highlighting important contextual "
              + "factors."
    case 2 => "Strategic intelligence indicates significant "
              + "developments with high confidence levels."
    case _ => "Comprehensive analysis shows strong "
              + "correlation with verified data sources and "
              + "expert opinions."
  }

  /** The elements of `s` whose pick is set, in order: a filter whose condition is a
      fresh random draw per element. */
  function Picked<T>(s: seq<T>, picks: seq<bool>): (r: seq<T>)
    requires |picks| == |s|
    ensures |r| <= |s|
    ensures IsSubsequence(r, s)
    ensures forall i :: 0 <= i < |s| && picks[i] ==> s[i] in r
    ensures forall x :: x in r ==> exists i :: 0 <= i < |s| && picks[i] && s[i] == x
    decreases |s|
  {
    if |s| == 0 then []
    else
      var rest := Picked(s[1..], picks[1..]);
      assert forall i :: 1 <= i < |s| ==> s[i] == s[1..][i - 1] && picks[i] == picks[1..][i - 1];
      assert forall x :: x in rest ==> exists i :: 0 <= i < |s| && picks[i] && s[i] == x by {
        forall x | x in rest ensures exists i :: 0 <= i < |s| && picks[i] && s[i] == x {
          var k :| 0 <= k < |s| - 1 && picks[1..][k] && s[1..][k] == x;
          assert picks[k + 1] && s[k + 1] == x;
        }
      }
      if picks[0] then
        assert ([s[0]] + rest)[1..] == rest;
        [s[0]] + rest
      else
        assert rest != [] && rest[0] != s[0] ==> IsSubsequence(rest, s[1..]);
        assert rest != [] && rest[0] == s[0] ==> IsSubsequence(rest, s) by {
          if rest != [] && rest[0] == s[0] {
            SubsequenceOfTail(rest, s);
          }
        }
        rest
  }

  /** What is a subsequence of the tail is a subsequence of the whole. */
  lemma {:induction false} SubsequenceOfTail<T>(x: seq<T>, y: seq<T>)
    requires |y| > 0 && IsSubsequence(x, y[1..])
    ensures IsSubsequence(x, y)
    decreases |y|, 1
  {
    if x != [] && x[0] == y[0] {
      SubsequenceDropFirst(x, y[1..]);
    }
  }

  /** Dropping the first element of a subsequence keeps it a subsequence. */
  lemma {:induction false} SubsequenceDropFirst<T>(x: seq<T>, y: seq<T>)
    requires x != [] && IsSubsequence(x, y)
    ensures IsSubsequence(x[1..], y)
    decreases |y|, 2
  {
    if x[0] == y[0] {
      SubsequenceOfTail(x[1..], y);
    } else {
      SubsequenceDropFirst(x, y[1..]);
      SubsequenceOfTail(x[1..], y);
    }
  }

  /** `generateTags`: the sector with its first letter in upper case, then the first
      three at most of the popular tags the draws pick, in list order. The title is
      not consulted. */
  function GenerateTags(sector: string, picks: seq<bool>): (r: seq<string>)
    requires |picks| == |PopularTags|
    ensures 1 <= |r| <= 4 && r[0] == Capitalize(sector)
    ensures r[1..] <= Picked(PopularTags, picks)
    ensures |r| == 1 + (if |Picked(PopularTags, picks)| <= 3 then |Picked(PopularTags, picks)| else 3)
  {
    var extra := Take(Picked(PopularTags, picks), 3);
    assert ([Capitalize(sector)] + extra)[1..] == extra;
    [Capitalize(sector)] + extra
  }

  /** The random draws of one article: the summary `floor(r * 4)`, one coin per
      popular tag (`r > 0.7`), and the trust offset `floor(r * 30)`. */
  datatype EnhanceDraws = EnhanceDraws(summary: nat, picks: seq<bool>, trust: nat)

  predicate ValidDraws(d: EnhanceDraws) {
    d.summary < 4 && |d.picks| == |PopularTags| && d.trust < 30
  }

  predicate TrustInRange(a: DiscoverArticle) {
    70 <= a.trustScore <= 99
  }

  /** One stored article with its source, summary, tags and a trust score of 70 to 99. */
  function Enhance(a: ArticleRow, hostname: Option<string>, d: EnhanceDraws): (e: DiscoverArticle)
    requires ValidDraws(d)
    ensures e.article == a && e.source == ExtractDomain(hostname)
    ensures e.tags == GenerateTags(a.sector, d.picks) && e.relatedArticles == []
    ensures TrustInRange(e)
  {
    DiscoverArticle(a, ExtractDomain(hostname), AiSummary(d.summary), GenerateTags(a.sector, d.picks), d.trust + 70, [])
  }

  /** Every loaded article enhanced, in order; `hostOf` is the URL parser and `draws`
      gives each position its own draws. */
  function EnhanceAll(rows: seq<ArticleRow>, hostOf: string -> Option<string>, draws: nat -> EnhanceDraws)
    : (r: seq<DiscoverArticle>)
    requires forall i :: 0 <= i < |rows| ==> ValidDraws(draws(i))
    ensures |r| == |rows|
    ensures forall i :: 0 <= i < |r| ==> r[i].article == rows[i] && TrustInRange(r[i])
  {
    var r := seq(|rows|, i requires 0 <= i < |rows| => Enhance(rows[i], hostOf(rows[i].url), draws(i)));
    assert forall i :: 0 <= i < |r| ==> r[i] == Enhance(rows[i], hostOf(rows[i].url), draws(i));
    r
  }

  /** The two articles shown when loading fails, published one and two hours ago. */
  function MockArticles(now: int): (r: seq<DiscoverArticle>)
    ensures |r| == 2
    ensures forall i :: 0 <= i < 2 ==> TrustInRange(r[i])
    ensures forall i :: 0 <= i < 2 ==> r[i].article.publishedAt == now - 3600000 * (i + 1)
  {
    seq(2, i requires 0 <= i < 2 =>
      DiscoverArticle(
        ArticleRow(i + 1, MockTitle(i), MockContent(i), MockUrl(i), Some(News.PexelsPhoto(MockPhoto(i))),
                   MockSector(i), now - 3600000 * (i + 1)),
        MockSource(i), MockSummary(i), MockTags(i), if i == 0 then 92 else 88, []))
  }

  function MockSector(i: nat): string {
    if i == 0 then "technology" else "climate"
  }

  function MockSource(i: nat): string {
    if i == 0 then "TechNews" else "Climate Today"
  }

  function MockTags(i: nat): seq<string> {
    if i == 0 then ["AI", "Technology", "Verification"] else ["Climate", "Innovation", "Global"]
  }

  function MockTitle(i: nat): string {
    match i
    case 0 => "AI-Powered Verification Systems Reach "
              + "New Milestone in Accuracy"
    case _ => "Global Climate Summit Announces "
              + "Revolutionary Carbon Capture Initiative"
  }

  function MockContent(i: nat): string {
    match i
    case 0 => "Advanced artificial intelligence systems "
              + "for media verification have achieved "
              + "unprecedented accuracy rates..."
    case _ => "World leaders unveil ambitious new carbon "
              + "capture technology that could transform "
              + "climate action..."
  }

  function MockUrl(i: nat): string {
    match i
    case 0 => "https://example.com/ai-verification"
    case _ => "https://example.com/climate-summit"
  }

  function MockPhoto(i: nat): string {
    match i
    case 0 => "8386440/pexels-photo-8386440.jpeg"
    case _ => "9324336/pexels-photo-9324336.jpeg"
  }

  function MockSummary(i: nat): string {
    match i
    case 0 => "Breakthrough in AI verification technology "
              + "shows 99.2% accuracy in detecting "
              + "manipulated media content."
    case _ => "Major breakthrough in carbon capture "
              + "technology promises to accelerate global "
              + "decarbonization efforts."
  }

  /** What `loadArticles` puts on the page: the enhanced query answer, or the two
      fixed articles when the store (None) fails. */
  function LoadOutcome(db: Option<Tables>, filter: string, hostOf: string -> Option<string>,
                       draws: nat -> EnhanceDraws, now: int): (r: seq<DiscoverArticle>)
    requires forall i :: ValidDraws(draws(i))
    ensures db.None? ==> r == MockArticles(now)
    ensures db.Some? ==> |r| == |Query(db.value, filter)| &&
                         forall i :: 0 <= i < |r| ==> r[i].article == Query(db.value, filter)[i]
    ensures forall i :: 0 <= i < |r| ==> TrustInRange(r[i])
  {
    if db.None? then MockArticles(now) else EnhanceAll(Query(db.value, filter), hostOf, draws)
  }

  // ---------------------------------------------------------------------------
  // Selecting tags and filtering

  /** `toggleTag`: a selected tag is removed wherever it occurs, otherwise it is
      appended. */
  function ToggleTag(tags: seq<string>, tag: string): (r: seq<string>)
    ensures tag in r <==> tag !in tags
    ensures forall t :: t != tag ==> (t in r <==> t in tags)
    ensures tag in tags ==> IsSubsequence(r, tags)
    ensures tag !in tags ==> r == tags + [tag]
  {
    if tag in tags then
      var p := (t: string) => t != tag;
      FilterIsSubsequence(tags, p);
      assert forall t :: t in Filter(tags, p) <==> t in tags && p(t) by {
        forall t {
          FilterMembership(tags, p, t);
        }
      }
      Filter(tags, p)
    else
      tags + [tag]
  }

  /** Toggling an unselected tag twice gives back the selection. */
  lemma ToggleTwice(tags: seq<string>, tag: string)
    requires tag !in tags
    ensures ToggleTag(ToggleTag(tags, tag), tag) == tags
  {
    var p := (t: string) => t != tag;
    FilterSnoc(tags, tag, p);
    FilterAll(tags, p);
  }

  /** Toggling a selected tag twice moves it, once, to the end. */
  lemma ToggleTwiceSelected(tags: seq<string>, tag: string)
    requires tag in tags
    ensures ToggleTag(ToggleTag(tags, tag), tag) == Filter(tags, (t: string) => t != tag) + [tag]
  {
  }

  /** The search half of the filter: title or content contains the query, ignoring
      case. */
  predicate MatchesSearch(query: string, a: DiscoverArticle) {
    Contains(Lower(a.article.title), Lower(query)) || Contains(Lower(a.article.content), Lower(query))
  }

  /** The tag half: no tag selected, or some selected tag among the article's tags. */
  predicate MatchesTags(selected: seq<string>, a: DiscoverArticle) {
    |selected| == 0 || exists i :: 0 <= i < |selected| && selected[i] in a.tags
  }

  /** `filteredArticles`: the articles that pass both halves, in order. */
  function FilteredArticles(articles: seq<DiscoverArticle>, query: string, selected: seq<string>)
    : (r: seq<DiscoverArticle>)
    ensures forall a :: a in r <==> a in articles && MatchesSearch(query, a) && MatchesTags(selected, a)
    ensures IsSubsequence(r, articles)
  {
    var p := (a: DiscoverArticle) => MatchesSearch(query, a) && MatchesTags(selected, a);
    FilterIsSubsequence(articles, p);
    assert forall a :: a in Filter(articles, p) <==> a in articles && p(a) by {
      forall a {
        FilterMembership(articles, p, a);
      }
    }
    Filter(articles, p)
  }

  /** With no query and no tag every article is shown. */
  lemma NoFilterShowsAll(articles: seq<DiscoverArticle>)
    ensures FilteredArticles(articles, "", []) == articles
  {
    var p := (a: DiscoverArticle) => MatchesSearch("", a) && MatchesTags([], a);
    forall a | a in articles ensures p(a) {
      Pulse.ContainsEmpty(Lower(a.article.title));
    }
    FilterAll(articles, p);
  }

  // ---------------------------------------------------------------------------
  // The page

  class Page {
    var articles: seq<DiscoverArticle>
    var selectedFilter: string
    var searchQuery: string
    var selectedTags: seq<string>

    /** Every article on the page has a trust score of 70 to 99. */
    predicate Valid()
      reads this
    {
      forall i :: 0 <= i < |articles| ==> TrustInRange(articles[i])
    }

    constructor()
      ensures articles == [] && selectedFilter == "trending" && searchQuery == "" && selectedTags == []
      ensures Valid()
    {
      articles := [];
      selectedFilter := "trending";
      searchQuery := "";
      selectedTags := [];
    }

    /** `loadArticles` for the selected filter. */
    method LoadArticles(db: Option<Tables>, hostOf: string -> Option<string>, draws: nat -> EnhanceDraws, now: int)
      requires forall i :: ValidDraws(draws(i))
      modifies this
      ensures articles == LoadOutcome(db, selectedFilter, hostOf, draws, now)
      ensures selectedFilter == old(selectedFilter) && searchQuery == old(searchQuery)
      ensures selectedTags == old(selectedTags)
      ensures Valid()
    {
      articles := LoadOutcome(db, selectedFilter, hostOf, draws, now);
    }

    /** Choosing a filter reloads the page for it. */
    method SelectFilter(filter: string, db: Option<Tables>, hostOf: string -> Option<string>,
                        draws: nat -> EnhanceDraws, now: int)
      requires forall i :: ValidDraws(draws(i))
      modifies this
      ensures selectedFilter == filter
      ensures articles == LoadOutcome(db, filter, hostOf, draws, now)
      ensures searchQuery == old(searchQuery) && selectedTags == old(selectedTags)
      ensures Valid()
    {
      selectedFilter := filter;
      LoadArticles(db, hostOf, draws, now);
    }

    method SetSearchQuery(query: string)
      modifies this
      ensures searchQuery == query
      ensures articles == old(articles) && selectedFilter == old(selectedFilter)
      ensures selectedTags == old(selectedTags)
    {
      searchQuery := query;
    }

    /** A click on a tag toggles it and changes nothing else. */
    method ClickTag(tag: string)
      modifies this
      ensures selectedTags == ToggleTag(old(selectedTags), tag)
      ensures articles == old(articles) && selectedFilter == old(selectedFilter)
      ensures searchQuery == old(searchQuery)
    {
      selectedTags := ToggleTag(selectedTags, tag);
    }

    /** The articles shown. */
    function Shown(): (r: seq<DiscoverArticle>)
      reads this
      ensures forall a :: a in r <==> a in articles && MatchesSearch(searchQuery, a) && MatchesTags(selectedTags, a)
    {
      FilteredArticles(articles, searchQuery, selectedTags)
    }
  }
}
