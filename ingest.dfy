/** The ingestion pipeline: news candidates, filtered and deduplicated against the
    store, become articles, each followed by its image check (when it has an image),
    its text check and its strategy. */
module Ingest {
  import opened Wrappers
  import opened Lists
  import opened Text
  import opened Schema
  import opened News
  import IC = ImageCheck
  import TC = TextClaim
  import ST = Strategize

  // ---------------------------------------------------------------------------
  // The remote checks, as the environment answers them for the candidate at a
  // given position of the batch.

  /** The services' answers: credentials, the image search, the two model replies,
      their JSON readings and the random draws, each per candidate position. */
  datatype Services = Services(
    searchKey: Option<string>,
    search: (nat, string) -> Option<IC.SearchResult>,
    imageDraws: nat -> IC.ImageDraws,
    modelKey: Option<string>,
    claimReply: nat -> Option<string>,
    parseClaim: string -> Option<TC.ClaimAnalysis>,
    textDraws: nat -> TC.TextDraws,
    planReply: nat -> Option<string>,
    parsePlan: string -> Option<ST.StrategyPlan>)

  ghost predicate ValidServices(env: Services) {
    (forall k: nat :: IC.ValidDraws(env.imageDraws(k))) &&
    (forall k: nat :: TC.ValidDraws(env.textDraws(k)))
  }

  /** The three checks the loop dispatches, as functions of the candidate position. */
  datatype Providers = Providers(
    image: (nat, string) -> IC.ImageVerdict,
    text: nat -> TC.TextVerdict,
    plan: (nat, TC.TextVerdict) -> ST.Strategy)

  /** The checks `processImageCheck` and `processTextVerification` run, answered by
      `env` at time `now`. */
  function ProvidersOf(env: Services, now: int): (p: Providers)
    requires ValidServices(env)
    ensures forall k: nat, u: string :: p.image(k, u) ==
              IC.DetectImageManipulation(env.searchKey, env.search(k, u), env.imageDraws(k), now)
    ensures forall k: nat :: p.text(k) ==
              TC.VerifyTextClaim(env.modelKey, env.claimReply(k), env.parseClaim, env.textDraws(k))
    ensures forall k: nat, v: TC.TextVerdict :: p.plan(k, v) ==
              ST.SummarizeAndStrategize(v, env.modelKey, env.planReply(k), env.parsePlan)
    ensures forall k: nat, u: string :: IC.WellFormed(p.image(k, u), now)
  {
    Providers(
      (k: nat, u: string) => IC.DetectImageManipulation(env.searchKey, env.search(k, u), env.imageDraws(k), now),
      (k: nat) => TC.VerifyTextClaim(env.modelKey, env.claimReply(k), env.parseClaim, env.textDraws(k)),
      (k: nat, v: TC.TextVerdict) => ST.SummarizeAndStrategize(v, env.modelKey, env.planReply(k), env.parsePlan))
  }

  // ---------------------------------------------------------------------------
  // Rows

  /** The article row for a complete candidate: content is the description, else the
      content, else empty; publication time is the candidate's, else now. */
  function NewArticle(c: Candidate, id: nat, sector: string, now: int): (a: ArticleRow)
    requires Complete(c)
    ensures a.title == c.title.value && a.url == c.url && a.sector == sector
    ensures a.content == c.description.value
    ensures a.imageUrl == c.urlToImage
    ensures a.publishedAt == (if c.publishedAt.Some? then c.publishedAt.value else now)
  {
    ArticleRow(id, c.title.value, OrText(c.description, OrText(c.content, "")), c.url,
               c.urlToImage, sector, c.publishedAt.GetOr(now))
  }

  /** The image-check row for a verdict, with the stored defaults: match count 0,
      confidence 85 (also for a confidence of 0) and status verified. */
  function ImageRowOf(id: nat, articleId: nat, imageUrl: string, v: IC.ImageVerdict): (row: ImageCheckRow)
    ensures row.id == id && row.articleId == articleId && row.imageUrl == imageUrl
    ensures row.matchCount == v.matchCount && row.earliestDate == v.earliestDate
    ensures row.contextUrls == v.contextUrls
    ensures row.confidenceScore == (if v.confidence == 0 then 85 else v.confidence)
    ensures row.status == OrText(Some(v.status.Label()), "verified")
  {
    ImageCheckRow(id, articleId, imageUrl, OrNumber(Some(v.matchCount), 0), v.earliestDate,
                  v.contextUrls, OrNumber(Some(v.confidence), 85), OrText(Some(v.status.Label()), "verified"))
  }

  /** The defaults never apply to a verdict of the image check: the stored row
      carries the verdict's own count, confidence and status. */
  lemma ImageRowKeepsVerdict(id: nat, articleId: nat, imageUrl: string, v: IC.ImageVerdict, now: int)
    requires IC.WellFormed(v, now)
    ensures var row := ImageRowOf(id, articleId, imageUrl, v);
            row.matchCount == v.matchCount && row.confidenceScore == v.confidence &&
            row.status == v.status.Label() && row.contextUrls == v.contextUrls
  {
  }

  /** The text-check row: the claim cut to 500 characters, status unverified,
      confidence 75 (also for 0) and a fixed reasoning when the verdict lacks them. */
  function TextRowOf(id: nat, articleId: nat, claim: string, v: TC.TextVerdict): (row: TextCheckRow)
    ensures |row.claimText| == (if |claim| < 500 then |claim| else 500) && row.claimText <= claim
    ensures row.verificationStatus == OrText(v.verificationStatus, "unverified")
    ensures row.confidenceScore == OrNumber(v.confidenceScore, 75)
    ensures row.reasoning == OrText(v.reasoning, "Automated verification completed")
    ensures row.citations == v.citations
  {
    TextCheckRow(id, articleId, Take(claim, 500), OrText(v.verificationStatus, "unverified"),
                 OrNumber(v.confidenceScore, 75), v.citations,
                 OrText(v.reasoning, "Automated verification completed"))
  }

  /** The strategy row: priority medium when the plan has none. */
  function StrategyRowOf(id: nat, articleId: nat, s: ST.Strategy): (row: StrategyRow)
    ensures row.summary == s.summary && row.actionSteps == s.actionSteps
    ensures row.priorityLevel == OrText(Some(s.priorityLevel), "medium")
  {
    StrategyRow(id, articleId, s.summary, s.actionSteps, OrText(Some(s.priorityLevel), "medium"))
  }

  // ---------------------------------------------------------------------------
  // The store as a value, and one step of the ingest loop

  predicate UrlStored(articles: seq<ArticleRow>, url: string) {
    exists i :: 0 <= i < |articles| && articles[i].url == url
  }

  predicate HasImage(a: ArticleRow) {
    Truthy(a.imageUrl)
  }

  /** The ids of the articles that have an image, in order. */
  function ImageArticleIds(articles: seq<ArticleRow>): seq<nat> {
    if articles == [] then []
    else
      var last := articles[|articles| - 1];
      ImageArticleIds(articles[..|articles| - 1]) + (if HasImage(last) then [last.id] else [])
  }

  /** The articles the image checks belong to, in order. */
  function ImageOwners(rows: seq<ImageCheckRow>): seq<nat> {
    if rows == [] then [] else ImageOwners(rows[..|rows| - 1]) + [rows[|rows| - 1].articleId]
  }

  /** Every id handed out so far is below the counter. */
  ghost predicate IdsBelowCounter(t: Tables) {
    && (forall i :: 0 <= i < |t.articles| ==> t.articles[i].id < t.nextId)
    && (forall i :: 0 <= i < |t.imageChecks| ==> t.imageChecks[i].id < t.nextId)
    && (forall i :: 0 <= i < |t.textChecks| ==> t.textChecks[i].id < t.nextId)
    && (forall i :: 0 <= i < |t.strategies| ==> t.strategies[i].id < t.nextId)
  }

  /** Articles are in increasing id order and have distinct URLs. */
  ghost predicate ArticlesOrdered(articles: seq<ArticleRow>) {
    && (forall i, j :: 0 <= i < j < |articles| ==> articles[i].id < articles[j].id)
    && (forall i, j :: 0 <= i < j < |articles| ==> articles[i].url != articles[j].url)
  }

  /** The i-th text check and the i-th strategy belong to the i-th article, and the
      strategy was inserted after the text check. */
  ghost predicate ChecksAligned(t: Tables) {
    && |t.textChecks| == |t.articles| && |t.strategies| == |t.articles|
    && (forall i :: 0 <= i < |t.articles| ==>
          t.textChecks[i].articleId == t.articles[i].id &&
          t.strategies[i].articleId == t.articles[i].id &&
          t.textChecks[i].id < t.strategies[i].id)
  }

  /** The image checks belong, in order, to exactly the articles that have an image. */
  ghost predicate ImagesAligned(t: Tables) {
    ImageOwners(t.imageChecks) == ImageArticleIds(t.articles)
  }

  /** What the pipeline keeps true of the store. */
  ghost predicate Consistent(t: Tables) {
    IdsBelowCounter(t) && ArticlesOrdered(t.articles) && ChecksAligned(t) && ImagesAligned(t)
  }

  function EmptyTables(): (t: Tables)
    ensures Consistent(t)
  {
    Tables([], [], [], [], 0)
  }

  /** Whether the loop inserts the candidate at position `k`: it is complete, its URL
      is not stored yet, and the store accepts the insert (`rejected` holds the
      positions whose insert fails or throws). */
  predicate Inserts(t: Tables, c: Candidate, k: nat, rejected: set<nat>) {
    Complete(c) && !UrlStored(t.articles, c.url) && k !in rejected
  }

  /** One pass of the loop body for the candidate at position `k`: the article with
      the next id, its image check when it has an image, its text check and its
      strategy, each row with the next id in turn. */
  function IngestOne(t: Tables, c: Candidate, k: nat, sector: string, now: int,
                     rejected: set<nat>, p: Providers): (r: Tables)
    ensures !Inserts(t, c, k, rejected) ==> r == t
    ensures Inserts(t, c, k, rejected) ==>
              && r.articles == t.articles + [NewArticle(c, t.nextId, sector, now)]
              && r.imageChecks == t.imageChecks + ImageRows(t.nextId, c, k, p)
              && r.textChecks == t.textChecks + [TextRowOf(t.nextId + 1 + |ImageRows(t.nextId, c, k, p)|, t.nextId,
                                                           Claim(c), p.text(k))]
              && r.strategies == t.strategies + [StrategyRowOf(t.nextId + 2 + |ImageRows(t.nextId, c, k, p)|, t.nextId,
                                                               p.plan(k, p.text(k)))]
              && r.nextId == t.nextId + (if Truthy(c.urlToImage) then 4 else 3)
  {
    if !Inserts(t, c, k, rejected) then t
    else
      var id := t.nextId;
      var img := ImageRows(id, c, k, p);
      var v := p.text(k);
      Tables(t.articles + [NewArticle(c, id, sector, now)], t.imageChecks + img,
             t.textChecks + [TextRowOf(id + 1 + |img|, id, Claim(c), v)],
             t.strategies + [StrategyRowOf(id + 2 + |img|, id, p.plan(k, v))], id + 3 + |img|)
  }

  /** The image-check row of the article with id `id`, when the candidate has an image. */
  function ImageRows(id: nat, c: Candidate, k: nat, p: Providers): (img: seq<ImageCheckRow>)
    ensures Truthy(c.urlToImage) ==> |img| == 1 && img[0].articleId == id && img[0].id == id + 1
    ensures Truthy(c.urlToImage) ==>
              img[0] == ImageRowOf(id + 1, id, c.urlToImage.value, p.image(k, c.urlToImage.value))
    ensures !Truthy(c.urlToImage) ==> img == []
  {
    if Truthy(c.urlToImage)
    then [ImageRowOf(id + 1, id, c.urlToImage.value, p.image(k, c.urlToImage.value))]
    else []
  }

  /** The loop over the first `n` candidates. */
  function IngestPrefix(t: Tables, batch: seq<Candidate>, n: nat, sector: string, now: int,
                        rejected: set<nat>, p: Providers): (r: Tables)
    requires n <= |batch|
    ensures |r.articles| <= |t.articles| + n
  {
    if n == 0 then t
    else IngestOne(IngestPrefix(t, batch, n - 1, sector, now, rejected, p), batch[n - 1], n - 1,
                   sector, now, rejected, p)
  }

  // ---------------------------------------------------------------------------
  // Properties of the loop

  lemma ImageArticleIdsSnoc(s: seq<ArticleRow>, a: ArticleRow)
    ensures ImageArticleIds(s + [a]) == ImageArticleIds(s) + (if HasImage(a) then [a.id] else [])
  {
    assert (s + [a])[..|s|] == s;
  }

  lemma ImageOwnersSnoc(s: seq<ImageCheckRow>, r: ImageCheckRow)
    ensures ImageOwners(s + [r]) == ImageOwners(s) + [r.articleId]
  {
    assert (s + [r])[..|s|] == s;
  }

  /** Appending an article with the next id and a new URL, then its image check when
      it has an image, then its text check and its strategy, keeps the store consistent. */
  lemma AppendConsistent(t: Tables, a: ArticleRow, img: seq<ImageCheckRow>, tc: TextCheckRow, sr: StrategyRow)
    requires Consistent(t)
    requires a.id == t.nextId && !UrlStored(t.articles, a.url)
    requires if HasImage(a) then |img| == 1 && img[0].articleId == a.id && img[0].id == t.nextId + 1
             else img == []
    requires tc.articleId == a.id && tc.id == t.nextId + 1 + |img|
    requires sr.articleId == a.id && sr.id == t.nextId + 2 + |img|
    ensures Consistent(Tables(t.articles + [a], t.imageChecks + img, t.textChecks + [tc],
                              t.strategies + [sr], t.nextId + 3 + |img|))
  {
    var r := Tables(t.articles + [a], t.imageChecks + img, t.textChecks + [tc],
                    t.strategies + [sr], t.nextId + 3 + |img|);
    AppendIdsBelow(t, r, a, img, tc, sr);
    AppendOrdered(t.articles, a, t.nextId);
    AppendChecksAligned(t, r, a, tc, sr);
    AppendImagesAligned(t, r, a, img);
  }

  lemma AppendIdsBelow(t: Tables, r: Tables, a: ArticleRow, img: seq<ImageCheckRow>, tc: TextCheckRow,
                       sr: StrategyRow)
    requires IdsBelowCounter(t) && |img| <= 1
    requires r == Tables(t.articles + [a], t.imageChecks + img, t.textChecks + [tc], t.strategies + [sr],
                         t.nextId + 3 + |img|)
    requires a.id == t.nextId && (|img| == 1 ==> img[0].id == t.nextId + 1)
    requires tc.id == t.nextId + 1 + |img| && sr.id == t.nextId + 2 + |img|
    ensures IdsBelowCounter(r)
  {
    assert forall i :: 0 <= i < |r.imageChecks| ==> r.imageChecks[i].id < r.nextId by {
      forall i | 0 <= i < |r.imageChecks| ensures r.imageChecks[i].id < r.nextId {
        if i < |t.imageChecks| {
          assert r.imageChecks[i] == t.imageChecks[i];
        } else {
          assert r.imageChecks[i] == img[0];
        }
      }
    }
  }

  lemma AppendChecksAligned(t: Tables, r: Tables, a: ArticleRow, tc: TextCheckRow, sr: StrategyRow)
    requires ChecksAligned(t)
    requires r.articles == t.articles + [a] && r.textChecks == t.textChecks + [tc]
    requires r.strategies == t.strategies + [sr]
    requires tc.articleId == a.id && sr.articleId == a.id && tc.id < sr.id
    ensures ChecksAligned(r)
  {
  }

  lemma AppendOrdered(articles: seq<ArticleRow>, a: ArticleRow, bound: nat)
    requires ArticlesOrdered(articles) && !UrlStored(articles, a.url)
    requires forall i :: 0 <= i < |articles| ==> articles[i].id < bound
    requires a.id == bound
    ensures ArticlesOrdered(articles + [a])
  {
    assert forall i :: 0 <= i < |articles| ==> articles[i].url != a.url;
  }

  lemma AppendImagesAligned(t: Tables, r: Tables, a: ArticleRow, img: seq<ImageCheckRow>)
    requires ImagesAligned(t)
    requires r.articles == t.articles + [a] && r.imageChecks == t.imageChecks + img
    requires if HasImage(a) then |img| == 1 && img[0].articleId == a.id else img == []
    ensures ImagesAligned(r)
  {
    ImageArticleIdsSnoc(t.articles, a);
    if HasImage(a) {
      assert img == [img[0]];
      ImageOwnersSnoc(t.imageChecks, img[0]);
    } else {
      assert t.imageChecks + img == t.imageChecks;
    }
  }

  /** One loop pass keeps the store consistent. */
  lemma IngestOneConsistent(t: Tables, r: Tables, c: Candidate, k: nat, sector: string, now: int,
                            rejected: set<nat>, p: Providers)
    requires Consistent(t) && r == IngestOne(t, c, k, sector, now, rejected, p)
    ensures Consistent(r)
  {
    if Inserts(t, c, k, rejected) {
      var id := t.nextId;
      var img := ImageRows(id, c, k, p);
      var v := p.text(k);
      AppendConsistent(t, NewArticle(c, id, sector, now), img, TextRowOf(id + 1 + |img|, id, Claim(c), v),
                       StrategyRowOf(id + 2 + |img|, id, p.plan(k, v)));
    }
  }

  /** The loop over `n` candidates is one pass over the last after the loop over the
      others. */
  lemma PrefixStep(t: Tables, batch: seq<Candidate>, n: nat, sector: string, now: int,
                   rejected: set<nat>, p: Providers)
    requires 0 < n <= |batch|
    ensures IngestPrefix(t, batch, n, sector, now, rejected, p) ==
              IngestOne(IngestPrefix(t, batch, n - 1, sector, now, rejected, p), batch[n - 1], n - 1,
                        sector, now, rejected, p)
  {
  }

  /** The whole loop keeps the store consistent: in particular one batch never
      stores two articles with the same URL. */
  lemma {:induction false} IngestPrefixConsistent(t: Tables, r: Tables, batch: seq<Candidate>, n: nat,
                                                  sector: string, now: int, rejected: set<nat>, p: Providers)
    requires n <= |batch| && Consistent(t)
    requires r == IngestPrefix(t, batch, n, sector, now, rejected, p)
    ensures Consistent(r)
    decreases n
  {
    if n > 0 {
      var prev := IngestPrefix(t, batch, n - 1, sector, now, rejected, p);
      IngestPrefixConsistent(t, prev, batch, n - 1, sector, now, rejected, p);
      PrefixStep(t, batch, n, sector, now, rejected, p);
      IngestOneConsistent(prev, r, batch[n - 1], n - 1, sector, now, rejected, p);
    }
  }

  /** The loop only appends: every table of the old store is a prefix of the new one. */
  lemma {:induction false} IngestPrefixAppends(t: Tables, batch: seq<Candidate>, n: nat, sector: string,
                                               now: int, rejected: set<nat>, p: Providers)
    requires n <= |batch|
    ensures var r := IngestPrefix(t, batch, n, sector, now, rejected, p);
            t.articles <= r.articles && t.imageChecks <= r.imageChecks &&
            t.textChecks <= r.textChecks && t.strategies <= r.strategies && t.nextId <= r.nextId
  {
    if n > 0 {
      IngestPrefixAppends(t, batch, n - 1, sector, now, rejected, p);
    }
  }

  /** After the loop, the URL of every complete candidate whose insert was accepted
      is stored, whether it was stored before or inserted now. */
  lemma {:induction false} IngestPrefixStoresUrls(t: Tables, batch: seq<Candidate>, n: nat, sector: string,
                                                  now: int, rejected: set<nat>, p: Providers)
    requires n <= |batch|
    ensures forall k :: 0 <= k < n && Complete(batch[k]) && k !in rejected ==>
              UrlStored(IngestPrefix(t, batch, n, sector, now, rejected, p).articles, batch[k].url)
  {
    if n > 0 {
      var prev := IngestPrefix(t, batch, n - 1, sector, now, rejected, p);
      var r := IngestPrefix(t, batch, n, sector, now, rejected, p);
      IngestPrefixStoresUrls(t, batch, n - 1, sector, now, rejected, p);
      PrefixStep(t, batch, n, sector, now, rejected, p);
      forall k | 0 <= k < n && Complete(batch[k]) && k !in rejected
        ensures UrlStored(r.articles, batch[k].url)
      {
        OneKeepsUrls(prev, batch[n - 1], n - 1, sector, now, rejected, p, batch[k].url);
      }
    }
  }

  /** One pass keeps every stored URL and stores the candidate's own unless its
      insert is refused or it is incomplete. */
  lemma OneKeepsUrls(t: Tables, c: Candidate, k: nat, sector: string, now: int, rejected: set<nat>,
                     p: Providers, url: string)
    ensures UrlStored(t.articles, url) ==> UrlStored(IngestOne(t, c, k, sector, now, rejected, p).articles, url)
    ensures Complete(c) && k !in rejected && url == c.url ==>
              UrlStored(IngestOne(t, c, k, sector, now, rejected, p).articles, url)
  {
    var r := IngestOne(t, c, k, sector, now, rejected, p);
    if UrlStored(t.articles, url) {
      var i :| 0 <= i < |t.articles| && t.articles[i].url == url;
      assert r.articles[i] == t.articles[i];
    } else if Complete(c) && k !in rejected && url == c.url {
      assert r.articles[|t.articles|].url == url;
    }
  }

  /** A batch whose complete candidates are all stored already changes nothing,
      whatever the services answer and whichever inserts would fail. */
  lemma {:induction false} RerunChangesNothing(t: Tables, batch: seq<Candidate>, n: nat, sector: string,
                                               now: int, rejected: set<nat>, p: Providers)
    requires n <= |batch|
    requires forall k :: 0 <= k < n && Complete(batch[k]) ==> UrlStored(t.articles, batch[k].url)
    ensures IngestPrefix(t, batch, n, sector, now, rejected, p) == t
  {
    if n > 0 {
      RerunChangesNothing(t, batch, n - 1, sector, now, rejected, p);
    }
  }

  /** Ingesting the same batch a second time inserts nothing, once every insert of
      the first run was accepted. */
  lemma IngestTwice(t: Tables, batch: seq<Candidate>, sector: string, now: int, later: int,
                    rejected: set<nat>, p: Providers, p2: Providers)
    ensures var once := IngestPrefix(t, batch, |batch|, sector, now, {}, p);
            IngestPrefix(once, batch, |batch|, sector, later, rejected, p2) == once
  {
    var once := IngestPrefix(t, batch, |batch|, sector, now, {}, p);
    IngestPrefixStoresUrls(t, batch, |batch|, sector, now, {}, p);
    RerunChangesNothing(once, batch, |batch|, sector, later, rejected, p2);
  }

  // ---------------------------------------------------------------------------
  // The store

  /** The four tables, updated in place by the pipeline. */
  class Store {
    var articles: seq<ArticleRow>
    var imageChecks: seq<ImageCheckRow>
    var textChecks: seq<TextCheckRow>
    var strategies: seq<StrategyRow>
    var nextId: nat

    function Snapshot(): Tables
      reads this
    {
      Tables(articles, imageChecks, textChecks, strategies, nextId)
    }

    ghost predicate Valid()
      reads this
    {
      Consistent(Snapshot())
    }

    constructor ()
      ensures Snapshot() == EmptyTables() && Valid()
    {
      articles, imageChecks, textChecks, strategies, nextId := [], [], [], [], 0;
    }

    /** The lookup of an article by URL. */
    method HasArticleWithUrl(url: string) returns (found: bool)
      ensures found <==> UrlStored(articles, url)
    {
      for i := 0 to |articles|
        invariant forall j :: 0 <= j < i ==> articles[j].url != url
      {
        if articles[i].url == url {
          return true;
        }
      }
      return false;
    }

    /** Inserts an article, giving it the next id, and returns that id. */
    method InsertArticle(a: ArticleRow) returns (id: nat)
      modifies this
      ensures id == old(nextId)
      ensures Snapshot() == old(Snapshot()).(articles := old(articles) + [a.(id := id)], nextId := id + 1)
    {
      id := nextId;
      articles := articles + [a.(id := id)];
      nextId := nextId + 1;
    }

    /** `processImageCheck`: check the image and insert its row. */
    method ProcessImageCheck(articleId: nat, imageUrl: string, p: Providers, k: nat)
      modifies this
      ensures Snapshot() == old(Snapshot()).(
                imageChecks := old(imageChecks) + [ImageRowOf(old(nextId), articleId, imageUrl, p.image(k, imageUrl))],
                nextId := old(nextId) + 1)
    {
      var v := p.image(k, imageUrl);
      imageChecks := imageChecks + [ImageRowOf(nextId, articleId, imageUrl, v)];
      nextId := nextId + 1;
    }

    /** `processTextVerification`: check the claim, insert its row, then plan and
      insert the strategy row. */
    method ProcessTextVerification(articleId: nat, claim: string, p: Providers, k: nat)
      modifies this
      ensures Snapshot() == old(Snapshot()).(
                textChecks := old(textChecks) + [TextRowOf(old(nextId), articleId, claim, p.text(k))],
                strategies := old(strategies) + [StrategyRowOf(old(nextId) + 1, articleId, p.plan(k, p.text(k)))],
                nextId := old(nextId) + 2)
    {
      var v := p.text(k);
      textChecks := textChecks + [TextRowOf(nextId, articleId, claim, v)];
      nextId := nextId + 1;
      var s := p.plan(k, v);
      strategies := strategies + [StrategyRowOf(nextId, articleId, s)];
      nextId := nextId + 1;
    }

    /** The body of the loop of `fetchArticles` for the candidate at position `k`. */
    method IngestCandidate(c: Candidate, k: nat, sector: string, now: int, rejected: set<nat>, p: Providers)
      requires Valid()
      modifies this
      ensures Snapshot() == IngestOne(old(Snapshot()), c, k, sector, now, rejected, p)
      ensures Valid()
    {
      if !Complete(c) {
        return;
      }
      var stored := HasArticleWithUrl(c.url);
      if stored || k in rejected {
        return;
      }
      var id := InsertArticle(NewArticle(c, 0, sector, now));
      assert articles == old(articles) + [NewArticle(c, id, sector, now)];
      if Truthy(c.urlToImage) {
        ProcessImageCheck(id, c.urlToImage.value, p, k);
      }
      ProcessTextVerification(id, Claim(c), p, k);
      IngestOneConsistent(old(Snapshot()), Snapshot(), c, k, sector, now, rejected, p);
    }

    /** The loop of `fetchArticles` over a candidate list. */
    method IngestAll(batch: seq<Candidate>, sector: string, now: int, rejected: set<nat>, p: Providers)
      requires Valid()
      modifies this
      ensures Snapshot() == IngestPrefix(old(Snapshot()), batch, |batch|, sector, now, rejected, p)
      ensures Valid()
    {
      for i := 0 to |batch|
        invariant Snapshot() == IngestPrefix(old(Snapshot()), batch, i, sector, now, rejected, p)
        invariant Valid()
      {
        IngestCandidate(batch[i], i, sector, now, rejected, p);
      }
    }
  }

  /** `fetchArticles`: fetch the candidates for a sector, ingest them into the store and
      return them all, skipped ones included; a failing news source fails the whole
      call and leaves the store as it was. The checks are `p`, which in the running
      application is `ProvidersOf(env, now)` for the services `env`. */
  method FetchArticles(store: Store, sector: string, newsKey: Option<string>, feed: Option<Headlines>,
                       ages: seq<nat>, now: int, rejected: set<nat>, p: Providers)
    returns (r: Result<seq<Candidate>>)
    requires |ages| == 5 && forall i :: 0 <= i < 5 ==> ages[i] <= DayMs
    requires store.Valid()
    modifies store
    ensures r == Candidates(sector, newsKey, feed, ages, now)
    ensures r.Failure? ==> store.Snapshot() == old(store.Snapshot())
    ensures r.Success? ==>
              store.Snapshot() == IngestPrefix(old(store.Snapshot()), r.value, |r.value|, sector, now, rejected, p)
    ensures store.Valid()
  {
    r := Candidates(sector, newsKey, feed, ages, now);
    if r.Success? {
      store.IngestAll(r.value, sector, now, rejected, p);
    }
  }
}
