# RealityCheck, modelled in Dafny

RealityCheck is a news-verification web application. A pipeline takes news
headlines into a store of four tables:
- articles;
- image checks, from a reverse image search;
- text checks, from a language model's fact-check;
- strategies, a model's action plan for each verdict.

Two dashboard pages join the tables and count verdicts. An article card and
an article page turn stored statuses into badges. A discover page enhances
and filters stored articles. Two document-analysis pages turn uploads into
simulated digests, which can be filtered, sorted and exported as Markdown.
Two chat pages hold a conversation with simulated models, one of them with
saved sessions.

This project models that logic in Dafny. Every random draw and every clock
reading is a parameter, with a `requires` that bounds it to the range the
source produces (`Math.floor(Math.random() * n)` is a draw below `n`). Every
remote answer (news service, image search, language model, store query) is an
`Option` or `Result` parameter. `JSON.parse` is a function parameter that
answers `None` on malformed text.

Modules, one per source file plus shared helpers:
- `Wrappers`, `Text`, `Lists`: Option/Result, JavaScript string helpers
  (`||` defaults, `trim`, `toLowerCase`, `includes`, `split`/`join`, number
  formatting), and list helpers (filter, a stable insertion sort standing in
  for `Array.prototype.sort`).
- `Schema`: the status and priority enumerations and the rows of the four
  tables.
- `ImageCheck`, `TextClaim`, `Strategize`: the three verdict functions, pure.
- `News`, `Ingest`: the candidate source and the ingestion pipeline. `Ingest`
  has a `Store` class whose loop is proved against the functional `IngestPrefix`.
- `Pulse`: the dashboard of `GlobalPulsePage.tsx`. `Dashboard.tsx` is a copy
  of the same code, so both are modelled once.
- `ArticleCard`, `ArticleDetail`, `Discover`, `Research`, `Insight`, `Chat`,
  `Oracle`: one module per page. Each has a class for the page state its
  handlers update.

Where the source and its description disagree, the model follows the code:
- `extractDomain` removes the first `www.` anywhere in the host name, not only
  a leading one.
- A chat reply for a model that is not on the menu names "undefined".
- The insight page has no trust sort key.
- An image check's status reads "Verified", "Mixed" or "False" on the article
  page, but "Verified", "Suspicious" or "Manipulated" on the card.

## Model

| member | source | states |
|---|---|---|
| Schema.ParseTextStatus | src/functions/summarizeAndStrategize.ts:138 | the strategy table's lookup by status string: a hit is the status whose label is that string; a miss means no status has that label |
| Schema.ParseLabel | src/lib/supabase.ts:86 | every stored text status is found again by its own label |
| ImageCheck.ClassifyLive | src/functions/detectImageManipulation.ts:34-43 | live thresholds: 0 sightings ⇒ verified (95), 1–4 ⇒ suspicious (70), 5 or more ⇒ manipulated (85), each an if-and-only-if |
| ImageCheck.ClassifyMock | src/functions/detectImageManipulation.ts:72-78 | simulated thresholds: 0 ⇒ verified, 1–2 ⇒ suspicious, 3 or more ⇒ manipulated, each an if-and-only-if |
| ImageCheck.LiveSeverityMonotone | src/functions/detectImageManipulation.ts:34-43 | more sightings never make a live verdict less severe |
| ImageCheck.MockSeverityMonotone | src/functions/detectImageManipulation.ts:72-78 | more sightings never make a simulated verdict less severe |
| ImageCheck.MockAtLeastAsSevere | src/functions/detectImageManipulation.ts:34-78 | for the same count the simulation is at least as severe as a live search, and strictly more severe exactly for 3 or 4 sightings |
| ImageCheck.Earliest | src/functions/detectImageManipulation.ts:21-26 | the `reduce` seeded with now: the result is never later than the seed or any crawl date, and it is the seed or one of those dates |
| ImageCheck.Domains | src/functions/detectImageManipulation.ts:28 | the domains of the sightings, one per sighting, in order |
| ImageCheck.DistinctCount | src/functions/detectImageManipulation.ts:53 | `new Set(list).size` is at most the list's length, and at least 1 for a non-empty list |
| ImageCheck.DistinctAtMostLength | src/functions/detectImageManipulation.ts:53 | a list has at most as many distinct values as elements |
| ImageCheck.LiveAnalysis | src/functions/detectImageManipulation.ts:20-56 | match count = number of matches (0 when missing); no earliest date iff no matches, otherwise the minimum of now and all crawl dates; context = domains of the first five matches; status/confidence by the live thresholds; unique domains = distinct count of the context |
| ImageCheck.MockAnalysis | src/functions/detectImageManipulation.ts:66-101 | count below 10, confidence 70–99, status by the mock thresholds, earliest date absent iff count is 0 and otherwise within the last year, context = first min(count, 5) pool domains, unique domains = min(count, 3) |
| ImageCheck.DetectImageManipulation | src/functions/detectImageManipulation.ts:8-64 | the simulation for a missing/empty/placeholder key or a failed search, the live analysis otherwise; every verdict is well formed, so the function never fails |
| TextClaim.SearchFactCheck | src/functions/verifyTextClaim.ts:81-103 | a prefix of the five sources of length 1–3 and a prefix of the three citations of length 1–2 |
| TextClaim.MockTextVerification | src/functions/verifyTextClaim.ts:105-127 | one of the four statuses with its fixed reasoning, confidence 60–99, the two fixed citations and sources, and the two red flags exactly when the status is false |
| TextClaim.MergeAnalysis | src/functions/verifyTextClaim.ts:61-68 | status, score and reasoning passed on; citations = the model's (none if missing) followed by the lookup's, as a plain concatenation with duplicates kept; red flags default to none |
| TextClaim.VerifyTextClaim | src/functions/verifyTextClaim.ts:8-79 | missing key, empty reply or unparsable reply ⇒ the simulation; otherwise the merge with the lookup; always 1–3 fact-check sources |
| TextClaim.CitationsEndWithLookup | src/functions/verifyTextClaim.ts:65 | a verdict's citations are the simulation's pair, or end with a fact-check citation |
| Strategize.PlanFor | src/functions/summarizeAndStrategize.ts:87-136 | every row of the table has a summary, exactly four action steps and three stakeholders |
| Strategize.PlanPriorities | src/functions/summarizeAndStrategize.ts:87-136 | true ⇒ low/long-term, false ⇒ critical/immediate, mixed ⇒ high/short-term, unverified ⇒ medium/short-term |
| Strategize.PlanForStatus | src/functions/summarizeAndStrategize.ts:138 | a recognised status selects its own row; a missing or unrecognised status selects the unverified row |
| Strategize.MockStrategy | src/functions/summarizeAndStrategize.ts:84-145 | the selected row with everything but the priority unchanged; the priority changes only from critical to high, and exactly when a score is given and is below 70 (a missing score compares false with 70, so it stays critical) |
| Strategize.MockCriticalExactly | src/functions/summarizeAndStrategize.ts:141-143 | a simulated plan is critical iff the verdict is false and its score is missing or at least 70 |
| Strategize.LivePlan | src/functions/summarizeAndStrategize.ts:64-72 | the parsed plan with defaults: no steps, priority medium, timeframe short-term, no stakeholders |
| Strategize.SummarizeAndStrategize | src/functions/summarizeAndStrategize.ts:16-82 | missing key, empty reply or unparsable reply ⇒ the simulated plan; otherwise the parsed plan with defaults; the priority is never empty |
| News.MockArticles | src/functions/fetchArticles.ts:130-177 | five complete candidates, all with images, titled `[` + upper-cased sector + `] ` + base title, with the fixed URLs |
| News.Candidates | src/functions/fetchArticles.ts:14-26 | no usable key ⇒ the five simulated candidates; a usable key ⇒ the service's articles (none when the list is missing), and failure exactly when the service call fails |
| Ingest.ProvidersOf | src/functions/fetchArticles.ts:83-128 | the image and text checks the loop dispatches are the three verdict functions on the services' answers, and every image verdict is well formed |
| Ingest.NewArticle | src/functions/fetchArticles.ts:43-52 | title, URL and image from the candidate, content = description, sector = the argument, publication time = the candidate's or now |
| Ingest.ImageRowKeepsVerdict | src/functions/fetchArticles.ts:87-95 | for a well-formed verdict the `||` defaults never apply: the row keeps its count, confidence, status and context |
| Ingest.TextRowOf | src/functions/fetchArticles.ts:106-113 | claim cut to its first 500 characters; status default unverified, score default 75 (0 also becomes 75), reasoning default text, citations passed on |
| Ingest.StrategyRowOf | src/functions/fetchArticles.ts:118-123 | summary and steps of the plan; priority default medium |
| Ingest.EmptyTables | src/lib/supabase.ts:11 | the empty store satisfies the pipeline's consistency invariant |
| Ingest.IngestOne | src/functions/fetchArticles.ts:29-72 | a skipped candidate (incomplete, URL already stored, or insert refused) leaves the store unchanged; otherwise the new article, its image-check rows, the text-check row for the claim `title + " " + description` with the text verdict, and the strategy row for the plan made from that verdict are appended, with consecutive ids |
| Ingest.ImageRows | src/functions/fetchArticles.ts:62-64 | an image check for the new article exactly when the candidate has an image, and that row is the detector's verdict on the image stored with its defaults |
| Ingest.ImageRowOf | src/functions/fetchArticles.ts:87-95 | the image-check row keeps the article, URL, match count, earliest date and context of the verdict; confidence 0 becomes 85; an empty status becomes verified |
| Ingest.IngestPrefix | src/functions/fetchArticles.ts:29-72 | the loop over the first n candidates inserts at most one article per candidate |
| Ingest.IngestOneConsistent | src/functions/fetchArticles.ts:29-72 | one loop pass keeps the store consistent: increasing ids, distinct URLs, one text check and one strategy per article in article order with the strategy after the text check, image checks for exactly the articles with images |
| Ingest.IngestPrefixConsistent | src/functions/fetchArticles.ts:29-72 | the whole loop keeps the store consistent, so one batch never stores two articles with the same URL |
| Ingest.IngestPrefixAppends | src/functions/fetchArticles.ts:29-72 | the loop only appends: each old table is a prefix of the new one |
| Ingest.IngestPrefixStoresUrls | src/functions/fetchArticles.ts:33-59 | after the loop, the URL of every complete candidate whose insert was not refused is stored |
| Ingest.RerunChangesNothing | src/functions/fetchArticles.ts:33-40 | a batch whose complete candidates are all stored already changes nothing |
| Ingest.IngestTwice | src/functions/fetchArticles.ts:33-40 | running the same batch again inserts nothing |
| Ingest.Store.constructor | src/lib/supabase.ts:11 | the store starts with four empty tables |
| Ingest.Store.HasArticleWithUrl | src/functions/fetchArticles.ts:34-38 | found iff an article with that URL is stored |
| Ingest.Store.InsertArticle | src/functions/fetchArticles.ts:43-54 | the article is appended with the next id, which is returned; nothing else changes |
| Ingest.Store.ProcessImageCheck | src/functions/fetchArticles.ts:83-99 | exactly one image-check row is appended, built from the verdict with the stored defaults |
| Ingest.Store.ProcessTextVerification | src/functions/fetchArticles.ts:101-128 | a text-check row and then a strategy row for that verdict are appended |
| Ingest.Store.IngestCandidate | src/functions/fetchArticles.ts:30-71 | the loop body changes the store exactly as `IngestOne` says and keeps it consistent |
| Ingest.Store.IngestAll | src/functions/fetchArticles.ts:29-72 | the loop changes the store exactly as the functional loop `IngestPrefix` says and keeps it consistent |
| Ingest.FetchArticles | src/functions/fetchArticles.ts:9-81 | returns the full candidate list, skipped ones included; a failing news service fails the call and leaves the store unchanged |
| Pulse.JoinArticle | src/pages/GlobalPulsePage.tsx:85-90 | each check of the view is the first joined row of its kind, or absent exactly when there is none |
| Pulse.SectorArticles | src/pages/GlobalPulsePage.tsx:77-79 | exactly the stored articles of the sector (all of them for `all`), none more often than stored |
| Pulse.LoadQuery | src/pages/GlobalPulsePage.tsx:56-79 | exactly 50 articles of the sector, or all of them when there are fewer, none more often than stored, newest first |
| Pulse.LoadQueryKeepsNewest | src/pages/GlobalPulsePage.tsx:74-75 | an article of the sector is left out only when 50 loaded articles are at least as new |
| Pulse.LoadQueryComplete | src/components/Dashboard.tsx:75-80 | a sector with at most 50 articles is loaded completely |
| Pulse.Load | src/pages/GlobalPulsePage.tsx:85-90 | one joined view per loaded row, in order |
| Pulse.FetchSector | src/pages/GlobalPulsePage.tsx:142 | `all` fetches `general`; any other sector fetches itself; `all` is never fetched |
| Pulse.ComputeStats | src/pages/GlobalPulsePage.tsx:120-137 | total = number of articles; the three counts are the sizes of their filters; verified + suspicious ≤ total, verified + processing ≤ total, processing + articles with both checks = total |
| Pulse.VerifiedExactly | src/components/Dashboard.tsx:124-135 | an article is counted verified iff image verified and text true, and then it is counted neither suspicious nor processing |
| Pulse.SearchFilter | src/pages/GlobalPulsePage.tsx:151-154 | the kept articles match the query, keep their order, and an empty query keeps all |
| Pulse.SearchFilterExactly | src/components/Dashboard.tsx:152-155 | an article is shown iff it is loaded and its title or content contains the query, ignoring case |
| Pulse.NoImageStaysProcessing | src/functions/fetchArticles.ts:62-64 | in a consistent store an article without an image has no image check, so it counts as processing and never as verified |
| Pulse.PulseBoard.constructor | src/pages/GlobalPulsePage.tsx:35-44 | no articles, zero counts, sector `all`, empty query |
| Pulse.PulseBoard.LoadArticles | src/pages/GlobalPulsePage.tsx:53-99 | a successful query replaces the list and recomputes the counts; a failed query leaves both |
| Pulse.PulseBoard.SelectSector | src/pages/GlobalPulsePage.tsx:48-51 | choosing a sector reloads for that sector |
| Pulse.PulseBoard.SetSearchQuery | src/pages/GlobalPulsePage.tsx:38 | only the query changes |
| Pulse.PulseBoard.Shown | src/pages/GlobalPulsePage.tsx:151-154 | shown iff loaded and the title or content contains the query, case-insensitively, in load order |
| Pulse.PulseBoard.FetchNewArticles | src/pages/GlobalPulsePage.tsx:139-149 | ingests the candidates of the mapped sector, then reloads from the new store; a failed fetch changes neither store, list nor counters; a failed reload keeps the list and counters |
| ArticleCard.FormatDate | src/components/ArticleCard.tsx:48-56 | "Just now" iff less than an hour has passed (future dates included); whole hours + "h ago" below a day; whole days + "d ago" after |
| ArticleCard.DivDiv | src/components/ArticleCard.tsx:55 | whole days of whole hours are the whole days of the elapsed time |
| ArticleCard.HoursReadDistinctly | src/components/ArticleCard.tsx:54 | within a day, two ages read the same iff they have the same whole hours |
| ArticleCard.ImageBadge | src/components/ArticleCard.tsx:58-98 | Verified/Suspicious/Manipulated iff the status is that word; Processing iff the check is missing or its status is anything else |
| ArticleCard.TextBadge | src/components/ArticleCard.tsx:100-140 | Processing iff no check; Verified/Mixed/False iff true/mixed/false; Unverified iff any other status |
| ArticleCard.VerifiedBadgesAreCounted | src/components/ArticleCard.tsx:58-140 | a card shows two Verified badges iff the dashboard counts it verified |
| ArticleCard.DoubtfulBadgesAreCounted | src/components/ArticleCard.tsx:58-140 | a card shows Suspicious, Manipulated or False iff the dashboard counts it suspicious |
| ArticleCard.ProcessingBadgeIsShown | src/components/ArticleCard.tsx:59-65 | an article counted as processing shows at least one Processing badge |
| ArticleCard.ConfidenceNote | src/components/ArticleCard.tsx:209 | ` (n%)` exactly when there is a check, where n is the score's decimal text and reads back as the score |
| ArticleCard.ImageBadgeLabel | src/components/ArticleCard.tsx:208-209 | with a check, the image badge followed by the note for its confidence score; the bare word Processing iff there is no check |
| ArticleCard.TextBadgeLabel | src/components/ArticleCard.tsx:215-216 | with a check, the text badge followed by the note for its confidence score; the bare word Processing iff there is no check |
| ArticleCard.MatchLine | src/components/ArticleCard.tsx:246-251 | "n matches" exactly when there is an image check |
| ArticleCard.Snippet | src/components/ArticleCard.tsx:200 | the first min(length, 150) characters of the content, then "..." |
| ArticleCard.FeedbackFor | src/components/ArticleCard.tsx:154-159 | rating 5 iff helpful, 1 iff not; no feedback text |
| ArticleCard.Card.constructor | src/components/ArticleCard.tsx:46 | feedback not yet submitted |
| ArticleCard.Card.SubmitFeedback | src/components/ArticleCard.tsx:152-164 | sends the feedback record; the flag is set once the insert call returns and stays set; the buttons disappear with it |
| ArticleDetail.VerificationBadge | src/pages/ArticleDetailPage.tsx:188-222 | Verified iff verified or true; Mixed iff suspicious or mixed; False iff manipulated or false; Unverified iff anything else |
| ArticleDetail.BadgeIgnoresConfidence | src/pages/ArticleDetailPage.tsx:188 | the confidence argument never changes the badge |
| ArticleDetail.ImageBadge | src/pages/ArticleDetailPage.tsx:278 | a missing check reads Unverified; otherwise the shared rule on its status |
| ArticleDetail.TextBadge | src/pages/ArticleDetailPage.tsx:279 | a missing check reads Unverified; otherwise the shared rule on its status |
| ArticleDetail.ImageBadgesCorrespond | src/pages/ArticleDetailPage.tsx:278 | card Verified/Suspicious/Manipulated reads Verified/Mixed/False on the page; a missing check is Processing on the card and Unverified on the page |
| ArticleDetail.TextBadgesAgree | src/pages/ArticleDetailPage.tsx:279 | for the four stored text statuses, the page and the card show the same badge |
| ArticleDetail.Paragraphs | src/pages/ArticleDetailPage.tsx:424 | the pieces between blank lines: at least one, none containing a blank line, and joining them gives back the content |
| ArticleDetail.DetailPage.constructor | src/pages/ArticleDetailPage.tsx:70 | the page starts without a bookmark |
| ArticleDetail.DetailPage.ToggleBookmark | src/pages/ArticleDetailPage.tsx:236-239 | the bookmark flag flips |
| Discover.Ranked | src/pages/DiscoverPage.tsx:71-85 | a permutation of the stored articles; latest published first for `latest`, newest created first for `trending`, `verified` and `global` |
| Discover.Query | src/pages/DiscoverPage.tsx:66-85 | exactly 20 stored articles, or all of them when fewer are stored, none more often than stored; latest published first for `latest`, newest created first for the other three filters |
| Discover.QueryKeepsLatest | src/pages/DiscoverPage.tsx:66-76 | with `latest`, a stored article is left out only when 20 articles published no earlier are loaded |
| Discover.QueryKeepsNewest | src/pages/DiscoverPage.tsx:66-84 | with `trending`, `verified` or `global`, a stored article is left out only when 20 articles created no earlier are loaded |
| Discover.QueryComplete | src/pages/DiscoverPage.tsx:66-69 | with at most 20 stored articles, every one is loaded whatever the filter |
| Discover.ExtractDomain | src/pages/DiscoverPage.tsx:110-116 | an unparsable URL ⇒ "Unknown Source"; a host without `www.` is kept; otherwise the first occurrence of `www.` is cut out and the rest kept around it |
| Discover.ExtractDomainStripsPrefix | src/pages/DiscoverPage.tsx:112 | a host starting with `www.` loses exactly that prefix |
| Discover.Picked | src/pages/DiscoverPage.tsx:130 | the filter with a random coin per tag keeps, in order, the tags whose coin came up and nothing else |
| Discover.GenerateTags | src/pages/DiscoverPage.tsx:128-132 | the capitalised sector first, then the first at most three picked popular tags, in list order |
| Discover.Enhance | src/pages/DiscoverPage.tsx:91-98 | the article with its source, tags, no related articles and a trust score of 70–99 |
| Discover.EnhanceAll | src/pages/DiscoverPage.tsx:91-98 | one enhanced article per loaded row, in order, each trusted 70–99 |
| Discover.MockArticles | src/pages/DiscoverPage.tsx:134-165 | two articles with trust in range, published one and two hours ago |
| Discover.LoadOutcome | src/pages/DiscoverPage.tsx:63-108 | a failed load gives the two mock articles; otherwise the enhanced query answer; every trust score is 70–99 |
| Discover.ToggleTag | src/pages/DiscoverPage.tsx:175-181 | the tag's membership flips, every other tag's membership is kept; a selected tag is removed everywhere keeping order; an unselected one is appended |
| Discover.ToggleTwice | src/pages/DiscoverPage.tsx:175-181 | toggling an unselected tag twice restores the selection |
| Discover.ToggleTwiceSelected | src/pages/DiscoverPage.tsx:175-181 | toggling a selected tag twice removes its copies and puts it once at the end |
| Discover.FilteredArticles | src/pages/DiscoverPage.tsx:167-173 | an article passes iff its title or content contains the query (ignoring case) and no tag is selected or one of its tags is selected; order is kept |
| Discover.NoFilterShowsAll | src/pages/DiscoverPage.tsx:167-173 | no query and no tags show every article |
| Discover.Page.constructor | src/pages/DiscoverPage.tsx:41-45 | no articles, filter `trending`, empty query, no tags |
| Discover.Page.LoadArticles | src/pages/DiscoverPage.tsx:63-108 | the articles become the load outcome for the selected filter |
| Discover.Page.SelectFilter | src/pages/DiscoverPage.tsx:59-61 | choosing a filter reloads for it |
| Discover.Page.SetSearchQuery | src/pages/DiscoverPage.tsx:44 | only the query changes |
| Discover.Page.ClickTag | src/pages/DiscoverPage.tsx:175-181 | the selection is toggled and nothing else changes |
| Discover.Page.Shown | src/pages/DiscoverPage.tsx:167-173 | shown iff on the page and passing both halves of the filter |
| Research.DrawnCategory | src/pages/ResearchPage.tsx:96 | the drawn category is one of the six after `all`, never `all` |
| Research.Complexity | src/pages/ResearchPage.tsx:132 | the complexity is low, medium or high |
| Research.Analyze | src/pages/ResearchPage.tsx:91-136 | id, name, type and date from the file and draws; category never `all`; confidence 80–99, trust 85–99, words 1000–5999, reading time 5–24; status completed; an empty context is stored as "General analysis" |
| Research.Analyses | src/pages/ResearchPage.tsx:90-140 | one well-formed result per file, in upload order |
| Research.AnalysesSnoc | src/pages/ResearchPage.tsx:139 | one more file adds its one result at the end |
| Research.FilteredResults | src/pages/ResearchPage.tsx:234-236 | `all` keeps every result, another tab exactly those of its category; order kept |
| Research.AllTabKeepsEverything | src/pages/ResearchPage.tsx:235 | the `all` tab shows the list unchanged |
| Research.Order | src/pages/ResearchPage.tsx:238-251 | each key's comparator is a total preorder |
| Research.SortedResults | src/pages/ResearchPage.tsx:238-251 | a permutation of the filtered list (a sorted copy), ordered by the key |
| Research.SortKeysMeanWhatTheySay | src/pages/ResearchPage.tsx:240-247 | date, confidence and trust descending; name ascending |
| Research.UnknownKeyKeepsOrder | src/pages/ResearchPage.tsx:248-249 | any other key keeps the filtered order |
| Research.Bullets | src/pages/ResearchPage.tsx:192 | one line per item, in order, each the item after `- ` |
| Research.LinkLines | src/pages/ResearchPage.tsx:195 | one line per causal link, in order, each that link's arrow line |
| Research.ReportParts | src/pages/ResearchPage.tsx:180-218 | the report's 38 lines, with the key-fact, causal-link and next-action sections at fixed places |
| Research.ReportLines | src/pages/ResearchPage.tsx:180-218 | the report line by line: the head, then the key facts one per line from line 12, the Causal Links heading and the links one per line right after them, and the next actions one per line just above the closing rule and footer |
| Research.ReportJoin | src/pages/ResearchPage.tsx:191-213 | a list joined into one template part gives the same text as its items on lines of their own |
| Research.MarkdownReport | src/pages/ResearchPage.tsx:180-218 | the document is the report's lines, each followed by a line break |
| Research.MarkdownReportLines | src/pages/ResearchPage.tsx:180-218 | when no printed field holds a line break, splitting the document on line breaks before its last one gives back exactly the report's lines |
| Research.BulletSectionLines | src/pages/ResearchPage.tsx:192 | the section's lines are exactly `- ` + each item, in order |
| Research.LinkSectionLines | src/pages/ResearchPage.tsx:195 | the section's lines are exactly one arrow line per link, in order |
| Research.ResearchPage.constructor | src/pages/ResearchPage.tsx:61-67 | empty lists, tab `all`, sort `date`, nothing expanded |
| Research.ResearchPage.OnDrop | src/pages/ResearchPage.tsx:71-73 | dropped files are appended after the uploaded ones |
| Research.ResearchPage.AnalyzeDocuments | src/pages/ResearchPage.tsx:85-144 | no uploads ⇒ nothing changes; otherwise one result per upload is appended in order, the uploads are emptied and analysis ends; every stored result is well formed |
| Research.ResearchPage.SetUserContext | src/pages/ResearchPage.tsx:312 | only the context changes |
| Research.ResearchPage.SelectCategory | src/pages/ResearchPage.tsx:427 | only the tab changes |
| Research.ResearchPage.SelectSort | src/pages/ResearchPage.tsx:443 | only the sort key changes |
| Research.ResearchPage.ToggleExpanded | src/pages/ResearchPage.tsx:550 | clicking the expanded result collapses it; clicking another expands that one |
| Research.ResearchPage.Shown | src/pages/ResearchPage.tsx:234-251 | a permutation of the tab's results, holding exactly the results of that tab, in the order of the selected key |
| Insight.Analyze | src/pages/InsightEnginePage.tsx:67-90 | id, name, type and date from the file and draws; category never `all`; confidence 80–99; status completed |
| Insight.Analyses | src/pages/InsightEnginePage.tsx:66-96 | one well-formed result per file, in upload order |
| Insight.AnalysesSnoc | src/pages/InsightEnginePage.tsx:95 | one more file adds its one result at the end |
| Insight.FilteredResults | src/pages/InsightEnginePage.tsx:102-104 | `all` keeps every result, another tab exactly those of its category; order kept |
| Insight.Order | src/pages/InsightEnginePage.tsx:106-117 | each key's comparator is a total preorder |
| Insight.SortedResults | src/pages/InsightEnginePage.tsx:106-117 | a permutation of the filtered list, ordered by the key |
| Insight.SortKeysMeanWhatTheySay | src/pages/InsightEnginePage.tsx:108-113 | date and confidence descending, name ascending |
| Insight.UnknownKeyKeepsOrder | src/pages/InsightEnginePage.tsx:114-115 | any other key, trust included, keeps the filtered order |
| Insight.InsightEnginePage.constructor | src/pages/InsightEnginePage.tsx:37-42 | empty lists, tab `all`, sort `date` |
| Insight.InsightEnginePage.OnDrop | src/pages/InsightEnginePage.tsx:46-48 | dropped files are appended |
| Insight.InsightEnginePage.AnalyzeDocuments | src/pages/InsightEnginePage.tsx:60-100 | no uploads ⇒ nothing changes; otherwise one result per upload is appended in order and the uploads are cleared |
| Insight.InsightEnginePage.SetResearchContext | src/pages/InsightEnginePage.tsx:180 | only the context changes |
| Insight.InsightEnginePage.SelectCategory | src/pages/InsightEnginePage.tsx:295 | only the tab changes |
| Insight.InsightEnginePage.SelectSort | src/pages/InsightEnginePage.tsx:311 | only the sort key changes |
| Insight.InsightEnginePage.Shown | src/pages/InsightEnginePage.tsx:102-117 | a permutation of the tab's results, holding exactly the results of that tab, in the order of the selected key |
| Chat.ModelName | src/pages/ChatPage.tsx:62-87 | a name exactly for the three menu ids |
| Chat.NameInText | src/pages/ChatPage.tsx:212 | the model's name, or "undefined" for an id not on the menu |
| Chat.ResponseSet | src/pages/ChatPage.tsx:209 | mistral and ollama have their own replies; every other model uses the GPT-4 set |
| Chat.MockResponse | src/pages/ChatPage.tsx:190-214 | one of the model's three replies, followed by the closing sentence naming the model, and nothing else |
| Chat.UnknownModelFallsBack | src/pages/ChatPage.tsx:209-213 | a model not on the menu answers with the GPT-4 texts and its closing names "undefined" |
| Chat.SpeakerName | src/pages/ChatPage.tsx:268 | "You" for the user, the model's name for a listed model, otherwise "Assistant" |
| Chat.Blocks | src/pages/ChatPage.tsx:267-269 | one `**speaker**: content` block per message, in order |
| Chat.ExportText | src/pages/ChatPage.tsx:264-270 | nothing exactly for an empty conversation |
| Chat.ExportOne | src/pages/ChatPage.tsx:267-269 | one message exports as its block |
| Chat.ExportSnoc | src/pages/ChatPage.tsx:267-269 | one more message adds its block at the end |
| Chat.WithMessages | src/pages/ChatPage.tsx:243-247 | same number of sessions; the current one gets the messages and the time; every other session is unchanged |
| Chat.WithMessagesKeepsSessions | src/pages/ChatPage.tsx:243-247 | no session is added, removed or renamed |
| Chat.WithoutSession | src/pages/ChatPage.tsx:254 | exactly the sessions with another id stay, in order |
| Chat.ChatPage.constructor | src/pages/ChatPage.tsx:51-56 | empty conversation, model gpt-4, the saved sessions (none if absent), no current session |
| Chat.ChatPage.SetInput | src/pages/ChatPage.tsx:682 | only the input changes |
| Chat.ChatPage.SelectModel | src/pages/ChatPage.tsx:352 | only the model changes |
| Chat.ChatPage.SendMessage | src/pages/ChatPage.tsx:151-164 | blank input changes nothing; otherwise the user message is appended, the input cleared and typing set |
| Chat.ChatPage.DeliverReply | src/pages/ChatPage.tsx:167-187 | one assistant reply tagged with the model is appended, typing stops, and the conversation is saved into the current session if there is one |
| Chat.ChatPage.CreateNewSession | src/pages/ChatPage.tsx:216-230 | an empty session named "Chat " + (old count + 1) is appended and becomes current; the conversation is cleared |
| Chat.ChatPage.LoadSession | src/pages/ChatPage.tsx:232-238 | an unknown id changes nothing; otherwise the first session with that id becomes current and its messages are shown |
| Chat.ChatPage.UpdateCurrentSession | src/pages/ChatPage.tsx:240-251 | no current session ⇒ nothing; otherwise only the current session takes the messages |
| Chat.ChatPage.DeleteSession | src/pages/ChatPage.tsx:253-262 | every session with the id is removed; deleting the current one clears the pointer and the conversation, otherwise both stay |
| Chat.ChatPage.ClearChat | src/pages/ChatPage.tsx:284-289 | the conversation is emptied, in the current session too |
| Oracle.MockResponse | src/pages/OracleRoomPage.tsx:103-126 | one of the model's three replies, followed by the closing sentence naming the model, and nothing else |
| Oracle.UnknownModelFallsBack | src/pages/OracleRoomPage.tsx:122-125 | a model not on the menu answers with the GPT-4 texts and its closing names "undefined" |
| Oracle.OracleRoom.constructor | src/pages/OracleRoomPage.tsx:36-39 | empty conversation, model gpt-4 |
| Oracle.OracleRoom.SetInput | src/pages/OracleRoomPage.tsx:378 | only the input changes |
| Oracle.OracleRoom.SelectModel | src/pages/OracleRoomPage.tsx:198 | only the model changes |
| Oracle.OracleRoom.SendMessage | src/pages/OracleRoomPage.tsx:74-87 | blank input changes nothing; otherwise the user message is appended, the input cleared and typing set |
| Oracle.OracleRoom.DeliverReply | src/pages/OracleRoomPage.tsx:89-100 | one assistant reply tagged with the model is appended and typing stops |
| Oracle.OracleRoom.ClearChat | src/pages/OracleRoomPage.tsx:132-134 | the conversation is emptied |

## Left out

- Remote services are not called. The news service, the reverse image search, the language model and the store's query builder are answers passed in as parameters.
- `Math.random` and the clock are parameters. Dates are milliseconds since the epoch, and ISO strings and `toLocaleDateString` are not modelled: the report's date text is a parameter.
- The random nine-character result ids are parameters.
- Concurrency and timing are not modelled: each handler is one sequential step. This covers:
  - the unawaited image and text checks of the ingest loop, run in order instead;
  - the `setTimeout` reply delays;
  - the real-time subscriptions;
  - the two-second pause per analysed document.
- Chat.ChatPage.DeliverReply: uses the page state when the timer fires, not the state the React closure captured at send time.
- Oracle.OracleRoom.DeliverReply: tags the reply with the model selected when the timer fires. The source's closure uses the model selected at send time, so a switch during the delay is not modelled.
- Ingest.Store.HasArticleWithUrl: the duplicate lookup is modelled as exact. The source ignores the error of `.single()`: a failed lookup, or a URL already stored twice, gives no data and the article is inserted again. The distinct-URL invariant (`ArticlesOrdered`, `IngestPrefixConsistent`) and `IngestTwice` rest on this.
- Ingest.Store.ProcessTextVerification: the text-check insert and the strategy insert (src/functions/fetchArticles.ts:106, 118) are assumed to succeed. The source never inspects their results. `ChecksAligned`, one text check and one strategy per inserted article, rests on this.
- Ingest.Store.ProcessImageCheck: the store is assumed to accept every check row. The source never inspects those inserts, and their failures are not modelled. Only the article insert can be refused, through the `rejected` positions.
- Ingest.FetchArticles: takes the three checks as a `Providers` parameter. `Ingest.ProvidersOf` builds it from the services' answers.
- A thrown error inside one candidate's processing is modelled only as a refused article insert.
- ImageCheck.LiveAnalysis: the live context list is the first five domains as returned, not necessarily distinct.
- Pulse.LoadQuery: the store's `created_at` order is modelled by id order, since rows are created in id order. Ties between equally new rows are not ordered.
- Discover.Query: with an unknown filter the store's own order is not modelled; the result is the first 20 in stored order. As for `Pulse.LoadQuery`, `created_at` order is modelled by id order.
- Lists.InsertionSort: stands in for the engine's sort. The model proves sortedness and permutation, and identity for an all-equal comparator. It makes no claim about how the engine orders equal keys.
- `localeCompare` is modelled as code-point order. Locale collation is not modelled.
- Case mapping (`toLowerCase`, `toUpperCase`) covers ASCII letters only. Other scripts are left unchanged.
- Strings are sequences of characters, not UTF-16 code units. `substring(0, 150)` and the 500-character claim cut therefore count characters.
- Strategize.PlanForStatus: a status string that names an inherited property of a JavaScript object (such as `constructor`) is treated as unrecognised.
- `extractDomain`'s URL parser is a parameter giving the host name, or None when the URL does not parse.
- Browser I/O is left out:
  - the PDF branch of `downloadReport` and its layout loop;
  - Blob downloads, the clipboard and `navigator.share`;
  - `localStorage` writes, except that the chat page starts from the saved sessions;
  - speech recognition and synthesis.
- Styling, icons and colours are left out. Only badge texts, counts and report text carry meaning.
- ArticleDetail.DetailPage: holds only the bookmark flag. The page's `article` and `loading` state are set once by a timer to a fixed mock article, so they are not modelled; the badges and paragraphs are modelled as functions of the article.
- ArticleDetail.ImageBadgesCorrespond: states the card-to-page direction only. An image status that the card shows as Processing (for example "true") reads Verified on the page.
