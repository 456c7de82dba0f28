/** The research page: uploaded documents analysed into reality digests, the digests
    filtered by category and sorted by the key the user picks, and the Markdown report
    downloaded for one of them. */
module Research {
  import opened Wrappers
  import opened Lists
  import opened Text

  /** A dropped file: its name and its MIME type. */
  datatype File = File(name: string, fileType: string)

  datatype CausalLink = CausalLink(cause: string, effect: string, confidence: nat)

  datatype FiveW = FiveW(who: seq<string>, what: seq<string>, when: seq<string>, where: seq<string>, why: seq<string>)

  datatype Digest = Digest(
    summary: string,
    keyFacts: seq<string>,
    causalLinks: seq<CausalLink>,
    fiveW: FiveW,
    confidence: nat,
    trustScore: nat,
    nextActions: seq<string>)

  datatype Metadata = Metadata(wordCount: nat, readingTime: nat, complexity: string, sources: seq<string>)

  /** `ResearchResult`; the upload time is kept in milliseconds. */
  datatype ResearchResult = ResearchResult(
    id: string,
    fileName: string,
    fileType: string,
    uploadDate: int,
    category: string,
    userContext: string,
    digest: Digest,
    metadata: Metadata,
    status: string)

  /** What the analysis of one file takes from outside: the random id, the clock, and a
      draw for each random choice, already scaled to its range. */
  datatype Draws = Draws(
    id: string,
    uploadDate: int,
    category: nat,
    confidence: nat,
    trust: nat,
    words: nat,
    reading: nat,
    complexity: nat)

  predicate ValidDraws(d: Draws) {
    d.category < 6 && d.confidence < 20 && d.trust < 15 && d.words < 5000 && d.reading < 20 && d.complexity < 3
  }

  /** The category tabs; the first one shows everything. */
  const Categories: seq<string> := ["all", "health", "policy", "technology", "research", "business", "security"]

  /** `categories[floor(r * (categories.length - 1)) + 1]`: any tab but "all". */
  function DrawnCategory(draw: nat): (c: string)
    requires draw < |Categories| - 1
    ensures c == Categories[draw + 1] && c != "all"
  {
    Categories[draw + 1]
  }

  function Complexity(draw: nat): (c: string)
    requires draw < 3
    ensures c in {"low", "medium", "high"}
  {
    match draw
    case 0 => "low"
    case 1 => "medium"
    case _ => "high"
  }

  function KeyFact(i: nat): string
    requires i < 5
  {
    match i
    case 0 => "Primary research methodology" + " demonstrates robust analytical" + " framework"
    case 1 => "Data sources include peer-" + "reviewed publications and" + " verified datasets"
    case 2 => "Conclusions are supported by" + " statistical significance" + " testing"
    case 3 => "Recommendations align with" + " current best practices and" + " expert consensus"
    case _ => "Potential limitations and" + " biases have been identified" + " and addressed"
  }

  function NextAction(i: nat): string
    requires i < 5
  {
    match i
    case 0 => "Cross-reference findings with" + " recent peer-reviewed studies"
    case 1 => "Validate conclusions through" + " additional data sources"
    case 2 => "Develop implementation" + " roadmap based on" + " recommendations"
    case 3 => "Schedule stakeholder review" + " and feedback sessions"
    case _ => "Prepare executive summary for" + " decision-makers"
  }

  function Link(i: nat): CausalLink
    requires i < 3
  {
    match i
    case 0 => CausalLink("Increased data availability", "Enhanced analytical" + " precision", 92)
    case 1 => CausalLink("Methodological improvements", "Higher reliability scores", 88)
    case _ => CausalLink("Expert validation", "Increased credibility", 95)
  }

  /** The five lists of `fiveWConnections`, by question (0 = who … 4 = why). */
  function Connection(q: nat, i: nat): string
    requires q < 5 && i < 4
  {
    match q
    case 0 => (match i case 0 => "Research team" case 1 => "Subject matter experts"
                       case 2 => "Peer reviewers" case _ => "Stakeholders")
    case 1 => (match i case 0 => "Data analysis" case 1 => "Methodology validation"
                       case 2 => "Results interpretation" case _ => "Strategic" + " recommendations")
    case 2 => (match i case 0 => "Current period" case 1 => "Historical context"
                       case 2 => "Future projections" case _ => "Timeline considerations")
    case 3 => (match i case 0 => "Primary research location" case 1 => "Data collection sites"
                       case 2 => "Analysis environment" case _ => "Implementation context")
    case _ => (match i case 0 => "Research objectives" case 1 => "Problem identification"
                       case 2 => "Solution development" case _ => "Impact assessment")
  }

  function Source(i: nat): string
    requires i < 4
  {
    match i
    case 0 => "Academic journals"
    case 1 => "Government reports"
    case 2 => "Industry publications"
    case _ => "Expert interviews"
  }

  function Answers(q: nat): (r: seq<string>)
    requires q < 5
    ensures |r| == 4
  {
    seq(4, i requires 0 <= i < 4 => Connection(q, i))
  }

  function Summary(fileName: string, userContext: string): string {
    "Comprehensive analysis of " + fileName + " reveals significant insights" + " related to "
    + OrText(Some(userContext), "the specified domain")
    + ". The document presents" + " evidence-based findings with" + " strong methodological"
    + " foundations and clear" + " implications for strategic" + " decision-making."
  }

  /** A digest the analysis can produce: a real category, scores in their ranges, the
      fixed lists in full, a context that is never empty and a completed status. */
  predicate WellFormed(r: ResearchResult) {
    && r.category in Categories[1..]
    && 80 <= r.digest.confidence <= 99
    && 85 <= r.digest.trustScore <= 99
    && 1000 <= r.metadata.wordCount <= 5999
    && 5 <= r.metadata.readingTime <= 24
    && r.metadata.complexity in {"low", "medium", "high"}
    && |r.digest.keyFacts| == 5 && |r.digest.causalLinks| == 3 && |r.digest.nextActions| == 5
    && |r.metadata.sources| == 4
    && r.userContext != ""
    && r.status == "completed"
  }

  /** The mock result built for one file in `analyzeDocuments`. */
  function Analyze(file: File, userContext: string, d: Draws): (r: ResearchResult)
    requires ValidDraws(d)
    ensures WellFormed(r)
    ensures r.id == d.id && r.fileName == file.name && r.fileType == file.fileType && r.uploadDate == d.uploadDate
    ensures r.userContext == (if userContext == "" then "General analysis" else userContext)
    ensures r.digest.confidence == d.confidence + 80 && r.digest.trustScore == d.trust + 85
  {
    ResearchResult(
      d.id, file.name, file.fileType, d.uploadDate, DrawnCategory(d.category),
      OrText(Some(userContext), "General analysis"),
      Digest(
        Summary(file.name, userContext),
        seq(5, i requires 0 <= i < 5 => KeyFact(i)),
        seq(3, i requires 0 <= i < 3 => Link(i)),
        FiveW(Answers(0), Answers(1), Answers(2), Answers(3), Answers(4)),
        d.confidence + 80,
        d.trust + 85,
        seq(5, i requires 0 <= i < 5 => NextAction(i))),
      Metadata(d.words + 1000, d.reading + 5, Complexity(d.complexity),
               seq(4, i requires 0 <= i < 4 => Source(i))),
      "completed")
  }

  /** The results of a batch: one per file, in upload order, each from its own draws. */
  function Analyses(files: seq<File>, userContext: string, draws: seq<Draws>): (r: seq<ResearchResult>)
    requires |draws| >= |files|
    requires forall i :: 0 <= i < |draws| ==> ValidDraws(draws[i])
    ensures |r| == |files|
    ensures forall i :: 0 <= i < |r| ==> r[i] == Analyze(files[i], userContext, draws[i]) && WellFormed(r[i])
  {
    seq(|files|, i requires 0 <= i < |files| => Analyze(files[i], userContext, draws[i]))
  }

  lemma AnalysesSnoc(files: seq<File>, i: nat, userContext: string, draws: seq<Draws>)
    requires i < |files| <= |draws|
    requires forall k :: 0 <= k < |draws| ==> ValidDraws(draws[k])
    ensures Analyses(files[..i + 1], userContext, draws) ==
              Analyses(files[..i], userContext, draws) + [Analyze(files[i], userContext, draws[i])]
  {
    var longer, shorter := Analyses(files[..i + 1], userContext, draws), Analyses(files[..i], userContext, draws);
    forall k | 0 <= k < i ensures longer[k] == shorter[k] {
      assert files[..i + 1][k] == files[..i][k];
    }
  }

  // ---------------------------------------------------------------------------
  // Filtering and sorting

  /** `filteredResults`: the "all" tab keeps every result, another tab those of its
      category. */
  function FilteredResults(results: seq<ResearchResult>, category: string): (r: seq<ResearchResult>)
    ensures forall x :: x in r <==> x in results && (category == "all" || x.category == category)
    ensures IsSubsequence(r, results)
  {
    var keep := (x: ResearchResult) => category == "all" || x.category == category;
    forall x ensures x in Filter(results, keep) <==> x in results && keep(x) {
      FilterMembership(results, keep, x);
    }
    FilterIsSubsequence(results, keep);
    Filter(results, keep)
  }

  lemma AllTabKeepsEverything(results: seq<ResearchResult>)
    ensures FilteredResults(results, "all") == results
  {
    FilterAll(results, (x: ResearchResult) => "all" == "all" || x.category == "all");
  }

  predicate LaterFirst(a: ResearchResult, b: ResearchResult) {
    a.uploadDate >= b.uploadDate
  }

  predicate MoreConfidentFirst(a: ResearchResult, b: ResearchResult) {
    a.digest.confidence >= b.digest.confidence
  }

  predicate MoreTrustedFirst(a: ResearchResult, b: ResearchResult) {
    a.digest.trustScore >= b.digest.trustScore
  }

  predicate ByName(a: ResearchResult, b: ResearchResult) {
    LexLe(a.fileName, b.fileName)
  }

  /** The comparator `compare(a, b) <= 0` for a sort key; an unknown key calls every
      pair equal. */
  function Order(sortBy: string): (le: (ResearchResult, ResearchResult) -> bool)
    ensures TotalPreorder(le)
  {
    if sortBy == "date" then LaterFirst
    else if sortBy == "confidence" then MoreConfidentFirst
    else if sortBy == "trust" then MoreTrustedFirst
    else if sortBy == "name" then
      assert TotalPreorder(ByName) by {
        LexLeIsPreorder();
        forall a, b, c | ByName(a, b) && ByName(b, c) ensures ByName(a, c) {
          LexLeTransitive(a.fileName, b.fileName, c.fileName);
        }
      }
      ByName
    else (a: ResearchResult, b: ResearchResult) => true
  }

  /** `sortedResults`: the same results, newest, most confident, most trusted first or
      by file name, as the key says. */
  function SortedResults(results: seq<ResearchResult>, sortBy: string): (r: seq<ResearchResult>)
    ensures multiset(r) == multiset(results)
    ensures SortedBy(r, Order(sortBy))
  {
    SortIsSorted(results, Order(sortBy));
    InsertionSort(results, Order(sortBy))
  }

  /** The four keys sort as their names say. */
  lemma SortKeysMeanWhatTheySay(results: seq<ResearchResult>)
    ensures SortedBy(SortedResults(results, "date"), LaterFirst)
    ensures SortedBy(SortedResults(results, "confidence"), MoreConfidentFirst)
    ensures SortedBy(SortedResults(results, "trust"), MoreTrustedFirst)
    ensures SortedBy(SortedResults(results, "name"), ByName)
  {
    assert Order("date") == LaterFirst;
    assert Order("confidence") == MoreConfidentFirst;
    assert Order("trust") == MoreTrustedFirst;
    assert Order("name") == ByName;
  }

  /** An unknown key leaves the results in upload order. */
  lemma UnknownKeyKeepsOrder(results: seq<ResearchResult>, sortBy: string)
    requires sortBy !in {"date", "confidence", "trust", "name"}
    ensures SortedResults(results, sortBy) == results
  {
    SortKeepsOrderWhenAllEqual(results, Order(sortBy));
  }

  // ---------------------------------------------------------------------------
  // The Markdown report

  /** `items.map(x => `- ${x}`)`. */
  function Bullets(items: seq<string>): (r: seq<string>)
    ensures |r| == |items|
    ensures forall i :: 0 <= i < |items| ==> r[i] == "- " + items[i]
  {
    seq(|items|, i requires 0 <= i < |items| => "- " + items[i])
  }

  function LinkLine(l: CausalLink): string {
    "- **" + l.cause + "** → **" + l.effect + "** (" + NatToString(l.confidence) + "% confidence)"
  }

  function LinkLines(links: seq<CausalLink>): (r: seq<string>)
    ensures |r| == |links|
    ensures forall i :: 0 <= i < |links| ==> r[i] == LinkLine(links[i])
  {
    seq(|links|, i requires 0 <= i < |links| => LinkLine(links[i]))
  }

  /** A list section of the report: its lines joined by line breaks. */
  function Section(lines: seq<string>): string {
    Join(lines, "\n")
  }

  /** The report's title, file information and summary. */
  function HeadParts(r: ResearchResult, dateText: string): (parts: seq<string>)
    ensures |parts| == 11
  {
    [ "# Reality Digest Report", "",
      "## File Information",
      "- **File:** " + r.fileName,
      "- **Date:** " + dateText,
      "- **Category:** " + r.category,
      "- **Trust Score:** " + NatToString(r.digest.trustScore) + "%", "",
      "## Summary", r.digest.summary, "" ]
  }

  /** A heading, the list below it joined into one part, and a blank line. */
  function ListBlock(heading: string, lines: seq<string>): (parts: seq<string>)
    ensures |parts| == 3 && parts[0] == heading && parts[1] == Section(lines) && parts[2] == ""
  {
    [heading, Section(lines), ""]
  }

  /** The key facts and causal links sections, each below its heading. */
  function FindingParts(d: Digest): (parts: seq<string>)
    ensures |parts| == 6
    ensures parts[0] == "## Key Facts" && parts[1] == Section(Bullets(d.keyFacts))
    ensures parts[3] == "## Causal Links" && parts[4] == Section(LinkLines(d.causalLinks))
  {
    ListBlock("## Key Facts", Bullets(d.keyFacts)) + ListBlock("## Causal Links", LinkLines(d.causalLinks))
  }

  function FiveWParts(w: FiveW): (parts: seq<string>)
    ensures |parts| == 16
  {
    ["## 5W Analysis"] + ListBlock("### Who", Bullets(w.who)) + ListBlock("### What", Bullets(w.what))
    + ListBlock("### When", Bullets(w.when)) + ListBlock("### Where", Bullets(w.where))
    + ListBlock("### Why", Bullets(w.why))
  }

  const Footer: string := "*Generated by RealityCheck AI" + " - Advanced Intelligence" + " Platform*"

  /** The next actions section and the footer. */
  function TailParts(d: Digest): (parts: seq<string>)
    ensures |parts| == 5
    ensures parts[0] == "## Next Actions" && parts[1] == Section(Bullets(d.nextActions))
  {
    ListBlock("## Next Actions", Bullets(d.nextActions)) + ["---", Footer]
  }

  /** The lines of the report's template, each list already joined into one section
      that follows its heading. */
  function ReportParts(r: ResearchResult, dateText: string): (parts: seq<string>)
    ensures |parts| == 38
    ensures parts[11] == "## Key Facts" && parts[12] == Section(Bullets(r.digest.keyFacts))
    ensures parts[14] == "## Causal Links" && parts[15] == Section(LinkLines(r.digest.causalLinks))
    ensures parts[33] == "## Next Actions" && parts[34] == Section(Bullets(r.digest.nextActions))
  {
    HeadParts(r, dateText) + FindingParts(r.digest) + FiveWParts(r.digest.fiveW) + TailParts(r.digest)
  }

  // The report line by line: every list spread over one line per item.

  /** The lines a list section takes up: one per item, or one empty line for an
      empty list, whose join is the empty string. */
  function SectionLines(lines: seq<string>): (r: seq<string>)
    ensures |r| >= 1 && Join(r, "\n") == Section(lines)
    ensures |lines| >= 1 ==> r == lines
  {
    if lines == [] then [""] else lines
  }

  function ListBlockLines(heading: string, lines: seq<string>): seq<string> {
    [heading] + SectionLines(lines) + [""]
  }

  function FindingLines(d: Digest): seq<string> {
    ListBlockLines("## Key Facts", Bullets(d.keyFacts)) + ListBlockLines("## Causal Links", LinkLines(d.causalLinks))
  }

  function FiveWLines(w: FiveW): (lines: seq<string>)
    ensures |lines| >= 16
  {
    ["## 5W Analysis"] + ListBlockLines("### Who", Bullets(w.who)) + ListBlockLines("### What", Bullets(w.what))
    + ListBlockLines("### When", Bullets(w.when)) + ListBlockLines("### Where", Bullets(w.where))
    + ListBlockLines("### Why", Bullets(w.why))
  }

  function TailLines(d: Digest): seq<string> {
    ListBlockLines("## Next Actions", Bullets(d.nextActions)) + ["---", Footer]
  }

  /** The lines of the downloaded report: the head, then the key facts one per line
      from line 12, the causal links after them, the 5W lists, and the next actions
      one per line just above the closing rule and footer. */
  function ReportLines(r: ResearchResult, dateText: string): (lines: seq<string>)
    ensures |lines| >= 19 + |SectionLines(Bullets(r.digest.keyFacts))| + |SectionLines(LinkLines(r.digest.causalLinks))|
                       + |SectionLines(Bullets(r.digest.nextActions))|
    ensures lines[..11] == HeadParts(r, dateText) && lines[11] == "## Key Facts"
    ensures |r.digest.keyFacts| >= 1 ==> lines[12..12 + |r.digest.keyFacts|] == Bullets(r.digest.keyFacts)
    ensures var c := 13 + |SectionLines(Bullets(r.digest.keyFacts))|;
            c + 1 < |lines| && lines[c] == "## Causal Links" &&
            (|r.digest.causalLinks| >= 1 ==>
               c + 1 + |r.digest.causalLinks| <= |lines| &&
               lines[c + 1..c + 1 + |r.digest.causalLinks|] == LinkLines(r.digest.causalLinks))
    ensures lines[|lines| - 2..] == ["---", Footer]
    ensures var n := |SectionLines(Bullets(r.digest.nextActions))|;
            lines[|lines| - 4 - n] == "## Next Actions" &&
            lines[|lines| - 3 - n..|lines| - 3] == SectionLines(Bullets(r.digest.nextActions))
  {
    var h, w := HeadParts(r, dateText), FiveWLines(r.digest.fiveW);
    var kf := SectionLines(Bullets(r.digest.keyFacts));
    var cl := SectionLines(LinkLines(r.digest.causalLinks));
    var na := SectionLines(Bullets(r.digest.nextActions));
    FindingLinesShape(r.digest);
    TailLinesShape(r.digest);
    Layout(h, "## Key Facts", kf, "", "## Causal Links", cl, "", w, "## Next Actions", na, ["", "---", Footer]);
    h + FindingLines(r.digest) + w + TailLines(r.digest)
  }

  lemma FindingLinesShape(d: Digest)
    ensures FindingLines(d) == ["## Key Facts"] + SectionLines(Bullets(d.keyFacts)) + ["", "## Causal Links"]
                               + SectionLines(LinkLines(d.causalLinks)) + [""]
  {
  }

  lemma TailLinesShape(d: Digest)
    ensures TailLines(d) == ["## Next Actions"] + SectionLines(Bullets(d.nextActions)) + ["", "---", Footer]
  {
  }

  /** Where the pieces of a report-shaped sequence sit. */
  lemma Layout<T>(h: seq<T>, x: T, kf: seq<T>, e1: T, y: T, cl: seq<T>, e2: T, w: seq<T>,
                  u: T, na: seq<T>, tl: seq<T>)
    ensures var s := h + ([x] + kf + [e1, y] + cl + [e2]) + w + ([u] + na + tl);
            && s[..|h|] == h && s[|h|] == x && s[|h| + 1..|h| + 1 + |kf|] == kf
            && s[|h| + 2 + |kf|] == y && s[|h| + 3 + |kf|..|h| + 3 + |kf| + |cl|] == cl
            && s[|s| - |tl|..] == tl && s[|s| - |tl| - |na|..|s| - |tl|] == na
            && s[|s| - |tl| - |na| - 1] == u
  {
    var f := [x] + kf + [e1, y] + cl + [e2];
    var t := [u] + na + tl;
    var s := h + f + w + t;
    assert s[|h|..|h| + |f|] == f;
    assert s[|s| - |t|..] == t;
    assert f[1..1 + |kf|] == kf;
    assert f[3 + |kf|..3 + |kf| + |cl|] == cl;
    assert t[1..1 + |na|] == na;
  }

  /** Joining the parts and joining the lines give the same text: a list section
      joined in one part is its lines joined. */
  lemma ReportJoin(r: ResearchResult, dateText: string)
    ensures Join(ReportParts(r, dateText), "\n") == Join(ReportLines(r, dateText), "\n")
  {
    var d, w := r.digest, r.digest.fiveW;
    var h := HeadParts(r, dateText);
    ListBlockJoin("## Key Facts", Bullets(d.keyFacts));
    ListBlockJoin("## Causal Links", LinkLines(d.causalLinks));
    PairJoin(ListBlock("## Key Facts", Bullets(d.keyFacts)), ListBlock("## Causal Links", LinkLines(d.causalLinks)),
             ListBlockLines("## Key Facts", Bullets(d.keyFacts)), ListBlockLines("## Causal Links", LinkLines(d.causalLinks)));
    FiveWJoin(w);
    ListBlockJoin("## Next Actions", Bullets(d.nextActions));
    PairJoin(ListBlock("## Next Actions", Bullets(d.nextActions)), ["---", Footer],
             ListBlockLines("## Next Actions", Bullets(d.nextActions)), ["---", Footer]);
    PairJoin(h, FindingParts(d), h, FindingLines(d));
    PairJoin(h + FindingParts(d), FiveWParts(w), h + FindingLines(d), FiveWLines(w));
    PairJoin(h + FindingParts(d) + FiveWParts(w), TailParts(d), h + FindingLines(d) + FiveWLines(w), TailLines(d));
  }

  lemma FiveWJoin(w: FiveW)
    ensures Join(FiveWParts(w), "\n") == Join(FiveWLines(w), "\n")
  {
    var p0, l0 := ["## 5W Analysis"], ["## 5W Analysis"];
    var p1, l1 := p0 + ListBlock("### Who", Bullets(w.who)), l0 + ListBlockLines("### Who", Bullets(w.who));
    ListBlockJoin("### Who", Bullets(w.who));
    PairJoin(p0, ListBlock("### Who", Bullets(w.who)), l0, ListBlockLines("### Who", Bullets(w.who)));
    var p2, l2 := p1 + ListBlock("### What", Bullets(w.what)), l1 + ListBlockLines("### What", Bullets(w.what));
    ListBlockJoin("### What", Bullets(w.what));
    PairJoin(p1, ListBlock("### What", Bullets(w.what)), l1, ListBlockLines("### What", Bullets(w.what)));
    var p3, l3 := p2 + ListBlock("### When", Bullets(w.when)), l2 + ListBlockLines("### When", Bullets(w.when));
    ListBlockJoin("### When", Bullets(w.when));
    PairJoin(p2, ListBlock("### When", Bullets(w.when)), l2, ListBlockLines("### When", Bullets(w.when)));
    var p4, l4 := p3 + ListBlock("### Where", Bullets(w.where)), l3 + ListBlockLines("### Where", Bullets(w.where));
    ListBlockJoin("### Where", Bullets(w.where));
    PairJoin(p3, ListBlock("### Where", Bullets(w.where)), l3, ListBlockLines("### Where", Bullets(w.where)));
    ListBlockJoin("### Why", Bullets(w.why));
    PairJoin(p4, ListBlock("### Why", Bullets(w.why)), l4, ListBlockLines("### Why", Bullets(w.why)));
  }

  /** A list block joins to the same text in both forms. */
  lemma ListBlockJoin(heading: string, lines: seq<string>)
    ensures Join(ListBlock(heading, lines), "\n") == Join(ListBlockLines(heading, lines), "\n")
  {
    var sl := SectionLines(lines);
    assert ListBlock(heading, lines) == [heading] + [Section(lines), ""];
    assert Join([Section(lines), ""], "\n") == Section(lines) + "\n" + "";
    JoinAppend([heading], [Section(lines), ""], "\n");
    JoinSnoc(sl, "", "\n");
    JoinAppend([heading], sl + [""], "\n");
    assert ListBlockLines(heading, lines) == [heading] + (sl + [""]);
  }

  /** Two non-empty pieces that join alike on each side join alike together. */
  lemma PairJoin(a: seq<string>, b: seq<string>, a2: seq<string>, b2: seq<string>)
    requires |a| > 0 && |b| > 0 && |a2| > 0 && |b2| > 0
    requires Join(a, "\n") == Join(a2, "\n") && Join(b, "\n") == Join(b2, "\n")
    ensures Join(a + b, "\n") == Join(a2 + b2, "\n")
  {
    JoinAppend(a, b, "\n");
    JoinAppend(a2, b2, "\n");
  }

  /** The Markdown document of `downloadReport`; `dateText` is the upload date as the
      browser's locale writes it. The text is the report's lines, each ended by a
      line break. */
  function MarkdownReport(r: ResearchResult, dateText: string): (md: string)
    ensures |md| > 0 && md[|md| - 1] == '\n'
    ensures md == Join(ReportLines(r, dateText), "\n") + "\n"
  {
    ReportJoin(r, dateText);
    Join(ReportParts(r, dateText), "\n") + "\n"
  }

  /** No line break inside any field the report prints. */
  ghost predicate SingleLineFields(r: ResearchResult, dateText: string) {
    var d, w := r.digest, r.digest.fiveW;
    && '\n' !in r.fileName && '\n' !in dateText && '\n' !in r.category && '\n' !in d.summary
    && NoBreaks(d.keyFacts) && NoBreaks(d.nextActions)
    && NoBreaks(w.who) && NoBreaks(w.what) && NoBreaks(w.when) && NoBreaks(w.where) && NoBreaks(w.why)
    && (forall k :: 0 <= k < |d.causalLinks| ==> '\n' !in d.causalLinks[k].cause && '\n' !in d.causalLinks[k].effect)
  }

  ghost predicate NoBreaks(lines: seq<string>) {
    forall k :: 0 <= k < |lines| ==> '\n' !in lines[k]
  }

  /** When no field holds a line break, splitting the downloaded report on line
      breaks, after its final one, gives back exactly its lines: the key facts,
      causal links and next actions each on their own line where `ReportLines`
      places them. */
  lemma MarkdownReportLines(r: ResearchResult, dateText: string)
    requires SingleLineFields(r, dateText)
    ensures var md := MarkdownReport(r, dateText);
            Split(md[..|md| - 1], "\n") == ReportLines(r, dateText)
  {
    var md, lines := MarkdownReport(r, dateText), ReportLines(r, dateText);
    assert md[..|md| - 1] == Join(lines, "\n");
    ReportLinesSingle(r, dateText);
    SplitJoinChar(lines, '\n');
  }

  lemma ReportLinesSingle(r: ResearchResult, dateText: string)
    requires SingleLineFields(r, dateText)
    ensures NoBreaks(ReportLines(r, dateText))
  {
    var d, w := r.digest, r.digest.fiveW;
    HeadSingle(r, dateText);
    FindingSingle(d);
    FiveWSingle(w);
    TailSingle(d);
    var h, f, t := HeadParts(r, dateText), FindingLines(d), TailLines(d);
    NoBreaksAppend(h, f);
    NoBreaksAppend(h + f, FiveWLines(w));
    NoBreaksAppend(h + f + FiveWLines(w), t);
  }

  lemma FindingSingle(d: Digest)
    requires NoBreaks(d.keyFacts)
    requires forall k :: 0 <= k < |d.causalLinks| ==> '\n' !in d.causalLinks[k].cause && '\n' !in d.causalLinks[k].effect
    ensures NoBreaks(FindingLines(d))
  {
    BulletsSingle(d.keyFacts);
    LinkLinesSingle(d.causalLinks);
    ListBlockSingle("## Key Facts", Bullets(d.keyFacts));
    ListBlockSingle("## Causal Links", LinkLines(d.causalLinks));
    NoBreaksAppend(ListBlockLines("## Key Facts", Bullets(d.keyFacts)), ListBlockLines("## Causal Links", LinkLines(d.causalLinks)));
  }

  lemma TailSingle(d: Digest)
    requires NoBreaks(d.nextActions)
    ensures NoBreaks(TailLines(d))
  {
    BulletsSingle(d.nextActions);
    ListBlockSingle("## Next Actions", Bullets(d.nextActions));
    assert NoBreaks(["---", Footer]);
    NoBreaksAppend(ListBlockLines("## Next Actions", Bullets(d.nextActions)), ["---", Footer]);
  }

  lemma HeadSingle(r: ResearchResult, dateText: string)
    requires '\n' !in r.fileName && '\n' !in dateText && '\n' !in r.category && '\n' !in r.digest.summary
    ensures NoBreaks(HeadParts(r, dateText))
  {
    DigitsHaveNoNewline(NatToString(r.digest.trustScore));
  }

  lemma FiveWSingle(w: FiveW)
    requires NoBreaks(w.who) && NoBreaks(w.what) && NoBreaks(w.when) && NoBreaks(w.where) && NoBreaks(w.why)
    ensures NoBreaks(FiveWLines(w))
  {
    BulletsSingle(w.who);
    BulletsSingle(w.what);
    BulletsSingle(w.when);
    BulletsSingle(w.where);
    BulletsSingle(w.why);
    var b1, b2, b3 := ListBlockLines("### Who", Bullets(w.who)), ListBlockLines("### What", Bullets(w.what)),
                      ListBlockLines("### When", Bullets(w.when));
    var b4, b5 := ListBlockLines("### Where", Bullets(w.where)), ListBlockLines("### Why", Bullets(w.why));
    ListBlockSingle("### Who", Bullets(w.who));
    ListBlockSingle("### What", Bullets(w.what));
    ListBlockSingle("### When", Bullets(w.when));
    ListBlockSingle("### Where", Bullets(w.where));
    ListBlockSingle("### Why", Bullets(w.why));
    var h := ["## 5W Analysis"];
    NoBreaksAppend(h, b1);
    NoBreaksAppend(h + b1, b2);
    NoBreaksAppend(h + b1 + b2, b3);
    NoBreaksAppend(h + b1 + b2 + b3, b4);
    NoBreaksAppend(h + b1 + b2 + b3 + b4, b5);
  }

  lemma ListBlockSingle(heading: string, lines: seq<string>)
    requires '\n' !in heading && NoBreaks(SectionLines(lines))
    ensures NoBreaks(ListBlockLines(heading, lines))
  {
    NoBreaksAppend([heading], SectionLines(lines));
    NoBreaksAppend([heading] + SectionLines(lines), [""]);
  }

  lemma NoBreaksAppend(a: seq<string>, b: seq<string>)
    requires NoBreaks(a) && NoBreaks(b)
    ensures NoBreaks(a + b)
  {
  }

  lemma BulletsSingle(items: seq<string>)
    requires NoBreaks(items)
    ensures NoBreaks(SectionLines(Bullets(items)))
  {
  }

  lemma LinkLinesSingle(links: seq<CausalLink>)
    requires forall k :: 0 <= k < |links| ==> '\n' !in links[k].cause && '\n' !in links[k].effect
    ensures NoBreaks(SectionLines(LinkLines(links)))
  {
    var ls := LinkLines(links);
    forall k | 0 <= k < |ls| ensures '\n' !in ls[k] {
      LinkLineSingle(links[k]);
    }
  }

  lemma LinkLineSingle(l: CausalLink)
    requires '\n' !in l.cause && '\n' !in l.effect
    ensures '\n' !in LinkLine(l)
  {
    DigitsHaveNoNewline(NatToString(l.confidence));
  }

  /** A bullet section reads back, line by line, as one `- ` line per item, in order. */
  lemma BulletSectionLines(items: seq<string>)
    requires |items| >= 1
    requires forall k :: 0 <= k < |items| ==> '\n' !in items[k]
    ensures Split(Section(Bullets(items)), "\n") == Bullets(items)
    ensures forall k :: 0 <= k < |items| ==> Bullets(items)[k] == "- " + items[k]
  {
    var b := Bullets(items);
    forall k | 0 <= k < |b| ensures '\n' !in b[k] {
      assert b[k] == "- " + items[k];
    }
    SplitJoinChar(b, '\n');
  }

  /** The causal links section reads back as one arrow line per link, in order. */
  lemma LinkSectionLines(links: seq<CausalLink>)
    requires |links| >= 1
    requires forall k :: 0 <= k < |links| ==> '\n' !in links[k].cause && '\n' !in links[k].effect
    ensures Split(Section(LinkLines(links)), "\n") == LinkLines(links)
    ensures forall k :: 0 <= k < |links| ==> LinkLines(links)[k] == LinkLine(links[k])
  {
    var b := LinkLines(links);
    forall k | 0 <= k < |b| ensures '\n' !in b[k] {
      var l := links[k];
      DigitsHaveNoNewline(NatToString(l.confidence));
      assert b[k] == "- **" + l.cause + "** → **" + l.effect + "** (" + NatToString(l.confidence) + "% confidence)";
    }
    SplitJoinChar(b, '\n');
  }

  // ---------------------------------------------------------------------------
  // The page

  class ResearchPage {
    var uploadedFiles: seq<File>
    var researchResults: seq<ResearchResult>
    var isAnalyzing: bool
    var userContext: string
    var selectedCategory: string
    var sortBy: string
    var expandedResult: Option<string>

    /** Every result on the page came out of an analysis. */
    predicate Valid()
      reads this
    {
      forall i :: 0 <= i < |researchResults| ==> WellFormed(researchResults[i])
    }

    constructor()
      ensures Valid()
      ensures uploadedFiles == [] && researchResults == [] && !isAnalyzing && userContext == ""
      ensures selectedCategory == "all" && sortBy == "date" && expandedResult == None
    {
      uploadedFiles := [];
      researchResults := [];
      isAnalyzing := false;
      userContext := "";
      selectedCategory := "all";
      sortBy := "date";
      expandedResult := None;
    }

    /** `onDrop`: the dropped files join the queue after those already there. */
    method OnDrop(accepted: seq<File>)
      modifies this
      ensures uploadedFiles == old(uploadedFiles) + accepted
      ensures researchResults == old(researchResults) && isAnalyzing == old(isAnalyzing)
      ensures userContext == old(userContext) && selectedCategory == old(selectedCategory)
      ensures sortBy == old(sortBy) && expandedResult == old(expandedResult)
    {
      uploadedFiles := uploadedFiles + accepted;
    }

    /** `analyzeDocuments`: nothing happens without uploads; otherwise each queued file,
        in order, adds its result, and the queue is emptied. */
    method AnalyzeDocuments(draws: seq<Draws>)
      requires Valid()
      requires |draws| >= |uploadedFiles|
      requires forall i :: 0 <= i < |draws| ==> ValidDraws(draws[i])
      modifies this
      ensures Valid()
      ensures old(uploadedFiles) == [] ==>
                researchResults == old(researchResults) && uploadedFiles == [] && isAnalyzing == old(isAnalyzing)
      ensures old(uploadedFiles) != [] ==>
                researchResults == old(researchResults) + Analyses(old(uploadedFiles), userContext, draws)
                && uploadedFiles == [] && !isAnalyzing
      ensures userContext == old(userContext) && selectedCategory == old(selectedCategory)
      ensures sortBy == old(sortBy) && expandedResult == old(expandedResult)
    {
      if |uploadedFiles| == 0 {
        return;
      }
      isAnalyzing := true;
      var files, before, context := uploadedFiles, researchResults, userContext;
      var i := 0;
      while i < |files|
        invariant 0 <= i <= |files|
        invariant researchResults == before + Analyses(files[..i], context, draws)
        invariant uploadedFiles == files && before == old(researchResults) && context == userContext
        invariant userContext == old(userContext) && selectedCategory == old(selectedCategory)
        invariant sortBy == old(sortBy) && expandedResult == old(expandedResult)
      {
        AnalysesSnoc(files, i, context, draws);
        researchResults := researchResults + [Analyze(files[i], context, draws[i])];
        i := i + 1;
      }
      assert files[..i] == files;
      isAnalyzing := false;
      uploadedFiles := [];
    }

    method SetUserContext(text: string)
      modifies this
      ensures userContext == text
      ensures uploadedFiles == old(uploadedFiles) && researchResults == old(researchResults)
      ensures isAnalyzing == old(isAnalyzing) && selectedCategory == old(selectedCategory)
      ensures sortBy == old(sortBy) && expandedResult == old(expandedResult)
    {
      userContext := text;
    }

    method SelectCategory(category: string)
      modifies this
      ensures selectedCategory == category
      ensures uploadedFiles == old(uploadedFiles) && researchResults == old(researchResults)
      ensures isAnalyzing == old(isAnalyzing) && userContext == old(userContext)
      ensures sortBy == old(sortBy) && expandedResult == old(expandedResult)
    {
      selectedCategory := category;
    }

    method SelectSort(key: string)
      modifies this
      ensures sortBy == key
      ensures uploadedFiles == old(uploadedFiles) && researchResults == old(researchResults)
      ensures isAnalyzing == old(isAnalyzing) && userContext == old(userContext)
      ensures selectedCategory == old(selectedCategory) && expandedResult == old(expandedResult)
    {
      sortBy := key;
    }

    /** Clicking a result's header opens it, or closes it when it is the open one. */
    method ToggleExpanded(id: string)
      modifies this
      ensures expandedResult == Some(id) <==> old(expandedResult) != Some(id)
      ensures expandedResult == None <==> old(expandedResult) == Some(id)
      ensures uploadedFiles == old(uploadedFiles) && researchResults == old(researchResults)
      ensures isAnalyzing == old(isAnalyzing) && userContext == old(userContext)
      ensures selectedCategory == old(selectedCategory) && sortBy == old(sortBy)
    {
      expandedResult := if expandedResult == Some(id) then None else Some(id);
    }

    /** The results listed: those of the selected tab, in the selected order. */
    function Shown(): (r: seq<ResearchResult>)
      reads this
      ensures multiset(r) == multiset(FilteredResults(researchResults, selectedCategory))
      ensures SortedBy(r, Order(sortBy))
      ensures forall x :: x in r <==>
                x in researchResults && (selectedCategory == "all" || x.category == selectedCategory)
    {
      var f := FilteredResults(researchResults, selectedCategory);
      var r := SortedResults(f, sortBy);
      assert forall x :: x in r <==> x in f by {
        forall x ensures x in r <==> x in f {
          assert x in r <==> x in multiset(r);
          assert x in f <==> x in multiset(f);
        }
      }
      r
    }
  }
}
