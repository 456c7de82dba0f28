/** The insight engine page: the earlier, smaller form of the research page. Uploaded
    documents become insight summaries, filtered by category and sorted by date,
    confidence or name. */
module Insight {
  import opened Wrappers
  import opened Lists
  import opened Text
  import Research

  datatype Insights = Insights(summary: string, keyPoints: seq<string>, confidence: nat, recommendations: seq<string>)

  /** `AnalysisResult`; the upload time is kept in milliseconds. */
  datatype AnalysisResult = AnalysisResult(
    id: string,
    fileName: string,
    fileType: string,
    uploadDate: int,
    category: string,
    insights: Insights,
    status: string)

  /** The random id, the clock, and the category and confidence draws, already scaled. */
  datatype Draws = Draws(id: string, uploadDate: int, category: nat, confidence: nat)

  predicate ValidDraws(d: Draws) {
    d.category < 5 && d.confidence < 20
  }

  /** The category tabs of this page; it has no security tab. */
  const Categories: seq<string> := ["all", "health", "policy", "technology", "research", "business"]

  function KeyPoint(i: nat): string
    requires i < 4
  {
    match i
    case 0 => "Primary thesis aligns with" + " current research trends"
    case 1 => "Methodology demonstrates" + " robust analytical framework"
    case 2 => "Conclusions supported by" + " substantial evidence base"
    case _ => "Recommendations provide" + " actionable strategic guidance"
  }

  function Recommendation(i: nat): string
    requires i < 4
  {
    match i
    case 0 => "Cross-reference findings with" + " recent peer-reviewed studies"
    case 1 => "Consider implementing" + " proposed methodological" + " improvements"
    case 2 => "Validate conclusions through" + " additional data sources"
    case _ => "Develop action plan based on" + " strategic recommendations"
  }

  function Summary(fileName: string, researchContext: string): string {
    "Comprehensive analysis of " + fileName + " reveals significant insights" + " related to "
    + OrText(Some(researchContext), "the specified domain")
    + ". The document contains" + " valuable information that can" + " inform strategic"
    + " decision-making."
  }

  /** A result the analysis can produce. */
  predicate WellFormed(r: AnalysisResult) {
    && r.category in Categories[1..]
    && 80 <= r.insights.confidence <= 99
    && |r.insights.keyPoints| == 4 && |r.insights.recommendations| == 4
    && r.status == "completed"
  }

  /** The mock result built for one file in `analyzeDocuments`. */
  function Analyze(file: Research.File, researchContext: string, d: Draws): (r: AnalysisResult)
    requires ValidDraws(d)
    ensures WellFormed(r) && r.category != "all"
    ensures r.id == d.id && r.fileName == file.name && r.fileType == file.fileType && r.uploadDate == d.uploadDate
    ensures r.insights.confidence == d.confidence + 80
  {
    AnalysisResult(
      d.id, file.name, file.fileType, d.uploadDate, Categories[d.category + 1],
      Insights(
        Summary(file.name, researchContext),
        seq(4, i requires 0 <= i < 4 => KeyPoint(i)),
        d.confidence + 80,
        seq(4, i requires 0 <= i < 4 => Recommendation(i))),
      "completed")
  }

  /** The results of a batch: one per file, in upload order, each from its own draws. */
  function Analyses(files: seq<Research.File>, researchContext: string, draws: seq<Draws>): (r: seq<AnalysisResult>)
    requires |draws| >= |files|
    requires forall i :: 0 <= i < |draws| ==> ValidDraws(draws[i])
    ensures |r| == |files|
    ensures forall i :: 0 <= i < |r| ==> r[i] == Analyze(files[i], researchContext, draws[i]) && WellFormed(r[i])
  {
    seq(|files|, i requires 0 <= i < |files| => Analyze(files[i], researchContext, draws[i]))
  }

  lemma AnalysesSnoc(files: seq<Research.File>, i: nat, researchContext: string, draws: seq<Draws>)
    requires i < |files| <= |draws|
    requires forall k :: 0 <= k < |draws| ==> ValidDraws(draws[k])
    ensures Analyses(files[..i + 1], researchContext, draws) ==
              Analyses(files[..i], researchContext, draws) + [Analyze(files[i], researchContext, draws[i])]
  {
  }

  /** `filteredResults`: the "all" tab keeps every result, another tab those of its
      category. */
  function FilteredResults(results: seq<AnalysisResult>, category: string): (r: seq<AnalysisResult>)
    ensures forall x :: x in r <==> x in results && (category == "all" || x.category == category)
    ensures IsSubsequence(r, results)
  {
    var keep := (x: AnalysisResult) => category == "all" || x.category == category;
    forall x ensures x in Filter(results, keep) <==> x in results && keep(x) {
      FilterMembership(results, keep, x);
    }
    FilterIsSubsequence(results, keep);
    Filter(results, keep)
  }

  predicate LaterFirst(a: AnalysisResult, b: AnalysisResult) {
    a.uploadDate >= b.uploadDate
  }

  predicate MoreConfidentFirst(a: AnalysisResult, b: AnalysisResult) {
    a.insights.confidence >= b.insights.confidence
  }

  predicate ByName(a: AnalysisResult, b: AnalysisResult) {
    LexLe(a.fileName, b.fileName)
  }

  /** The comparator `compare(a, b) <= 0` for a sort key; this page has no trust key,
      so "trust", like any unknown key, calls every pair equal. */
  function Order(sortBy: string): (le: (AnalysisResult, AnalysisResult) -> bool)
    ensures TotalPreorder(le)
  {
    if sortBy == "date" then LaterFirst
    else if sortBy == "confidence" then MoreConfidentFirst
    else if sortBy == "name" then
      assert TotalPreorder(ByName) by {
        LexLeIsPreorder();
        forall a, b, c | ByName(a, b) && ByName(b, c) ensures ByName(a, c) {
          LexLeTransitive(a.fileName, b.fileName, c.fileName);
        }
      }
      ByName
    else (a: AnalysisResult, b: AnalysisResult) => true
  }

  /** `sortedResults`: the same results in the order the key names. */
  function SortedResults(results: seq<AnalysisResult>, sortBy: string): (r: seq<AnalysisResult>)
    ensures multiset(r) == multiset(results)
    ensures SortedBy(r, Order(sortBy))
  {
    SortIsSorted(results, Order(sortBy));
    InsertionSort(results, Order(sortBy))
  }

  /** The three keys sort as their names say. */
  lemma SortKeysMeanWhatTheySay(results: seq<AnalysisResult>)
    ensures SortedBy(SortedResults(results, "date"), LaterFirst)
    ensures SortedBy(SortedResults(results, "confidence"), MoreConfidentFirst)
    ensures SortedBy(SortedResults(results, "name"), ByName)
  {
    assert Order("date") == LaterFirst;
    assert Order("confidence") == MoreConfidentFirst;
    assert Order("name") == ByName;
  }

  /** Any other key leaves the results in upload order. */
  lemma UnknownKeyKeepsOrder(results: seq<AnalysisResult>, sortBy: string)
    requires sortBy !in {"date", "confidence", "name"}
    ensures SortedResults(results, sortBy) == results
  {
    SortKeepsOrderWhenAllEqual(results, Order(sortBy));
  }

  class InsightEnginePage {
    var uploadedFiles: seq<Research.File>
    var analysisResults: seq<AnalysisResult>
    var isAnalyzing: bool
    var researchContext: string
    var selectedCategory: string
    var sortBy: string

    predicate Valid()
      reads this
    {
      forall i :: 0 <= i < |analysisResults| ==> WellFormed(analysisResults[i])
    }

    constructor()
      ensures Valid()
      ensures uploadedFiles == [] && analysisResults == [] && !isAnalyzing && researchContext == ""
      ensures selectedCategory == "all" && sortBy == "date"
    {
      uploadedFiles := [];
      analysisResults := [];
      isAnalyzing := false;
      researchContext := "";
      selectedCategory := "all";
      sortBy := "date";
    }

    /** `onDrop`: the dropped files join the queue after those already there. */
    method OnDrop(accepted: seq<Research.File>)
      modifies this
      ensures uploadedFiles == old(uploadedFiles) + accepted
      ensures analysisResults == old(analysisResults) && isAnalyzing == old(isAnalyzing)
      ensures researchContext == old(researchContext) && selectedCategory == old(selectedCategory)
      ensures sortBy == old(sortBy)
    {
      uploadedFiles := uploadedFiles + accepted;
    }

    /** `analyzeDocuments`: nothing happens without uploads; otherwise each queued file,
        in order, adds its result, and the queue is emptied. */
    method AnalyzeDocuments(draws: seq<Draws>)
      requires Valid()
      requires |draws| >= |uploadedFiles|
      requires forall i :: 0 <= i < |draws| ==> ValidDraws(draws[i])
      modifies this
      ensures Valid()
      ensures old(uploadedFiles) == [] ==>
                analysisResults == old(analysisResults) && uploadedFiles == [] && isAnalyzing == old(isAnalyzing)
      ensures old(uploadedFiles) != [] ==>
                analysisResults == old(analysisResults) + Analyses(old(uploadedFiles), researchContext, draws)
                && uploadedFiles == [] && !isAnalyzing
      ensures researchContext == old(researchContext) && selectedCategory == old(selectedCategory)
      ensures sortBy == old(sortBy)
    {
      if |uploadedFiles| == 0 {
        return;
      }
      isAnalyzing := true;
      var files, before, context := uploadedFiles, analysisResults, researchContext;
      var i := 0;
      while i < |files|
        invariant 0 <= i <= |files|
        invariant analysisResults == before + Analyses(files[..i], context, draws)
        invariant uploadedFiles == files && before == old(analysisResults) && context == researchContext
        invariant researchContext == old(researchContext) && selectedCategory == old(selectedCategory)
        invariant sortBy == old(sortBy)
      {
        AnalysesSnoc(files, i, context, draws);
        analysisResults := analysisResults + [Analyze(files[i], context, draws[i])];
        i := i + 1;
      }
      assert files[..i] == files;
      isAnalyzing := false;
      uploadedFiles := [];
    }

    method SetResearchContext(text: string)
      modifies this
      ensures researchContext == text
      ensures uploadedFiles == old(uploadedFiles) && analysisResults == old(analysisResults)
      ensures isAnalyzing == old(isAnalyzing) && selectedCategory == old(selectedCategory)
      ensures sortBy == old(sortBy)
    {
      researchContext := text;
    }

    method SelectCategory(category: string)
      modifies this
      ensures selectedCategory == category
      ensures uploadedFiles == old(uploadedFiles) && analysisResults == old(analysisResults)
      ensures isAnalyzing == old(isAnalyzing) && researchContext == old(researchContext)
      ensures sortBy == old(sortBy)
    {
      selectedCategory := category;
    }

    method SelectSort(key: string)
      modifies this
      ensures sortBy == key
      ensures uploadedFiles == old(uploadedFiles) && analysisResults == old(analysisResults)
      ensures isAnalyzing == old(isAnalyzing) && researchContext == old(researchContext)
      ensures selectedCategory == old(selectedCategory)
    {
      sortBy := key;
    }

    /** The results listed: those of the selected tab, in the selected order. */
    function Shown(): (r: seq<AnalysisResult>)
      reads this
      ensures multiset(r) == multiset(FilteredResults(analysisResults, selectedCategory))
      ensures SortedBy(r, Order(sortBy))
      ensures forall x :: x in r <==>
                x in analysisResults && (selectedCategory == "all" || x.category == selectedCategory)
    {
      var f := FilteredResults(analysisResults, selectedCategory);
      var r := SortedResults(f, sortBy);
      assert forall x :: x in r <==> x in f by {
        forall x ensures x in r <==> x in f {
          assert x in r <==> x in multiset(r);
          assert x in f <==> x in multiset(f);
        }
      }
      r
    }
  }
}
