/** The text check: a language model's fact-check of a claim, merged with fact-check
    sources, or a simulated verdict when no credential is configured, the model gives
    no answer, or its answer is not the expected JSON. */
module TextClaim {
  import opened Wrappers
  import opened Lists
  import opened Text
  import opened Schema

  /** The model's answer once parsed; every field may be missing or any value. */
  datatype ClaimAnalysis = ClaimAnalysis(
    verificationStatus: Option<string>,
    confidenceScore: Option<int>,
    reasoning: Option<string>,
    citations: Option<seq<string>>,
    redFlags: Option<seq<string>>)

  /** The verdict one text check produces. Status, score and reasoning are passed on
      from the model as they are, so they may be missing. */
  datatype TextVerdict = TextVerdict(
    verificationStatus: Option<string>,
    confidenceScore: Option<int>,
    reasoning: Option<string>,
    citations: seq<string>,
    redFlags: seq<string>,
    factCheckSources: seq<string>)

  /** What the fact-check lookup contributes. */
  datatype FactCheck = FactCheck(sources: seq<string>, citations: seq<string>)

  /** The random draws of one check, already scaled and rounded: the simulated status
      index `floor(r * 4)` and confidence `floor(r * 40)`, and the fact-check lookup's
      `floor(r * 3)` and `floor(r * 2)`. */
  datatype TextDraws = TextDraws(status: nat, confidence: nat, sources: nat, citations: nat)

  predicate ValidDraws(d: TextDraws) {
    d.status < 4 && d.confidence < 40 && d.sources < 3 && d.citations < 2
  }

  const FactCheckSources: seq<string> :=
    ["Snopes.com", "PolitiFact", "FactCheck.org", "Reuters Fact Check", "AP Fact Check"]

  const FactCheckCitations: seq<string> :=
    ["https://www.snopes.com/fact-check/example",
     "https://www.politifact.com/factchecks/example",
     "https://www.factcheck.org/example"]

  /** The fact-check lookup: the first one to three sources and the first one or two
      citations of fixed lists. */
  function SearchFactCheck(sourceDraw: nat, citationDraw: nat): (r: FactCheck)
    requires sourceDraw < 3 && citationDraw < 2
    ensures 1 <= |r.sources| <= 3 && r.sources == FactCheckSources[..|r.sources|]
    ensures 1 <= |r.citations| <= 2 && r.citations == FactCheckCitations[..|r.citations|]
  {
    FactCheck(Take(FactCheckSources, sourceDraw + 1), Take(FactCheckCitations, citationDraw + 1))
  }

  /** The simulated status the status draw picks from `[true, false, mixed, unverified]`. */
  function MockStatus(draw: nat): TextStatus
    requires draw < 4
  {
    [True, False, Mixed, Unverified][draw]
  }

  /** The fixed explanation the simulation gives for each status. The texts are named
      constants so that proofs handle them as single values. */
  function MockReasoning(t: TextStatus): string {
    match t
    case True => ReasonTrue
    case False => ReasonFalse
    case Mixed => ReasonMixed
    case Unverified => ReasonUnverified
  }

  const ReasonTrue: string :=
    "Analysis indicates the core claims are supported by credible sources and align with established facts. No significant red flags detected."
  const ReasonFalse: string :=
    "Multiple inconsistencies found with verified information. Claims contradict established facts from reliable sources."
  const ReasonMixed: string :=
    "Some elements of the claim are accurate while others are misleading or lack sufficient evidence for verification."
  const ReasonUnverified: string :=
    "Insufficient reliable sources available to confirm or deny the claims. Requires additional investigation."

  const MockCitations: seq<string> :=
    ["https://example-factcheck.org/analysis", "https://verification-source.com/report"]

  const MockRedFlags: seq<string> := ["Contradicts verified data", "Lacks credible sources"]

  const MockSources: seq<string> := ["Example Fact Check", "Verification Source"]

  /** The simulated verdict: a status among the four, a score from 60 to 99, that
      status's explanation, fixed citations and sources, and red flags exactly when
      the status is false. */
  function MockTextVerification(d: TextDraws): (v: TextVerdict)
    requires ValidDraws(d)
    ensures exists t: TextStatus ::
              && v.verificationStatus == Some(t.Label())
              && v.reasoning == Some(MockReasoning(t))
              && v.redFlags == (if t == False then MockRedFlags else [])
    ensures v.confidenceScore.Some? && 60 <= v.confidenceScore.value <= 99
    ensures v.citations == MockCitations && v.factCheckSources == MockSources
  {
    var t := MockStatus(d.status);
    var v := TextVerdict(
      Some(t.Label()),
      Some(d.confidence + 60),
      Some(MockReasoning(t)),
      MockCitations,
      if t == False then MockRedFlags else [],
      MockSources);
    assert v.verificationStatus == Some(t.Label()) && v.reasoning == Some(MockReasoning(t)) &&
           v.redFlags == (if t == False then MockRedFlags else []);
    v
  }

  /** A parsed answer merged with the fact-check lookup: the model's citations (none
      if missing) followed by the lookup's, duplicates kept, and the lookup's sources. */
  function MergeAnalysis(a: ClaimAnalysis, fc: FactCheck): (v: TextVerdict)
    ensures v.verificationStatus == a.verificationStatus
    ensures v.confidenceScore == a.confidenceScore && v.reasoning == a.reasoning
    ensures |OrEmpty(a.citations)| <= |v.citations|
    ensures v.citations[..|OrEmpty(a.citations)|] == OrEmpty(a.citations)
    ensures v.citations[|OrEmpty(a.citations)|..] == fc.citations
    ensures multiset(v.citations) == multiset(OrEmpty(a.citations)) + multiset(fc.citations)
    ensures v.redFlags == OrEmpty(a.redFlags) && v.factCheckSources == fc.sources
  {
    var cs := OrEmpty(a.citations) + fc.citations;
    assert cs[..|OrEmpty(a.citations)|] == OrEmpty(a.citations);
    TextVerdict(a.verificationStatus, a.confidenceScore, a.reasoning, cs, OrEmpty(a.redFlags), fc.sources)
  }

  /** A model credential is usable unless it is missing, empty or the placeholder. */
  predicate LiveCredential(credential: Option<string>) {
    Truthy(credential) && credential.value != "demo-key"
  }

  /** `verifyTextClaim`. `response` is the model's reply (None when the call fails),
      `parse` reads it as JSON (None when it is not). The claim text itself only goes
      into the prompt, so the verdict does not depend on it. */
  function VerifyTextClaim(credential: Option<string>, response: Option<string>,
                           parse: string -> Option<ClaimAnalysis>, d: TextDraws): (v: TextVerdict)
    requires ValidDraws(d)
    ensures !LiveCredential(credential) || !Truthy(response) || parse(response.value).None? ==>
              v == MockTextVerification(d)
    ensures LiveCredential(credential) && Truthy(response) && parse(response.value).Some? ==>
              v == MergeAnalysis(parse(response.value).value, SearchFactCheck(d.sources, d.citations))
    ensures 1 <= |v.factCheckSources| <= 3
  {
    if !LiveCredential(credential) || !Truthy(response) then MockTextVerification(d)
    else match parse(response.value)
      case None => MockTextVerification(d)
      case Some(a) => MergeAnalysis(a, SearchFactCheck(d.sources, d.citations))
  }

  /** A verdict's citations always end with at least one fact-check citation or are
      the simulation's fixed pair. */
  lemma CitationsEndWithLookup(credential: Option<string>, response: Option<string>,
                               parse: string -> Option<ClaimAnalysis>, d: TextDraws)
    requires ValidDraws(d)
    ensures var v := VerifyTextClaim(credential, response, parse, d);
            v.citations == MockCitations ||
            (|v.citations| >= 1 && v.citations[|v.citations| - 1] in FactCheckCitations)
  {
    var v := VerifyTextClaim(credential, response, parse, d);
    if !(!LiveCredential(credential) || !Truthy(response) || parse(response.value).None?) {
      var a := parse(response.value).value;
      var fc := SearchFactCheck(d.sources, d.citations);
      assert v.citations[|OrEmpty(a.citations)|..] == fc.citations;
      assert v.citations[|v.citations| - 1] == fc.citations[|fc.citations| - 1];
    }
  }
}
