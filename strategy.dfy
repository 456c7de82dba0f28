/** The strategy step: a language model's action plan for a text verdict, or a fixed
    plan per verdict status when no credential is configured, the model gives no
    answer, or its answer is not the expected JSON. */
module Strategize {
  import opened Wrappers
  import opened Text
  import opened Schema
  import opened TextClaim

  /** A plan: summary, action steps, priority, timeframe and the people involved. */
  datatype Strategy = Strategy(
    summary: Option<string>,
    actionSteps: seq<string>,
    priorityLevel: string,
    timeframe: string,
    stakeholders: seq<string>)

  /** The model's answer once parsed; every field may be missing. */
  datatype StrategyPlan = StrategyPlan(
    summary: Option<string>,
    actionSteps: Option<seq<string>>,
    priorityLevel: Option<string>,
    timeframe: Option<string>,
    stakeholders: Option<seq<string>>)

  /** The fixed plan for each status. The texts are named constants so that proofs
      handle them as single values. */
  function PlanFor(t: TextStatus): (s: Strategy)
    ensures |s.actionSteps| == 4 && |s.stakeholders| == 3 && s.summary.Some?
  {
    match t
    case False => Strategy(Some(FalseSummary), FalseSteps, Critical.Label(), "immediate", FalseStakeholders)
    case Mixed => Strategy(Some(MixedSummary), MixedSteps, High.Label(), "short-term", MixedStakeholders)
    case Unverified =>
      Strategy(Some(UnverifiedSummary), UnverifiedSteps, Medium.Label(), "short-term", UnverifiedStakeholders)
    case True => Strategy(Some(TrueSummary), TrueSteps, Low.Label(), "long-term", TrueStakeholders)
  }

  /** Only the plan for false claims is critical, and the plans grow less urgent from
      false through mixed and unverified to true. */
  lemma PlanPriorities()
    ensures PlanFor(False).priorityLevel == "critical" && PlanFor(False).timeframe == "immediate"
    ensures PlanFor(Mixed).priorityLevel == "high" && PlanFor(Mixed).timeframe == "short-term"
    ensures PlanFor(Unverified).priorityLevel == "medium" && PlanFor(Unverified).timeframe == "short-term"
    ensures PlanFor(True).priorityLevel == "low" && PlanFor(True).timeframe == "long-term"
  {
  }

  /** The plan a verdict's status selects: a status that names none of the four plans
      falls back to the unverified plan. */
  function PlanForStatus(status: Option<string>): (s: Strategy)
    ensures status.Some? && ParseTextStatus(status.value).Some? ==>
              s == PlanFor(ParseTextStatus(status.value).value)
    ensures status.None? || ParseTextStatus(status.value).None? ==> s == PlanFor(Unverified)
  {
    match status
    case None => PlanFor(Unverified)
    case Some(k) => PlanFor(ParseTextStatus(k).GetOr(Unverified))
  }

  /** `generateMockStrategy`: the selected plan, its critical priority lowered to high
      when a score is given and is below 70. A missing score never lowers it. */
  function MockStrategy(v: TextVerdict): (s: Strategy)
    ensures s.summary == PlanForStatus(v.verificationStatus).summary
    ensures s.actionSteps == PlanForStatus(v.verificationStatus).actionSteps
    ensures s.timeframe == PlanForStatus(v.verificationStatus).timeframe
    ensures s.stakeholders == PlanForStatus(v.verificationStatus).stakeholders
    ensures s.priorityLevel != PlanForStatus(v.verificationStatus).priorityLevel <==>
              PlanForStatus(v.verificationStatus).priorityLevel == "critical" &&
              v.confidenceScore.Some? && v.confidenceScore.value < 70
    ensures s.priorityLevel != PlanForStatus(v.verificationStatus).priorityLevel ==>
              s.priorityLevel == "high"
  {
    var plan := PlanForStatus(v.verificationStatus);
    if v.confidenceScore.Some? && v.confidenceScore.value < 70 && plan.priorityLevel == "critical" then
      plan.(priorityLevel := "high")
    else
      plan
  }

  /** A simulated plan is critical exactly for a false verdict whose score is missing
      or at least 70. */
  lemma MockCriticalExactly(v: TextVerdict)
    ensures MockStrategy(v).priorityLevel == "critical" <==>
              v.verificationStatus == Some("false") &&
              (v.confidenceScore.None? || v.confidenceScore.value >= 70)
  {
    PlanPriorities();
    var k := v.verificationStatus;
    if k.Some? && ParseTextStatus(k.value).Some? {
      var t := ParseTextStatus(k.value).value;
      assert t.Label() == k.value;
    }
  }

  /** The model's plan with its defaults: no steps, priority medium, timeframe
      short-term, no stakeholders; the summary is passed on as it is. */
  function LivePlan(p: StrategyPlan): (s: Strategy)
    ensures s.summary == p.summary
    ensures s.actionSteps == OrEmpty(p.actionSteps) && s.stakeholders == OrEmpty(p.stakeholders)
    ensures s.priorityLevel == OrText(p.priorityLevel, "medium")
    ensures s.timeframe == OrText(p.timeframe, "short-term")
    ensures s.priorityLevel != "" && s.timeframe != ""
  {
    Strategy(p.summary, OrEmpty(p.actionSteps), OrText(p.priorityLevel, "medium"),
             OrText(p.timeframe, "short-term"), OrEmpty(p.stakeholders))
  }

  /** `summarizeAndStrategize`. `response` is the model's reply (None when the call
      fails) and `parse` reads it as JSON (None when it is not). */
  function SummarizeAndStrategize(v: TextVerdict, credential: Option<string>, response: Option<string>,
                                  parse: string -> Option<StrategyPlan>): (s: Strategy)
    ensures !LiveCredential(credential) || !Truthy(response) || parse(response.value).None? ==>
              s == MockStrategy(v)
    ensures LiveCredential(credential) && Truthy(response) && parse(response.value).Some? ==>
              s == LivePlan(parse(response.value).value)
    ensures s.priorityLevel != ""
  {
    if !LiveCredential(credential) || !Truthy(response) then MockStrategy(v)
    else match parse(response.value)
      case None => MockStrategy(v)
      case Some(p) => LivePlan(p)
  }

  const FalseSummary: string :=
    "False information detected with high confidence. Immediate action required to prevent spread and correct misinformation."
  const FalseSteps: seq<string> := [
    "Flag content for review and potential removal",
    "Notify relevant fact-checking organizations",
    "Prepare corrective information with credible sources",
    "Monitor for additional instances of this misinformation"]
  const FalseStakeholders: seq<string> := ["Content moderators", "Fact-checkers", "Platform administrators"]

  const MixedSummary: string :=
    "Content contains both accurate and misleading elements. Requires nuanced approach to address inaccuracies while preserving valid information."
  const MixedSteps: seq<string> := [
    "Add contextual information to clarify misleading aspects",
    "Provide additional sources for verification",
    "Engage with content creator for clarification",
    "Monitor public response and engagement patterns"]
  const MixedStakeholders: seq<string> := ["Editorial team", "Subject matter experts", "Community managers"]

  const UnverifiedSummary: string :=
    "Claims require additional investigation due to insufficient evidence. Approach with caution until verification is complete."
  const UnverifiedSteps: seq<string> := [
    "Conduct deeper research using additional sources",
    "Consult with domain experts for specialized knowledge",
    "Implement temporary content labeling pending verification",
    "Establish timeline for follow-up investigation"]
  const UnverifiedStakeholders: seq<string> := ["Research team", "Domain experts", "Editorial oversight"]

  const TrueSummary: string :=
    "Information appears accurate based on current verification. Continue monitoring for any new developments or contradictory evidence."
  const TrueSteps: seq<string> := [
    "Maintain regular monitoring for updates",
    "Ensure sources remain credible and current",
    "Document verification process for future reference",
    "Share verification results with relevant stakeholders"]
  const TrueStakeholders: seq<string> := ["Content team", "Quality assurance", "Archive managers"]
}
