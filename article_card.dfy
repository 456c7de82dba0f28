/** The article card of the dashboard: its relative age, its two verification badges,
    the snippet and the check details it shows, and the feedback it records. */
module ArticleCard {
  import opened Wrappers
  import opened Lists
  import opened Text
  import opened Schema
  import Pulse

  const HourMs: nat := 3600000
  const DayMs: nat := 24 * HourMs

  /** `formatDate`: the whole hours elapsed since publication, rounded down. Less than
      one hour, a date in the future included, reads "Just now"; less than a day reads
      in hours; anything older reads in whole days. */
  function FormatDate(publishedAt: int, now: int): (s: string)
    ensures s == "Just now" <==> now - publishedAt < HourMs
    ensures HourMs <= now - publishedAt < DayMs ==>
              1 <= (now - publishedAt) / HourMs < 24 &&
              s == NatToString((now - publishedAt) / HourMs) + "h ago"
    ensures DayMs <= now - publishedAt ==> s == NatToString((now - publishedAt) / DayMs) + "d ago"
  {
    var elapsed := now - publishedAt;
    var h := elapsed / HourMs;
    if h < 1 then "Just now"
    else
      var s := if h < 24 then NatToString(h) + "h ago" else NatToString(h / 24) + "d ago";
      assert s[0] == NatToString(if h < 24 then h else h / 24)[0];
      assert h >= 24 ==> h / 24 == elapsed / DayMs by {
        if h >= 24 {
          DivDiv(elapsed, h);
        }
      }
      s
  }

  /** Rounding down to hours and then to days is rounding down to days. */
  lemma DivDiv(elapsed: int, h: int)
    requires h == elapsed / HourMs
    ensures h / 24 == elapsed / DayMs
  {
    var q, rh := h / 24, h % 24;
    var r := elapsed % HourMs;
    assert elapsed == HourMs * h + r;
    assert h == 24 * q + rh;
    assert elapsed == DayMs * q + (HourMs * rh + r);
    assert 0 <= HourMs * rh + r < DayMs;
  }

  /** Two ages within the same day read the same exactly when the same whole number
      of hours has passed. */
  lemma HoursReadDistinctly(p1: int, p2: int, now: int)
    requires HourMs <= now - p1 < DayMs && HourMs <= now - p2 < DayMs
    ensures FormatDate(p1, now) == FormatDate(p2, now) <==>
              (now - p1) / HourMs == (now - p2) / HourMs
  {
    var a, b := NatToString((now - p1) / HourMs), NatToString((now - p2) / HourMs);
    if a + "h ago" == b + "h ago" {
      assert a == (a + "h ago")[..|a + "h ago"| - 5];
      assert b == (b + "h ago")[..|b + "h ago"| - 5];
      NatToStringInjective((now - p1) / HourMs, (now - p2) / HourMs);
    }
  }

  /** `getImageBadge`: the badge names the stored status, and a missing check or an
      unknown status shows as processing. */
  function ImageBadge(check: Option<ImageCheckRow>): (b: string)
    ensures b == "Verified" <==> check.Some? && check.value.status == "verified"
    ensures b == "Suspicious" <==> check.Some? && check.value.status == "suspicious"
    ensures b == "Manipulated" <==> check.Some? && check.value.status == "manipulated"
    ensures b == "Processing" <==>
              check.None? || check.value.status !in {"verified", "suspicious", "manipulated"}
  {
    if check.None? then "Processing"
    else if check.value.status == "verified" then "Verified"
    else if check.value.status == "suspicious" then "Suspicious"
    else if check.value.status == "manipulated" then "Manipulated"
    else "Processing"
  }

  /** `getTextBadge`: a missing check shows as processing; true, mixed and false have
      their own badges, and every other status, unverified included, is unverified. */
  function TextBadge(check: Option<TextCheckRow>): (b: string)
    ensures b == "Processing" <==> check.None?
    ensures b == "Verified" <==> check.Some? && check.value.verificationStatus == "true"
    ensures b == "Mixed" <==> check.Some? && check.value.verificationStatus == "mixed"
    ensures b == "False" <==> check.Some? && check.value.verificationStatus == "false"
    ensures b == "Unverified" <==>
              check.Some? && check.value.verificationStatus !in {"true", "mixed", "false"}
  {
    if check.None? then "Processing"
    else if check.value.verificationStatus == "true" then "Verified"
    else if check.value.verificationStatus == "mixed" then "Mixed"
    else if check.value.verificationStatus == "false" then "False"
    else "Unverified"
  }

  /** A card shows two verified badges exactly when the dashboard counts it verified. */
  lemma VerifiedBadgesAreCounted(v: Pulse.ArticleView)
    ensures Pulse.IsVerified(v) <==> ImageBadge(v.imageCheck) == "Verified" && TextBadge(v.textCheck) == "Verified"
  {
  }

  /** A card the dashboard counts suspicious shows a doubtful badge, and conversely. */
  lemma DoubtfulBadgesAreCounted(v: Pulse.ArticleView)
    ensures Pulse.IsSuspicious(v) <==>
              ImageBadge(v.imageCheck) in {"Suspicious", "Manipulated"} || TextBadge(v.textCheck) == "False"
  {
  }

  /** A card the dashboard counts as processing shows at least one processing badge. */
  lemma ProcessingBadgeIsShown(v: Pulse.ArticleView)
    ensures Pulse.IsProcessing(v) ==>
              ImageBadge(v.imageCheck) == "Processing" || TextBadge(v.textCheck) == "Processing"
  {
  }

  /** The score shown after a badge, ` (n%)`, exactly when there is a check. */
  function ConfidenceNote(score: Option<int>): (r: string)
    ensures r == "" <==> score.None?
    ensures score.Some? ==> |r| >= 5 && r[..2] == " (" && r[|r| - 2..] == "%)"
    ensures score.Some? ==> r[2..|r| - 2] == IntToString(score.value)
    ensures score.Some? && score.value >= 0 ==> AllDigits(r[2..|r| - 2]) && ParseDigits(r[2..|r| - 2]) == score.value
  {
    if score.None? then ""
    else
      var r := " (" + IntToString(score.value) + "%)";
      assert r[..2] == " (" && r[|r| - 2..] == "%)";
      assert r[2..|r| - 2] == IntToString(score.value);
      assert score.value >= 0 ==> ParseDigits(NatToString(score.value)) == score.value by {
        if score.value >= 0 {
          ParseNatToString(score.value);
        }
      }
      r
  }

  /** The image badge with its score: the bare word "Processing" exactly when the
      image check is missing. */
  function ImageBadgeLabel(check: Option<ImageCheckRow>): (r: string)
    ensures r == "Processing" <==> check.None?
    ensures |ImageBadge(check)| <= |r| && r[..|ImageBadge(check)|] == ImageBadge(check)
    ensures check.Some? ==> r == ImageBadge(check) + ConfidenceNote(Some(check.value.confidenceScore))
  {
    var b := ImageBadge(check);
    var note := ConfidenceNote(if check.Some? then Some(check.value.confidenceScore) else None);
    assert (b + note)[..|b|] == b;
    b + note
  }

  /** The text badge with its score: the bare word "Processing" exactly when the text
      check is missing. */
  function TextBadgeLabel(check: Option<TextCheckRow>): (r: string)
    ensures r == "Processing" <==> check.None?
    ensures |TextBadge(check)| <= |r| && r[..|TextBadge(check)|] == TextBadge(check)
    ensures check.Some? ==> r == TextBadge(check) + ConfidenceNote(Some(check.value.confidenceScore))
  {
    var b := TextBadge(check);
    var note := ConfidenceNote(if check.Some? then Some(check.value.confidenceScore) else None);
    assert (b + note)[..|b|] == b;
    b + note
  }

  /** The sightings line, present exactly when there is an image check. */
  function MatchLine(check: Option<ImageCheckRow>): (r: Option<string>)
    ensures r.Some? <==> check.Some?
    ensures r.Some? ==> r.value == IntToString(check.value.matchCount) + " matches"
  {
    if check.None? then None else Some(IntToString(check.value.matchCount) + " matches")
  }

  /** The snippet: the first 150 characters of the content, then an ellipsis. */
  function Snippet(content: string): (r: string)
    ensures |r| == (if |content| <= 150 then |content| else 150) + 3
    ensures r[..|r| - 3] <= content && r[|r| - 3..] == "..."
  {
    var head := Take(content, 150);
    assert (head + "...")[..|head|] == head;
    head + "..."
  }

  /** A row of the `feedback` table. */
  datatype FeedbackRow = FeedbackRow(articleId: nat, userRating: nat, helpful: bool, feedbackText: Option<string>)

  /** The record `submitFeedback` inserts: a rating of 5 for helpful and 1 otherwise,
      and no text. */
  function FeedbackFor(articleId: nat, helpful: bool): (f: FeedbackRow)
    ensures f.articleId == articleId && f.helpful == helpful && f.feedbackText.None?
    ensures f.userRating == 5 <==> helpful
    ensures f.userRating == 1 <==> !helpful
  {
    FeedbackRow(articleId, if helpful then 5 else 1, helpful, None)
  }

  /** One card on screen and whether its feedback has been sent. */
  class Card {
    var view: Pulse.ArticleView
    var feedbackSubmitted: bool

    constructor(v: Pulse.ArticleView)
      ensures view == v && !feedbackSubmitted
    {
      view := v;
      feedbackSubmitted := false;
    }

    /** The feedback buttons are shown until feedback has been sent. */
    predicate ShowsFeedbackButtons()
      reads this
    {
      !feedbackSubmitted
    }

    /** `submitFeedback`: the record sent, and the flag set only when the insert call
        returns (`returned` is false when it throws). A returned call counts as sent
        even when the store rejected the row, since the answer is not inspected. */
    method SubmitFeedback(helpful: bool, returned: bool) returns (sent: FeedbackRow)
      modifies this
      ensures sent == FeedbackFor(view.article.id, helpful)
      ensures view == old(view)
      ensures feedbackSubmitted == (old(feedbackSubmitted) || returned)
    {
      sent := FeedbackFor(view.article.id, helpful);
      if returned {
        feedbackSubmitted := true;
      }
    }
  }
}
