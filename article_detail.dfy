/** The article page: one badge rule shared by the image and the text check, and the
    content laid out as paragraphs. */
module ArticleDetail {
  import opened Wrappers
  import opened Text
  import opened Schema
  import ArticleCard

  /** `getVerificationBadge`: image and text statuses share one table. A check that
      passes reads verified, a doubtful one mixed, a failed one false, and every other
      status unverified. The score is passed but never consulted. */
  function VerificationBadge(status: string, confidence: int): (b: string)
    ensures b == "Verified" <==> status == "verified" || status == "true"
    ensures b == "Mixed" <==> status == "suspicious" || status == "mixed"
    ensures b == "False" <==> status == "manipulated" || status == "false"
    ensures b == "Unverified" <==>
              status !in {"verified", "true", "suspicious", "mixed", "manipulated", "false"}
  {
    if status == "verified" || status == "true" then "Verified"
    else if status == "suspicious" || status == "mixed" then "Mixed"
    else if status == "manipulated" || status == "false" then "False"
    else "Unverified"
  }

  /** The score never changes the badge. */
  lemma BadgeIgnoresConfidence(status: string, c1: int, c2: int)
    ensures VerificationBadge(status, c1) == VerificationBadge(status, c2)
  {
  }

  /** The image badge of the page: a missing check, or an empty status, is read as
      unverified, and a missing score as 0. */
  function ImageBadge(check: Option<ImageCheckRow>): (b: string)
    ensures check.None? ==> b == "Unverified"
    ensures check.Some? ==> b == VerificationBadge(check.value.status, check.value.confidenceScore)
  {
    VerificationBadge(
      OrText(if check.Some? then Some(check.value.status) else None, "unverified"),
      OrNumber(if check.Some? then Some(check.value.confidenceScore) else None, 0))
  }

  /** The text badge of the page, with the same substitutions. */
  function TextBadge(check: Option<TextCheckRow>): (b: string)
    ensures check.None? ==> b == "Unverified"
    ensures check.Some? ==> b == VerificationBadge(check.value.verificationStatus, check.value.confidenceScore)
  {
    VerificationBadge(
      OrText(if check.Some? then Some(check.value.verificationStatus) else None, "unverified"),
      OrNumber(if check.Some? then Some(check.value.confidenceScore) else None, 0))
  }

  /** A verified, suspicious or manipulated image on the card reads verified, mixed or
      false on the page. A missing check is processing on the card but unverified
      here, and an image status of "true" (which the pipeline never stores) is verified
      here but processing on the card. */
  lemma ImageBadgesCorrespond(check: Option<ImageCheckRow>)
    ensures check.None? ==> ArticleCard.ImageBadge(check) == "Processing" && ImageBadge(check) == "Unverified"
    ensures ArticleCard.ImageBadge(check) == "Verified" ==> ImageBadge(check) == "Verified"
    ensures ArticleCard.ImageBadge(check) == "Suspicious" ==> ImageBadge(check) == "Mixed"
    ensures ArticleCard.ImageBadge(check) == "Manipulated" ==> ImageBadge(check) == "False"
  {
  }

  /** For a text check whose status is one of the four verdicts the page shows the
      same badge as the card. */
  lemma TextBadgesAgree(check: TextCheckRow, t: TextStatus)
    requires check.verificationStatus == t.Label()
    ensures TextBadge(Some(check)) == ArticleCard.TextBadge(Some(check))
  {
  }

  /** The content as rendered: the pieces between blank lines, in order. Joining them
      back with blank lines gives the content, and no piece holds a blank line. */
  function Paragraphs(content: string): (ps: seq<string>)
    ensures |ps| >= 1
    ensures Join(ps, "\n\n") == content
    ensures forall k :: 0 <= k < |ps| ==> !Contains(ps[k], "\n\n")
  {
    JoinSplit(content, "\n\n");
    SplitPiecesFree(content, "\n\n");
    Split(content, "\n\n")
  }

  // ---------------------------------------------------------------------------
  // The page

  /** The part of the page state its handlers change: the bookmark flag. */
  class DetailPage {
    var isBookmarked: bool

    constructor()
      ensures !isBookmarked
    {
      isBookmarked := false;
    }

    /** `toggleBookmark`: the flag flips; nothing is saved. */
    method ToggleBookmark()
      modifies this
      ensures isBookmarked == !old(isBookmarked)
    {
      isBookmarked := !isBookmarked;
    }
  }
}
