/** The store's value types: the status and priority enumerations of the database
    schema, and one row type per table. Timestamps are milliseconds since the epoch. */
module Schema {
  import opened Wrappers

  /** Status of an image check. */
  datatype ImageStatus = Verified | Suspicious | Manipulated {
    function Label(): string {
      match this
      case Verified => "verified"
      case Suspicious => "suspicious"
      case Manipulated => "manipulated"
    }
  }

  /** Verification status of a text claim. */
  datatype TextStatus = True | False | Mixed | Unverified {
    function Label(): string {
      match this
      case True => "true"
      case False => "false"
      case Mixed => "mixed"
      case Unverified => "unverified"
    }
  }

  /** Priority level of a strategy. */
  datatype Priority = Low | Medium | High | Critical {
    function Label(): string {
      match this
      case Low => "low"
      case Medium => "medium"
      case High => "high"
      case Critical => "critical"
    }
  }

  /** The text status a string names, if it names one (a lookup in a table keyed by status). */
  function ParseTextStatus(s: string): (r: Option<TextStatus>)
    ensures r.Some? ==> r.value.Label() == s
    ensures r.None? ==> forall t: TextStatus :: t.Label() != s
  {
    if s == "true" then Some(True)
    else if s == "false" then Some(False)
    else if s == "mixed" then Some(Mixed)
    else if s == "unverified" then Some(Unverified)
    else None
  }

  lemma ParseLabel(t: TextStatus)
    ensures ParseTextStatus(t.Label()) == Some(t)
  {
  }

  /** A row of the `articles` table. `id` is generated by the store and also stands for
      `created_at`: the store hands out increasing ids, so a larger id is a later insert. */
  datatype ArticleRow = ArticleRow(
    id: nat,
    title: string,
    content: string,
    url: string,
    imageUrl: Option<string>,
    sector: string,
    publishedAt: int)

  /** A row of `image_checks`. */
  datatype ImageCheckRow = ImageCheckRow(
    id: nat,
    articleId: nat,
    imageUrl: string,
    matchCount: int,
    earliestDate: Option<int>,
    contextUrls: seq<string>,
    confidenceScore: int,
    status: string)

  /** A row of `text_checks`. */
  datatype TextCheckRow = TextCheckRow(
    id: nat,
    articleId: nat,
    claimText: string,
    verificationStatus: string,
    confidenceScore: int,
    citations: seq<string>,
    reasoning: string)

  /** A row of `strategies`. */
  datatype StrategyRow = StrategyRow(
    id: nat,
    articleId: nat,
    summary: Option<string>,
    actionSteps: seq<string>,
    priorityLevel: string)

  /** The four tables the pipeline writes, and the next id the store will hand out. */
  datatype Tables = Tables(
    articles: seq<ArticleRow>,
    imageChecks: seq<ImageCheckRow>,
    textChecks: seq<TextCheckRow>,
    strategies: seq<StrategyRow>,
    nextId: nat)
}
