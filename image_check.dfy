/** The image check: a reverse image search, or a simulated one when no search
    credential is configured or the search fails, turned into a verdict. */
module ImageCheck {
  import opened Wrappers
  import opened Lists
  import opened Text
  import opened Schema

  /** One place the search service saw the image. */
  datatype Match = Match(domain: string, crawlDate: int)

  /** What the search service answers; `matches` may be missing altogether. */
  datatype SearchResult = SearchResult(matches: Option<seq<Match>>)

  /** The verdict one image check produces (dates are milliseconds since the epoch). */
  datatype ImageVerdict = ImageVerdict(
    matchCount: nat,
    earliestDate: Option<int>,
    contextUrls: seq<string>,
    confidence: nat,
    status: ImageStatus,
    totalMatches: nat,
    uniqueDomains: nat,
    analysisTimestamp: int)

  /** The random draws of the simulated search, already scaled and rounded:
      match count `floor(r * 10)`, confidence `floor(r * 30)`, and how far back the
      earliest sighting lies. The last is a fraction of a year in milliseconds, and
      the date built from `now - r * year` is rounded toward zero, so the whole year
      itself is a possible age. */
  datatype ImageDraws = ImageDraws(matchCount: nat, confidence: nat, ageMs: nat)

  const YearMs: nat := 365 * 24 * 60 * 60 * 1000

  predicate ValidDraws(d: ImageDraws) {
    d.matchCount < 10 && d.confidence < 30 && d.ageMs <= YearMs
  }

  /** The domains of the simulated sightings. */
  const MockDomains: seq<string> :=
    ["news.example.com", "media.sample.org", "photos.demo.net", "images.test.com", "content.mock.io"]

  /** The order of severity: verified, then suspicious, then manipulated. */
  function Severity(s: ImageStatus): nat {
    match s
    case Verified => 0
    case Suspicious => 1
    case Manipulated => 2
  }

  /** Classification of a real search: no sighting is verified (95), up to four
      sightings are suspicious (70), five or more are manipulated (85). */
  function ClassifyLive(matchCount: nat): (r: (ImageStatus, nat))
    ensures r.0 == Verified <==> matchCount == 0
    ensures r.0 == Suspicious <==> 1 <= matchCount < 5
    ensures r.0 == Manipulated <==> 5 <= matchCount
    ensures r.1 == match r.0 case Verified => 95 case Suspicious => 70 case Manipulated => 85
  {
    if matchCount == 0 then (Verified, 95)
    else if matchCount < 5 then (Suspicious, 70)
    else (Manipulated, 85)
  }

  /** Classification of a simulated search: the same shape with a lower threshold,
      three sightings already count as manipulated. */
  function ClassifyMock(matchCount: nat): (r: ImageStatus)
    ensures r == Verified <==> matchCount == 0
    ensures r == Suspicious <==> 1 <= matchCount < 3
    ensures r == Manipulated <==> 3 <= matchCount
  {
    if matchCount == 0 then Verified
    else if matchCount < 3 then Suspicious
    else Manipulated
  }

  /** More sightings never make a real verdict less severe. */
  lemma LiveSeverityMonotone(m: nat, n: nat)
    requires m <= n
    ensures Severity(ClassifyLive(m).0) <= Severity(ClassifyLive(n).0)
  {
  }

  /** More sightings never make a simulated verdict less severe. */
  lemma MockSeverityMonotone(m: nat, n: nat)
    requires m <= n
    ensures Severity(ClassifyMock(m)) <= Severity(ClassifyMock(n))
  {
  }

  /** For the same number of sightings the simulation is at least as severe as a real
      search, and strictly more severe for three or four sightings. */
  lemma MockAtLeastAsSevere(m: nat)
    ensures Severity(ClassifyLive(m).0) <= Severity(ClassifyMock(m))
    ensures Severity(ClassifyLive(m).0) < Severity(ClassifyMock(m)) <==> 3 <= m < 5
  {
  }

  /** The earliest crawl date, folding from `seed` as the search's `reduce` does. */
  function Earliest(seed: int, ms: seq<Match>): (r: int)
    ensures r <= seed
    ensures forall i :: 0 <= i < |ms| ==> r <= ms[i].crawlDate
    ensures r == seed || exists i :: 0 <= i < |ms| && r == ms[i].crawlDate
    decreases |ms|
  {
    if ms == [] then seed
    else
      var r := Earliest(if ms[0].crawlDate < seed then ms[0].crawlDate else seed, ms[1..]);
      assert forall i :: 1 <= i < |ms| ==> ms[i] == ms[1..][i - 1];
      r
  }

  /** The domains of a list of sightings, in order. */
  function Domains(ms: seq<Match>): (r: seq<string>)
    ensures |r| == |ms|
    ensures forall i :: 0 <= i < |ms| ==> r[i] == ms[i].domain
  {
    seq(|ms|, i requires 0 <= i < |ms| => ms[i].domain)
  }

  /** How many different strings a list holds, as `new Set(list).size`. */
  function DistinctCount(s: seq<string>): (n: nat)
    ensures n <= |s|
    ensures |s| > 0 ==> n >= 1
  {
    DistinctAtMostLength(s);
    assert |s| > 0 ==> |set x | x in s| >= |{s[0]}| by {
      if |s| > 0 { assert {s[0]} <= (set x | x in s); }
    }
    |set x | x in s|
  }

  lemma {:induction false} DistinctAtMostLength(s: seq<string>)
    ensures |set x | x in s| <= |s|
  {
    if s != [] {
      DistinctAtMostLength(s[1..]);
      assert (set x | x in s) == {s[0]} + (set x | x in s[1..]);
    }
  }

  /** The verdict of a real search answered at time `now`. */
  function LiveAnalysis(result: SearchResult, now: int): (v: ImageVerdict)
    ensures v.matchCount == |result.matches.GetOr([])|
    ensures result.matches.None? ==> v.matchCount == 0
    ensures v.earliestDate.None? <==> v.matchCount == 0
    ensures v.earliestDate.Some? ==>
              v.earliestDate.value <= now &&
              (v.earliestDate.value == now ||
               exists i :: 0 <= i < |result.matches.value| &&
                           v.earliestDate.value == result.matches.value[i].crawlDate) &&
              forall i :: 0 <= i < |result.matches.value| ==>
                            v.earliestDate.value <= result.matches.value[i].crawlDate
    ensures v.contextUrls == Domains(Take(result.matches.GetOr([]), 5))
    ensures (v.status, v.confidence) == ClassifyLive(v.matchCount)
    ensures v.totalMatches == v.matchCount
    ensures v.uniqueDomains == DistinctCount(v.contextUrls)
    ensures v.analysisTimestamp == now
  {
    var ms := result.matches.GetOr([]);
    var (status, confidence) := ClassifyLive(|ms|);
    var ctx := Domains(Take(ms, 5));
    ImageVerdict(
      |ms|,
      if |ms| > 0 then Some(Earliest(now, ms)) else None,
      ctx,
      confidence,
      status,
      |ms|,
      DistinctCount(ctx),
      now)
  }

  /** The simulated verdict at time `now`. */
  function MockAnalysis(d: ImageDraws, now: int): (v: ImageVerdict)
    requires ValidDraws(d)
    ensures v.matchCount == d.matchCount < 10
    ensures 70 <= v.confidence <= 99
    ensures v.status == ClassifyMock(v.matchCount)
    ensures v.earliestDate.None? <==> v.matchCount == 0
    ensures v.earliestDate.Some? ==> now - YearMs <= v.earliestDate.value <= now
    ensures v.contextUrls == Take(MockDomains, v.matchCount)
    ensures v.uniqueDomains == (if v.matchCount < 3 then v.matchCount else 3)
    ensures v.totalMatches == v.matchCount && v.analysisTimestamp == now
  {
    ImageVerdict(
      d.matchCount,
      if d.matchCount > 0 then Some(now - d.ageMs) else None,
      Take(MockDomains, if d.matchCount < 5 then d.matchCount else 5),
      d.confidence + 70,
      ClassifyMock(d.matchCount),
      d.matchCount,
      if d.matchCount < 3 then d.matchCount else 3,
      now)
  }

  /** A search credential is usable unless it is missing, empty or the placeholder. */
  predicate LiveCredential(credential: Option<string>) {
    Truthy(credential) && credential.value != "demo-key"
  }

  /** What every verdict satisfies, real or simulated. */
  predicate WellFormed(v: ImageVerdict, now: int) {
    && v.totalMatches == v.matchCount
    && (v.earliestDate.None? <==> v.matchCount == 0)
    && (v.earliestDate.Some? ==> v.earliestDate.value <= now)
    && |v.contextUrls| <= 5
    && |v.contextUrls| <= v.matchCount
    && v.uniqueDomains <= |v.contextUrls|
    && (v.status == Verified <==> v.matchCount == 0)
    && 70 <= v.confidence <= 99
    && v.analysisTimestamp == now
  }

  /** `detectImageManipulation`: the simulation without a usable credential or when
      the search fails (`search` is None), the real classification otherwise. */
  function DetectImageManipulation(credential: Option<string>, search: Option<SearchResult>,
                                   d: ImageDraws, now: int): (v: ImageVerdict)
    requires ValidDraws(d)
    ensures WellFormed(v, now)
    ensures !LiveCredential(credential) || search.None? ==> v == MockAnalysis(d, now)
    ensures LiveCredential(credential) && search.Some? ==> v == LiveAnalysis(search.value, now)
  {
    if !LiveCredential(credential) then MockAnalysis(d, now)
    else match search
      case None => MockAnalysis(d, now)
      case Some(r) => LiveAnalysis(r, now)
  }
}
