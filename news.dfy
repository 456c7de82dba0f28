/** The news source: the candidates a sector's headlines deliver, or a fixed set of
    simulated ones when no news credential is configured. */
module News {
  import opened Wrappers
  import opened Text

  /** A news item as the news source delivers it; any field but the URL may be
      missing or empty. */
  datatype Candidate = Candidate(
    title: Option<string>,
    description: Option<string>,
    url: string,
    urlToImage: Option<string>,
    publishedAt: Option<int>,
    content: Option<string>)

  /** The news source's answer; its article list may be missing. */
  datatype Headlines = Headlines(articles: Option<seq<Candidate>>)

  /** A candidate is processed only when it has a title and a description. */
  predicate Complete(c: Candidate) {
    Truthy(c.title) && Truthy(c.description)
  }

  /** The claim checked for an article: its title, a space and its description. */
  function Claim(c: Candidate): string
    requires Complete(c)
  {
    c.title.value + " " + c.description.value
  }

  const DayMs: nat := 24 * 60 * 60 * 1000

  /** The base title of the `i`-th simulated item. */
  function MockTitle(i: nat): (s: string)
    requires i < 5
    ensures |s| > 0
  {
    match i
    case 0 => "AI-Generated Content "
              + "Detection Reaches New "
              + "Milestone"
    case 1 => "Social Media Platforms "
              + "Implement Real-Time Fact "
              + "Checking"
    case 2 => "Government Agencies Adopt "
              + "Advanced Media Verification "
              + "Tools"
    case 3 => "Deepfake Detection "
              + "Technology Shows Promise in "
              + "Early Trials"
    case _ => "Educational Institutions "
              + "Launch Media Literacy "
              + "Programs"
  }

  /** Its description. */
  function MockDescription(i: nat): (s: string)
    requires i < 5
    ensures |s| > 0
  {
    match i
    case 0 => "Researchers develop advanced "
              + "algorithms capable of "
              + "identifying synthetic media "
              + "with 99.2% accuracy, marking "
              + "a significant breakthrough "
              + "in combating misinformation."
    case 1 => "Major social networks roll "
              + "out automated fact-checking "
              + "systems powered by machine "
              + "learning to combat the "
              + "spread of false information."
    case 2 => "Federal departments "
              + "implement cutting-edge image "
              + "and text verification "
              + "systems to ensure the "
              + "authenticity of official "
              + "communications."
    case 3 => "New neural network "
              + "architectures demonstrate "
              + "exceptional capability in "
              + "identifying sophisticated "
              + "deepfake videos and images."
    case _ => "Universities and schools "
              + "introduce comprehensive "
              + "curricula focused on digital "
              + "media verification and "
              + "critical thinking skills."
  }

  /** Its URL. */
  function MockUrl(i: nat): (s: string)
    requires i < 5
    ensures |s| > 0
  {
    match i
    case 0 => "https://example.com/ai-detection-milestone"
    case 1 => "https://example.com/social-media-fact-check"
    case 2 => "https://example.com/government-verification-tools"
    case 3 => "https://example.com/deepfake-detection-trials"
    case _ => "https://example.com/media-literacy-programs"
  }

  /** Its image. */
  function MockImage(i: nat): (s: string)
    requires i < 5
    ensures |s| > 0
  {
    PexelsPhoto(match i
      case 0 => "8386440/pexels-photo-8386440.jpeg"
      case 1 => "267399/pexels-photo-267399.jpeg"
      case 2 => "8728382/pexels-photo-8728382.jpeg"
      case 3 => "518543/pexels-photo-518543.jpeg"
      case _ => "159844/cellular-education-classroom-159844.jpeg")
  }

  /** A stock photo address, compressed to 800 pixels wide. */
  function PexelsPhoto(path: string): (s: string)
    ensures |s| > 0
  {
    "https://images.pexels.com/photos/" + path + "?auto=compress&cs=tinysrgb&w=800"
  }

  /** Its content. */
  function MockContent(i: nat): (s: string)
    requires i < 5
    ensures |s| > 0
  {
    match i
    case 0 => "Advanced AI detection "
              + "systems are revolutionizing "
              + "how we identify manipulated "
              + "content across digital "
              + "platforms."
    case 1 => "Real-time verification "
              + "systems are being deployed "
              + "across major social media "
              + "platforms to enhance "
              + "information integrity."
    case 2 => "Government agencies are "
              + "leading the adoption of "
              + "sophisticated verification "
              + "technologies to maintain "
              + "public trust."
    case 3 => "Breakthrough deepfake "
              + "detection algorithms are "
              + "showing unprecedented "
              + "accuracy in identifying "
              + "synthetic media content."
    case _ => "Educational institutions are "
              + "prioritizing media literacy "
              + "to prepare students for the "
              + "digital information age."
  }

  /** `generateMockArticles`: five items with images, each titled with the upper-cased
      sector in brackets; `ages` are the random ages in milliseconds (a day at most,
      since the date is rounded toward zero). */
  function MockArticles(sector: string, ages: seq<nat>, now: int): (r: seq<Candidate>)
    requires |ages| == 5 && forall i :: 0 <= i < 5 ==> ages[i] <= DayMs
    ensures |r| == 5
    ensures forall i :: 0 <= i < 5 ==> Complete(r[i]) && Truthy(r[i].urlToImage)
    ensures forall i :: 0 <= i < 5 ==> r[i].title == Some("[" + Upper(sector) + "] " + MockTitle(i))
    ensures forall i :: 0 <= i < 5 ==> r[i].url == MockUrl(i)
    ensures forall i :: 0 <= i < 5 ==>
              r[i].publishedAt.Some? && now - DayMs <= r[i].publishedAt.value <= now
  {
    seq(5, i requires 0 <= i < 5 =>
      Candidate(Some("[" + Upper(sector) + "] " + MockTitle(i)), Some(MockDescription(i)), MockUrl(i),
                Some(MockImage(i)), Some(now - ages[i]), Some(MockContent(i))))
  }

  /** A news credential is usable unless it is missing, empty or the placeholder. */
  predicate LiveCredential(credential: Option<string>) {
    Truthy(credential) && credential.value != "demo-key"
  }

  /** The candidate list: the news source's articles (none when the list is missing)
      with a usable credential, a failure when the source throws, and the simulated
      articles otherwise. */
  function Candidates(sector: string, newsKey: Option<string>, feed: Option<Headlines>,
                      ages: seq<nat>, now: int): (r: Result<seq<Candidate>>)
    requires |ages| == 5 && forall i :: 0 <= i < 5 ==> ages[i] <= DayMs
    ensures r.Failure? <==> LiveCredential(newsKey) && feed.None?
    ensures LiveCredential(newsKey) && feed.Some? ==> r == Success(OrEmpty(feed.value.articles))
    ensures !LiveCredential(newsKey) ==> r == Success(MockArticles(sector, ages, now))
  {
    if !LiveCredential(newsKey) then Success(MockArticles(sector, ages, now))
    else match feed
      case None => Failure("the news source failed")
      case Some(h) => Success(OrEmpty(h.articles))
  }

}
