/**
 * The Charity Commission inquiry-report adapter: collecting report links from the paginated
 * collection, reading one report page (publication date, charity number and name, issues,
 * outcome) and turning each report into a case record.
 *
 * A page is given as what the scraper's selectors find on it (`ReportPage`); a collection
 * page as its links and whether it has a `rel=next` link (`ListingPage`).
 */
module CharityCommission {
  import opened Wrappers
  import opened Text
  import opened Collections
  import opened Phrases
  import Scan
  import Dates
  import opened AdapterBase

  const BASE_URL := "https://www.gov.uk"

  /** The last collection page the crawler asks for. */
  const MAX_PAGES := 25

  /** Reports whose publication date is known, by URL. */
  const KNOWN_DATES: map<string, string> := map[
    "https://www.gov.uk/government/publications/charity-inquiry-mountain-of-fire-and-miracles-ministries-international" := "2023-10-20",
    "https://www.gov.uk/government/publications/charity-inquiry-obac-organisation-of-blind-africans-and-caribbeans" := "2023-07-01",
    "https://www.gov.uk/government/publications/charity-inquiry-four-paws-animal-rescue-south-wales" := "2023-11-05",
    "https://www.gov.uk/government/publications/charity-inquiry-island-health-trust" := "2023-07-03",
    "https://www.gov.uk/government/publications/charity-inquiry-the-sikh-channel-community-broadcasting-company-limited" := "2023-02-28",
    "https://www.gov.uk/government/publications/charity-inquiry-brighton-mosque-muslim-community-centre" := "2023-01-22",
    "https://www.gov.uk/government/publications/charity-inquiry-quba-trust" := "2023-12-19",
    "https://www.gov.uk/government/publications/charity-inquiry-muffin-pug-rescue" := "2023-12-05",
    "https://www.gov.uk/government/publications/charity-inquiry-the-captain-tom-foundation" := "2023-11-21",
    "https://www.gov.uk/government/publications/charity-inquiry-the-knightland-foundation" := "2023-11-15"
  ]

  lemma KnownDatesAreIso()
    ensures forall url :: url in KNOWN_DATES ==> Dates.IsIsoShaped(KNOWN_DATES[url])
  {
  }

  // ---------------------------------------------------------------- collection pages

  /** A collection page: missing (404), failing (any other error), or its links and `rel=next`. */
  datatype ListingPage = NotFound | Failed(error: string) | Listing(hrefs: seq<string>, hasNext: bool)

  /** `extract_links` for one anchor: an inquiry publication, made absolute. */
  function InquiryLink(href: string): (r: Option<string>)
    ensures r.Some? <==> Contains(href, "/government/publications/") && Contains(Lower(href), "inquiry")
    ensures r.Some? ==> r.value == (if StartsWith(href, "http") then href else BASE_URL + href)
    ensures r.Some? ==> StartsWith(r.value, "http")
  {
    if Contains(href, "/government/publications/") && Contains(Lower(href), "inquiry") then
      Some(if StartsWith(href, "http") then href else BASE_URL + href)
    else None
  }

  /** `extract_links`: the inquiry links of a page, in page order. */
  function InquiryLinks(hrefs: seq<string>): (links: seq<string>)
    ensures |links| <= |hrefs|
    ensures forall l :: l in links ==> StartsWith(l, "http")
  {
    Kept(hrefs, InquiryLink)
  }

  /** What the crawl collected and how many collection pages it requested. */
  datatype Crawl = Crawl(links: Result<seq<string>>, pages: nat)

  /** Puts the links collected before page `n` in front of what the crawl from page `n` collects. */
  function Prepend(before: seq<string>, c: Crawl): Crawl
  {
    match c.links
    case Err(e) => c
    case Ok(after) => Crawl(Ok(before + after), c.pages)
  }

  /**
   * The crawl from collection page `n` on: a 404 or a page without inquiry links ends it, a
   * failing request aborts it, and otherwise it goes on to the next page while there is a
   * `rel=next` link and the page limit is not reached.
   */
  function CrawlFrom(listing: nat -> ListingPage, n: nat): (c: Crawl)
    requires 1 <= n <= MAX_PAGES
    ensures n <= c.pages <= MAX_PAGES
    decreases MAX_PAGES - n
  {
    match listing(n)
    case NotFound => Crawl(Ok([]), n)
    case Failed(e) => Crawl(Err(e), n)
    case Listing(hrefs, hasNext) =>
      var links := InquiryLinks(hrefs);
      if links == [] then Crawl(Ok([]), n)
      else if !hasNext || n == MAX_PAGES then Crawl(Ok(links), n)
      else Prepend(links, CrawlFrom(listing, n + 1))
  }

  lemma PrependPrepend(a: seq<string>, b: seq<string>, c: Crawl)
    ensures Prepend(a, Prepend(b, c)) == Prepend(a + b, c)
  {
    if c.links.Ok? {
      assert a + (b + c.links.value) == (a + b) + c.links.value;
    }
  }

  /** One step of the crawl from page `n`, by what that page holds. */
  lemma CrawlStep(listing: nat -> ListingPage, n: nat)
    requires 1 <= n <= MAX_PAGES
    ensures listing(n).NotFound? ==> CrawlFrom(listing, n) == Crawl(Ok([]), n)
    ensures listing(n).Failed? ==> CrawlFrom(listing, n) == Crawl(Err(listing(n).error), n)
    ensures listing(n).Listing? && InquiryLinks(listing(n).hrefs) == [] ==> CrawlFrom(listing, n) == Crawl(Ok([]), n)
    ensures listing(n).Listing? && InquiryLinks(listing(n).hrefs) != [] && (!listing(n).hasNext || n == MAX_PAGES) ==>
      CrawlFrom(listing, n) == Crawl(Ok(InquiryLinks(listing(n).hrefs)), n)
    ensures Continues(listing(n)) && n < MAX_PAGES ==>
      CrawlFrom(listing, n) == Prepend(InquiryLinks(listing(n).hrefs), CrawlFrom(listing, n + 1))
  {
  }

  /**
   * The body of the pagination loop for page `n`: either the crawl ends here, with what it
   * collected, or the links so far grow by the page's inquiry links and the crawl goes on.
   */
  method VisitPage(listing: nat -> ListingPage, n: nat, reportLinks: seq<string>)
    returns (stop: bool, links: Result<seq<string>>, reportLinks': seq<string>)
    requires 1 <= n <= MAX_PAGES
    requires CrawlFrom(listing, 1) == Prepend(reportLinks, CrawlFrom(listing, n))
    ensures stop ==> Crawl(links, n) == CrawlFrom(listing, 1)
    ensures !stop ==> n < MAX_PAGES && CrawlFrom(listing, 1) == Prepend(reportLinks', CrawlFrom(listing, n + 1))
  {
    var page := listing(n);
    CrawlStep(listing, n);
    reportLinks' := reportLinks;
    if page.NotFound? {
      assert reportLinks + [] == reportLinks;
      return true, Ok(reportLinks), reportLinks';
    }
    if page.Failed? {
      return true, Err(page.error), reportLinks';
    }
    var newLinks := InquiryLinks(page.hrefs);
    if newLinks == [] {
      assert reportLinks + [] == reportLinks;
      return true, Ok(reportLinks), reportLinks';
    }
    reportLinks' := reportLinks + newLinks;
    if !page.hasNext || n == MAX_PAGES {
      return true, Ok(reportLinks'), reportLinks';
    }
    PrependPrepend(reportLinks, newLinks, CrawlFrom(listing, n + 1));
    stop, links := false, Ok(reportLinks');
  }

  /** The pagination loop of `download_raw`: collects report links page by page. */
  method CollectReportLinks(listing: nat -> ListingPage) returns (links: Result<seq<string>>, pages: nat)
    ensures Crawl(links, pages) == CrawlFrom(listing, 1)
    ensures 1 <= pages <= MAX_PAGES
  {
    var reportLinks: seq<string> := [];
    var pageNum := 1;
    assert Prepend([], CrawlFrom(listing, 1)) == CrawlFrom(listing, 1) by {
      var c := CrawlFrom(listing, 1);
      if c.links.Ok? {
        assert [] + c.links.value == c.links.value;
      }
    }
    while true
      invariant 1 <= pageNum <= MAX_PAGES
      invariant CrawlFrom(listing, 1) == Prepend(reportLinks, CrawlFrom(listing, pageNum))
      decreases MAX_PAGES - pageNum
    {
      var stop;
      stop, links, reportLinks := VisitPage(listing, pageNum, reportLinks);
      if stop {
        return links, pageNum;
      }
      pageNum := pageNum + 1;
    }
  }

  /** A collection page that lists inquiries and links to a next page. */
  predicate Continues(page: ListingPage)
  {
    page.Listing? && page.hasNext && InquiryLinks(page.hrefs) != []
  }

  /** When every page lists inquiries and links to a next one, the crawl stops at the page limit. */
  lemma {:induction false} CrawlStopsAtLimit(listing: nat -> ListingPage, n: nat)
    requires 1 <= n <= MAX_PAGES
    requires forall k :: n <= k <= MAX_PAGES ==> Continues(listing(k))
    ensures CrawlFrom(listing, n).pages == MAX_PAGES
    ensures CrawlFrom(listing, n).links.Ok?
    decreases MAX_PAGES - n
  {
    assert Continues(listing(n));
    if n < MAX_PAGES {
      CrawlStopsAtLimit(listing, n + 1);
    }
  }

  /** Every collected link is absolute. */
  lemma {:induction false} CrawlLinksAreAbsolute(listing: nat -> ListingPage, n: nat)
    requires 1 <= n <= MAX_PAGES
    ensures CrawlFrom(listing, n).links.Ok? ==>
      forall l :: l in CrawlFrom(listing, n).links.value ==> StartsWith(l, "http")
    decreases MAX_PAGES - n
  {
    if listing(n).Listing? && InquiryLinks(listing(n).hrefs) != [] && listing(n).hasNext && n < MAX_PAGES {
      CrawlLinksAreAbsolute(listing, n + 1);
    }
  }

  // ---------------------------------------------------------------- dates

  const UK_FORMATS: seq<Dates.Format> :=
    [Dates.DAY_MONTHNAME_YEAR, Dates.DAY_MONTHABBR_YEAR, Dates.MONTHNAME_YEAR]

  /**
   * `_parse_date`: nothing for empty text; the first ten characters of text starting with a
   * `YYYY-MM-DD` date; otherwise the first of `%d %B %Y`, `%d %b %Y`, `%B %Y` that parses
   * the stripped text.
   */
  function ParseDate(s: string): (r: Option<string>)
    ensures s == "" ==> r.None?
    ensures s != "" && Dates.StartsIsoShaped(s) ==> r == Some(s[..10])
    ensures s != "" && !Dates.StartsIsoShaped(s) ==> r == Dates.ParseFirst(Strip(s), UK_FORMATS)
    ensures r.Some? ==> Dates.IsIsoShaped(r.value)
  {
    if s == "" then None
    else if Dates.StartsIsoShaped(s) then Some(s[..10])
    else Dates.ParseFirst(Strip(s), UK_FORMATS)
  }

  /** A date the parser produced parses back to itself. */
  lemma ParseDateIdempotent(s: string)
    requires ParseDate(s).Some?
    ensures ParseDate(ParseDate(s).value) == ParseDate(s)
  {
    var d := ParseDate(s).value;
    assert d[..10] == d;
  }

  /** The `<time>` element or `.published-dates` block, when the page has one. */
  datatype TimeElement = TimeElement(datetime: Option<string>, text: string)

  /**
   * What the selectors of `_fetch_report_page` find on a report page: the `h1` text, the
   * `<time>` element, the text of the published-dates block, the `content` of the
   * published-date meta tag, the texts of every `p` and `div` in document order, the whole
   * page text, the lead paragraph and the body text.
   */
  datatype ReportPage = ReportPage(
    heading: Option<string>,
    timeElement: Option<TimeElement>,
    publishedBlock: Option<string>,
    metaContent: Option<string>,
    blocks: seq<string>,
    pageText: string,
    lead: Option<string>,
    body: Option<string>)

  /** Method 1: the `datetime` attribute, or else the element's text, parsed. */
  function FromTimeElement(e: Option<TimeElement>): Option<string>
  {
    if e.None? then None else ParseDate(Or(e.value.datetime.UnwrapOr(""), e.value.text))
  }

  /** Method 2: `published[: ]+<day> <month> 20<yy>` in the lower-cased published-dates block. */
  function FromPublishedBlock(block: Option<string>): Option<string>
  {
    if block.None? then None
    else
      var text := Lower(block.value);
      if !Contains(text, "published") then None
      else
        match Scan.Search(Scan.Labelled("published", true), text)
        case None => None
        case Some(m) => ParseDate(m)
  }

  /** Method 3: the meta tag's content up to the first `T`, kept as is when it starts with a date. */
  function FromMeta(content: Option<string>): (r: Option<string>)
    ensures r.Some? ==> Dates.StartsIsoShaped(r.value) && 'T' !in r.value
  {
    if content.None? || content.value == "" then None
    else
      var c := if 'T' in content.value then SplitOn(content.value, "T")[0] else content.value;
      SplitOnFirstPiece(content.value, 'T');
      if Dates.StartsIsoShaped(c) then Some(c) else None
  }

  /** Method 4's match in one lower-cased block. */
  function PublishedIn(text: string): Option<string>
  {
    if Contains(text, "published") then Scan.Search(Scan.Labelled("published", false), text) else None
  }

  /** Method 4: the first block mentioning `published` next to a date decides, parsed or not. */
  function FromBlocks(blocks: seq<string>): Option<string>
  {
    if |blocks| == 0 then None
    else
      match PublishedIn(Lower(blocks[0]))
      case Some(m) => ParseDate(m)
      case None => FromBlocks(blocks[1..])
  }

  /** Method 5: the first `<day> <month> 20<yy>` anywhere in the page text. */
  function FromPageText(text: string): Option<string>
  {
    match Scan.Search(Scan.DAY_MONTH_20YY_LOOSE, text)
    case None => None
    case Some(m) => ParseDate(m)
  }

  /** The five strategies in the order the scraper tries them. */
  function Strategies(page: ReportPage): seq<Option<string>>
  {
    [FromTimeElement(page.timeElement), FromPublishedBlock(page.publishedBlock), FromMeta(page.metaContent),
     FromBlocks(page.blocks), FromPageText(page.pageText)]
  }

  /** The publication date of a report: the known date of its URL, else the first strategy's date. */
  function PublishedDateOf(url: string, page: ReportPage): Option<string>
  {
    if url in KNOWN_DATES then Some(KNOWN_DATES[url]) else FirstOf(Strategies(page))
  }

  /** Whatever strategy supplies it, a publication date starts with `YYYY-MM-DD`. */
  lemma PublishedDateIsDated(url: string, page: ReportPage)
    ensures PublishedDateOf(url, page).Some? ==> Dates.StartsIsoShaped(PublishedDateOf(url, page).value)
  {
    KnownDatesAreIso();
    var s := Strategies(page);
    if url !in KNOWN_DATES && FirstOf(s).Some? {
      var k :| 0 <= k < |s| && s[k] == FirstOf(s);
      var d := FirstOf(s).value;
      if k != 2 {
        assert Dates.IsIsoShaped(d) by {
          if k == 0 || k == 1 || k == 4 {
            assert s[k] == FromTimeElement(page.timeElement) || s[k] == FromPublishedBlock(page.publishedBlock) ||
                   s[k] == FromPageText(page.pageText);
          } else {
            BlocksDateIsIso(page.blocks);
          }
        }
        assert d[..10] == d;
      }
    }
  }

  lemma {:induction false} BlocksDateIsIso(blocks: seq<string>)
    ensures FromBlocks(blocks).Some? ==> Dates.IsIsoShaped(FromBlocks(blocks).value)
  {
    if |blocks| > 0 && PublishedIn(Lower(blocks[0])).None? {
      BlocksDateIsIso(blocks[1..]);
    }
  }

  /** Method 4's loop: stops at the first block mentioning `published` next to a date. */
  method ScanBlocks(blocks: seq<string>) returns (publishedDate: Option<string>)
    ensures publishedDate == FromBlocks(blocks)
  {
    publishedDate := None;
    var i := 0;
    while i < |blocks|
      invariant 0 <= i <= |blocks|
      invariant FromBlocks(blocks) == FromBlocks(blocks[i..])
    {
      var m := PublishedIn(Lower(blocks[i]));
      if m.Some? {
        return ParseDate(m.value);
      }
      assert blocks[i..][1..] == blocks[i + 1..];
      i := i + 1;
    }
  }

  /**
   * The date chain of `_fetch_report_page`: each strategy is tried while `published_date` is
   * still unset.
   */
  method ScrapePublishedDate(url: string, page: ReportPage) returns (publishedDate: Option<string>)
    ensures publishedDate == PublishedDateOf(url, page)
  {
    if url in KNOWN_DATES {
      return Some(KNOWN_DATES[url]);
    }
    publishedDate := None;
    if page.timeElement.Some? {
      var e := page.timeElement.value;
      publishedDate := ParseDate(Or(e.datetime.UnwrapOr(""), e.text));
    }
    if publishedDate.None? {
      publishedDate := FromPublishedBlock(page.publishedBlock);
    }
    if publishedDate.None? {
      publishedDate := FromMeta(page.metaContent);
    }
    if publishedDate.None? {
      publishedDate := ScanBlocks(page.blocks);
    }
    if publishedDate.None? {
      publishedDate := FromPageText(page.pageText);
    }
    FirstOfFive(FromTimeElement(page.timeElement), FromPublishedBlock(page.publishedBlock),
                FromMeta(page.metaContent), FromBlocks(page.blocks), FromPageText(page.pageText));
  }

  /** A known URL takes its known date whatever the page says. */
  lemma KnownDateWins(url: string, page: ReportPage)
    requires url in KNOWN_DATES
    ensures PublishedDateOf(url, page) == Some(KNOWN_DATES[url])
  {
  }

  // ---------------------------------------------------------------- charity details

  /**
   * `_extract_charity_number`: the 6 or 7 digits after `charity` (with an optional `number`,
   * `no`, `no.` or `registration` and an optional colon), else 7 digits after `registered`,
   * case-insensitively. Digits are not changed by lower-casing, so the digits found in the
   * lower-cased text are those of the original.
   */
  function CharityNumber(text: string): (r: Option<string>)
    ensures Scan.Search(Scan.CHARITY_NUMBER_LABELLED, Lower(text)).Some? ==>
      r == Scan.Search(Scan.CHARITY_NUMBER_LABELLED, Lower(text))
    ensures Scan.Search(Scan.CHARITY_NUMBER_LABELLED, Lower(text)).None? ==>
      r == Scan.Search(Scan.CHARITY_NUMBER_REGISTERED, Lower(text))
    ensures r.Some? ==> 6 <= |r.value| <= 7 && forall c :: c in r.value ==> IsDigit(c)
  {
    var t := Lower(text);
    match Scan.Search(Scan.CHARITY_NUMBER_LABELLED, t)
    case Some(n) =>
      Scan.RunGroupFound(Scan.CHARITY_NUMBER_LABELLED, t);
      Some(n)
    case None =>
      match Scan.Search(Scan.CHARITY_NUMBER_REGISTERED, t)
      case Some(n) =>
        Scan.RunGroupFound(Scan.CHARITY_NUMBER_REGISTERED, t);
        Some(n)
      case None => None
  }

  /** `s.split(':', 1)[1]`: what follows the first colon. */
  function AfterColon(s: string): (r: string)
    requires ':' in s
    ensures |r| < |s| && r == s[|s| - |r|..] && s[|s| - |r| - 1] == ':'
    ensures ':' !in s[..|s| - |r| - 1]
  {
    if s[0] == ':' then s[1..] else AfterColon(s[1..])
  }

  /** `\s*-\s*conclud.*$` (ignoring case) matches at position `i` of `name`. */
  predicate ConcludingAt(name: string, i: nat)
    requires i <= |name|
  {
    var dash := i + Dates.SpaceRun(name, i);
    dash < |name| && name[dash] == '-' &&
    var word := dash + 1 + Dates.SpaceRun(name, dash + 1);
    word + 7 <= |name| && Lower(name[word..word + 7]) == "conclud" && '\n' !in name[word + 7..]
  }

  /** The leftmost position from `i` on where the suffix pattern matches, if any. */
  function ConcludingFrom(name: string, i: nat): (r: Option<nat>)
    requires i <= |name|
    ensures r.Some? ==> i <= r.value <= |name| && ConcludingAt(name, r.value)
    ensures r.None? ==> forall j :: i <= j <= |name| ==> !ConcludingAt(name, j)
    ensures r.Some? ==> forall j :: i <= j < r.value ==> !ConcludingAt(name, j)
    decreases |name| - i
  {
    if ConcludingAt(name, i) then Some(i)
    else if i == |name| then None
    else ConcludingFrom(name, i + 1)
  }

  /** `re.sub(r'\s*-\s*conclud.*$', '', name, flags=re.IGNORECASE)` */
  function DropConcluding(name: string): (r: string)
    ensures |r| <= |name| && r == name[..|r|]
    ensures (forall j :: 0 <= j <= |name| ==> !ConcludingAt(name, j)) ==> r == name
    ensures |r| < |name| ==> ConcludingAt(name, |r|) && forall j :: 0 <= j < |r| ==> !ConcludingAt(name, j)
  {
    match ConcludingFrom(name, 0)
    case None => name
    case Some(i) => name[..i]
  }

  /**
   * `_extract_charity_name`: the stripped text after the title's first colon, with a trailing
   * "- concluded ..." cut off; nothing when the title has no colon.
   */
  function CharityName(title: string): (r: Option<string>)
    ensures r.None? <==> ':' !in title
    ensures r.Some? ==> r.value == DropConcluding(Strip(AfterColon(title)))
  {
    if ':' in title then Some(DropConcluding(Strip(AfterColon(title)))) else None
  }

  /** The name is a prefix of the stripped text after the title's first colon. */
  lemma CharityNameIsPrefix(title: string)
    requires ':' in title
    ensures var after := Strip(AfterColon(title));
      CharityName(title).Some? && after[..|CharityName(title).value|] == CharityName(title).value
  {
  }

  // ---------------------------------------------------------------- issues and outcome

  const ISSUE_RULES: seq<Rule> := [
    Rule("safeguarding", ["safeguard", "safeguarding", "child protection", "vulnerable adult",
                          "vulnerable beneficiary", "sexual abuse", "physical abuse",
                          "emotional abuse", "neglect", "harm to beneficiaries"]),
    Rule("gdpr", ["data protection", "personal data", "gdpr", "uk gdpr", "information commissioner",
                  "ico", "data breach", "loss of data", "unlawful processing"]),
    Rule("health_safety", ["health and safety", "health & safety", "hse", "risk assessment",
                           "safe systems of work", "fire safety", "fire risk"]),
    Rule("financial_reporting", ["financial controls", "inadequate financial controls",
                                 "accounting records", "accounts", "financial mismanagement",
                                 "funds misapplied", "unauthorised payment", "unauthorized payment",
                                 "loan to trustee", "related party transaction", "sorp"]),
    Rule("anti_fraud", ["fraud", "fraudulent", "false accounting", "money laundering",
                        "terrorist financing", "terrorism", "theft", "misappropriation",
                        "misuse of funds"]),
    Rule("risk_management", ["risk management", "risk register", "risk framework", "internal control",
                             "internal controls", "poor risk management", "lack of risk management",
                             "due diligence"])
  ]

  /** The issue tags in checking order. */
  function IssueTag(k: nat): string
    requires k < |ISSUE_RULES|
  {
    ISSUE_RULES[k].tag
  }

  /**
   * `_extract_issues`: the tag of every issue with a phrase in the lower-cased title, summary
   * and body, in checking order; just `governance` when none has.
   */
  function Issues(title: string, summary: string, text: string): (issues: seq<string>)
    ensures |issues| >= 1
    ensures var combined := Lower(title + "\n" + summary + "\n" + text);
      forall k :: 0 <= k < |ISSUE_RULES| ==> (IssueTag(k) in issues <==> AnyIn(combined, ISSUE_RULES[k].phrases))
    ensures var combined := Lower(title + "\n" + summary + "\n" + text);
      "governance" in issues <==> forall k :: 0 <= k < |ISSUE_RULES| ==> !AnyIn(combined, ISSUE_RULES[k].phrases)
    ensures "governance" in issues ==> issues == ["governance"]
    ensures forall t :: t in issues && t != "governance" ==> TagIndex(ISSUE_RULES, t) < |ISSUE_RULES|
    ensures forall a, b :: 0 <= a < b < |issues| ==> issues[a] != issues[b]
    ensures forall a, b :: 0 <= a < b < |issues| ==> TagIndex(ISSUE_RULES, issues[a]) < TagIndex(ISSUE_RULES, issues[b])
  {
    IssueRulesWellFormed();
    TagsOr(Lower(title + "\n" + summary + "\n" + text), ISSUE_RULES, "governance")
  }

  lemma IssueRulesWellFormed()
    ensures DistinctTags(ISSUE_RULES)
    ensures forall k :: 0 <= k < |ISSUE_RULES| ==> ISSUE_RULES[k].tag != "governance"
  {
  }

  const OUTCOME_RULES: seq<Rule> := [
    Rule("charity removed", ["removed from the register"]),
    Rule("warning issued", ["official warning"]),
    Rule("action plan required", ["action plan"]),
    Rule("trustees removed", ["trustees removed", "trustee removed"]),
    Rule("no action", ["no regulatory action"]),
    Rule("ongoing monitoring", ["monitoring"])
  ]

  /** The outcome labels found in the lower-cased body, in checking order. */
  function OutcomeLabels(text: string): (labels: seq<string>)
    ensures forall k :: 0 <= k < |OUTCOME_RULES| ==>
      (OUTCOME_RULES[k].tag in labels <==> AnyIn(Lower(text), OUTCOME_RULES[k].phrases))
    ensures forall a, b :: 0 <= a < b < |labels| ==>
      TagIndex(OUTCOME_RULES, labels[a]) < TagIndex(OUTCOME_RULES, labels[b])
    ensures forall l :: l in labels ==> TagIndex(OUTCOME_RULES, l) < |OUTCOME_RULES|
  {
    Tags(Lower(text), OUTCOME_RULES)
  }

  /** `_extract_outcome`: the labels joined with `', '`, or nothing when no label applies. */
  function Outcome(text: string): (r: Option<string>)
    ensures r.None? <==> forall k :: 0 <= k < |OUTCOME_RULES| ==> !AnyIn(Lower(text), OUTCOME_RULES[k].phrases)
    ensures r.Some? ==> r.value == Join(OutcomeLabels(text), ", ")
  {
    var labels := OutcomeLabels(text);
    if labels == [] then None
    else
      assert OUTCOME_RULES[TagIndex(OUTCOME_RULES, labels[0])].tag in labels;
      Some(Join(labels, ", "))
  }

  // ---------------------------------------------------------------- reports and records

  /** The dictionary `_fetch_report_page` returns. */
  datatype Report = Report(
    url: string,
    title: string,
    summary: string,
    publishedDate: Option<string>,
    charityNumber: Option<string>,
    charityName: Option<string>,
    issues: seq<string>,
    outcome: Option<string>,
    fullText: string)

  /**
   * One report page read: the heading (or `Unknown`), the lead paragraph cut to 500 characters,
   * the body cut to 5000, the publication date, and the details found in the body. Issues are
   * looked for in the whole lead paragraph.
   */
  function ReportOf(url: string, page: ReportPage): (r: Report)
    ensures r.url == url && r.title == (if page.heading.Some? then page.heading.value else "Unknown")
    ensures r.summary == Take(page.lead.UnwrapOr(""), 500) && r.fullText == Take(page.body.UnwrapOr(""), 5000)
    ensures r.publishedDate == PublishedDateOf(url, page)
    ensures r.charityNumber == CharityNumber(page.body.UnwrapOr(""))
    ensures r.charityName == CharityName(r.title)
    ensures r.issues == Issues(r.title, page.lead.UnwrapOr(""), page.body.UnwrapOr(""))
    ensures r.outcome == Outcome(page.body.UnwrapOr(""))
  {
    var title := if page.heading.Some? then page.heading.value else "Unknown";
    var summary := page.lead.UnwrapOr("");
    var text := page.body.UnwrapOr("");
    Report(url, title, Take(summary, 500), PublishedDateOf(url, page), CharityNumber(text),
           CharityName(title), Issues(title, summary, text), Outcome(text), Take(text, 5000))
  }

  /** `_fetch_report_page` on a page that downloaded. */
  method FetchReportPage(url: string, page: ReportPage) returns (report: Report)
    ensures report == ReportOf(url, page)
  {
    var publishedDate := ScrapePublishedDate(url, page);
    var title := if page.heading.Some? then page.heading.value else "Unknown";
    var summary := page.lead.UnwrapOr("");
    var text := page.body.UnwrapOr("");
    report := Report(url, title, Take(summary, 500), publishedDate, CharityNumber(text),
                     CharityName(title), Issues(title, summary, text), Outcome(text), Take(text, 5000));
  }

  /**
   * `download_raw`: the links of the crawl, then each report page in link order; a page that
   * fails to download (`None`) is skipped, a failing collection page aborts.
   */
  method DownloadReports(listing: nat -> ListingPage, fetch: string -> Option<ReportPage>)
    returns (reports: Result<seq<Report>>)
    ensures CrawlFrom(listing, 1).links.Err? ==> reports == Err(CrawlFrom(listing, 1).links.error)
    ensures CrawlFrom(listing, 1).links.Ok? ==>
      reports == Ok(Kept(CrawlFrom(listing, 1).links.value,
                         url => if fetch(url).Some? then Some(ReportOf(url, fetch(url).value)) else None))
  {
    var links, pages := CollectReportLinks(listing);
    if links.Err? {
      return Err(links.error);
    }
    var kept := KeepEach(links.value, url => if fetch(url).Some? then Some(ReportOf(url, fetch(url).value)) else None);
    return Ok(kept);
  }

  /** `f"{charity_number}"` on a number that may be `None`, which Python writes as `None`. */
  function NumberText(n: Option<string>): string
  {
    if n.Some? then n.value else "None"
  }

  /** `f"CC_case_{charity_part}_{date_part}"` */
  function CaseId(number: Option<string>, published: string): string
  {
    "CC_case_" + NumberText(number) + "_" + Dates.DatePart(published)
  }

  /** `report.get('published_date') or '1970-01-01'` */
  function PublishedOrPlaceholder(report: Report): (d: string)
    ensures report.publishedDate.Some? && report.publishedDate.value != "" ==> d == report.publishedDate.value
    ensures report.publishedDate.None? || report.publishedDate.value == "" ==> d == "1970-01-01"
  {
    Or(report.publishedDate.UnwrapOr(""), "1970-01-01")
  }

  /** The words of a charity name longer than three characters, lower-cased. */
  function NameWords(name: Option<string>): seq<string>
  {
    if name.None? || name.value == "" then []
    else
      Words(Lower(name.value))
  }

  function LongWords(words: seq<string>): (r: seq<string>)
    ensures forall w :: w in r ==> w in words && |w| > 3
  {
    if |words| == 0 then [] else (if |words[0]| > 3 then [words[0]] else []) + LongWords(words[1..])
  }

  /** The parts of a non-empty outcome split on `', '`, lower-cased. */
  function OutcomeParts(outcome: Option<string>): seq<string>
  {
    if outcome.None? || outcome.value == "" then [] else SplitOn(Lower(outcome.value), ", ")
  }

  /** Everything `_generate_keywords` puts in its set, in insertion order. */
  function KeywordCandidates(report: Report): seq<string>
  {
    report.issues + LongWords(NameWords(report.charityName)) + OutcomeParts(report.outcome)
  }

  /**
   * `list(keywords)[:20]`: at most 20 different words, each an issue, a name word of more
   * than three letters or an outcome part, and all of them when there are no more than 20.
   * Python leaves the order of a set unspecified; the model takes first insertion order.
   */
  function GenerateKeywords(report: Report): (r: seq<string>)
    ensures |r| <= 20
    ensures forall a, b :: 0 <= a < b < |r| ==> r[a] != r[b]
    ensures forall w :: w in r ==> w in KeywordCandidates(report)
    ensures |Dedup(KeywordCandidates(report))| <= 20 ==> forall w :: w in KeywordCandidates(report) ==> w in r
  {
    var d := Dedup(KeywordCandidates(report));
    var r := Take(d, 20);
    assert forall w :: w in r ==> w in d;
    r
  }

  /**
   * `normalize` for one report: a case record dated by the report (or the 1970-01-01
   * placeholder), filed under the first issue, with an id built from the charity number and
   * the date digits.
   */
  function NormalizeReport(report: Report): (rec: NormalizedRecord)
    ensures rec.publishedDate == PublishedOrPlaceholder(report) && rec.lastUpdated == rec.publishedDate
    ensures rec.id == CaseId(report.charityNumber, rec.publishedDate)
    ensures rec.domain == (if |report.issues| > 0 then report.issues[0] else "governance")
    ensures rec.regulator == "CC" && rec.documentType == "case" && rec.caseStatus == Some("concluded")
    ensures rec.title == report.title && rec.sourceUrl == report.url && rec.summary == Take(report.summary, 500)
    ensures rec.charityNumber == report.charityNumber && rec.charityName == report.charityName
    ensures rec.outcome == report.outcome && rec.issuesIdentified == Some(report.issues)
    ensures rec.keywords == Some(GenerateKeywords(report))
  {
    var published := PublishedOrPlaceholder(report);
    Record(CaseId(report.charityNumber, published),
           report.title, Take(report.summary, 500), report.url, published, published,
           "CC", if |report.issues| > 0 then report.issues[0] else "governance", "case")
      .(charityNumber := report.charityNumber, charityName := report.charityName,
        caseStatus := Some("concluded"), outcome := report.outcome,
        issuesIdentified := Some(report.issues), keywords := Some(GenerateKeywords(report)))
  }

  /** `normalize`: one record per stored report, in order. */
  method Normalize(reports: seq<Report>) returns (records: seq<NormalizedRecord>)
    ensures |records| == |reports|
    ensures forall i :: 0 <= i < |reports| ==> records[i] == NormalizeReport(reports[i])
  {
    records := NormalizeEach(reports, NormalizeReport);
  }

  /** The position of the first `_` in a text holding one. */
  function FirstUnderscore(s: string): (i: nat)
    requires '_' in s
    ensures i < |s| && s[i] == '_' && '_' !in s[..i]
  {
    if s[0] == '_' then 0 else 1 + FirstUnderscore(s[1..])
  }

  lemma {:induction false} FirstUnderscoreAfter(a: string, b: string)
    requires '_' !in a
    ensures '_' in a + "_" + b && FirstUnderscore(a + "_" + b) == |a|
    decreases |a|
  {
    var s := a + "_" + b;
    assert s[|a|] == '_';
    if |a| > 0 {
      assert s[1..] == a[1..] + "_" + b;
      FirstUnderscoreAfter(a[1..], b);
    }
  }

  lemma NumberHasNoUnderscore(number: Option<string>)
    requires number.Some? ==> forall c :: c in number.value ==> IsDigit(c)
    ensures '_' !in NumberText(number)
  {
  }

  lemma DropCommonPrefix(p: string, a: string, b: string)
    requires p + a == p + b
    ensures a == b
  {
    assert a == (p + a)[|p|..];
    assert b == (p + b)[|p|..];
  }

  /** Splitting `a + "_" + b` at its first underscore when `a` has none. */
  lemma SplitAtUnderscore(a1: string, b1: string, a2: string, b2: string)
    requires '_' !in a1 && '_' !in a2
    requires a1 + "_" + b1 == a2 + "_" + b2
    ensures a1 == a2 && b1 == b2
  {
    var s := a1 + "_" + b1;
    FirstUnderscoreAfter(a1, b1);
    FirstUnderscoreAfter(a2, b2);
    assert a1 == s[..|a1|] == a2;
    assert b1 == s[|a1| + 1..] == b2;
  }

  /** The same, behind a common prefix. */
  lemma SplitPrefixedAtUnderscore(p: string, a1: string, b1: string, a2: string, b2: string)
    requires '_' !in a1 && '_' !in a2
    requires p + a1 + "_" + b1 == p + a2 + "_" + b2
    ensures a1 == a2 && b1 == b2
  {
    assert p + a1 + "_" + b1 == p + (a1 + "_" + b1);
    assert p + a2 + "_" + b2 == p + (a2 + "_" + b2);
    DropCommonPrefix(p, a1 + "_" + b1, a2 + "_" + b2);
    SplitAtUnderscore(a1, b1, a2, b2);
  }

  /**
   * Two case records share an id only when their reports have the same charity number (or
   * both none) and the same date digits: a number is digits only, so the underscore after it
   * is found in the same place.
   */
  lemma CaseIdsDiffer(number1: Option<string>, published1: string, number2: Option<string>, published2: string)
    requires number1.Some? ==> forall c :: c in number1.value ==> IsDigit(c)
    requires number2.Some? ==> forall c :: c in number2.value ==> IsDigit(c)
    requires CaseId(number1, published1) == CaseId(number2, published2)
    ensures NumberText(number1) == NumberText(number2)
    ensures Dates.DatePart(published1) == Dates.DatePart(published2)
  {
    NumberHasNoUnderscore(number1);
    NumberHasNoUnderscore(number2);
    SplitPrefixedAtUnderscore("CC_case_", NumberText(number1), Dates.DatePart(published1),
                              NumberText(number2), Dates.DatePart(published2));
  }

  /** The first issue is one of the issue tags, or governance exactly when it is the only one. */
  lemma IssuesLead(title: string, summary: string, text: string)
    ensures var issues := Issues(title, summary, text);
      issues[0] == "governance" || exists k :: 0 <= k < |ISSUE_RULES| && issues[0] == IssueTag(k)
    ensures var issues := Issues(title, summary, text);
      issues[0] == "governance" <==> issues == ["governance"]
  {
    var issues := Issues(title, summary, text);
    var d := issues[0];
    assert d in issues;
    if d != "governance" {
      assert d == IssueTag(TagIndex(ISSUE_RULES, d));
    }
  }

  /** A scraped report is filed under one of the issue tags, and under governance only when nothing else applied. */
  lemma ScrapedDomain(url: string, page: ReportPage)
    ensures var rec := NormalizeReport(ReportOf(url, page));
      rec.domain == "governance" || exists k :: 0 <= k < |ISSUE_RULES| && rec.domain == IssueTag(k)
    ensures var r := ReportOf(url, page);
      NormalizeReport(r).domain == "governance" <==> r.issues == ["governance"]
  {
    var r := ReportOf(url, page);
    IssuesLead(r.title, page.lead.UnwrapOr(""), page.body.UnwrapOr(""));
    FiledUnderFirstIssue(r);
  }

  lemma FiledUnderFirstIssue(r: Report)
    requires |r.issues| > 0
    ensures NormalizeReport(r).domain == r.issues[0]
  {
  }
}
