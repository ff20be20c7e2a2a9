/**
 * The Charity Commission guidance adapter: collecting guidance links from the index page,
 * reading one guidance page (title, summary, last-updated date, body text) and turning each
 * page into a guidance record filed under an inferred domain.
 *
 * A page is given as what the scraper's selectors find on it (`GuidancePage`); the index
 * page as the `href` of each of its anchors.
 */
module CharityGuidance {
  import opened Wrappers
  import opened Text
  import opened Collections
  import opened Phrases
  import Scan
  import Dates
  import Slug
  import Keywords
  import opened AdapterBase

  const BASE_URL := "https://www.gov.uk"

  /** Guidance pages whose publication date is known, by URL. */
  const KNOWN_DATES: map<string, string> := map[
    "https://www.gov.uk/guidance/making-decisions-at-a-charity" := "2018-05-01",
    "https://www.gov.uk/guidance/managing-charity-finances" := "2018-04-10",
    "https://www.gov.uk/guidance/managing-conflicts-of-interest-in-a-charity" := "2019-05-06",
    "https://www.gov.uk/guidance/what-to-send-to-the-charity-commission-and-how-to-get-help" := "2018-06-15",
    "https://www.gov.uk/guidance/charity-commission-guidance" := "2015-03-17",
    "https://www.gov.uk/guidance/charity-reporting-and-accounting-the-essentials" := "2016-11-03"
  ]

  lemma KnownDatesAreIso()
    ensures forall url :: url in KNOWN_DATES ==> Dates.IsIsoShaped(KNOWN_DATES[url])
  {
  }

  // ---------------------------------------------------------------- index page

  /**
   * One anchor of the index page: empty, in-page, `mailto:` and `tel:` links are skipped; a
   * guidance or publication link mentioning `charity` is kept, made absolute.
   */
  function GuidanceLink(href: string): (r: Option<string>)
    ensures r.Some? <==>
      href != "" && !StartsWith(href, "#") && !StartsWith(href, "mailto:") && !StartsWith(href, "tel:") &&
      (Contains(href, "/guidance/") || Contains(href, "/government/publications/")) && Contains(href, "charity")
    ensures r.Some? ==> r.value == (if StartsWith(href, "http") then href else BASE_URL + href)
  {
    if href == "" || StartsWith(href, "#") || StartsWith(href, "mailto:") || StartsWith(href, "tel:") then None
    else if (Contains(href, "/guidance/") || Contains(href, "/government/publications/")) && Contains(href, "charity") then
      Some(if StartsWith(href, "http") then href else BASE_URL + href)
    else None
  }

  /** Strictly increasing in code-point order: sorted and without repeats. */
  predicate StrictlySorted(xs: seq<string>)
  {
    forall i, j :: 0 <= i < j < |xs| ==> StrLess(xs[i], xs[j])
  }

  /** Adds `u` to a set kept as its sorted list. */
  function Insert(xs: seq<string>, u: string): (r: seq<string>)
    requires StrictlySorted(xs)
    ensures StrictlySorted(r)
    ensures forall v :: v in r <==> v in xs || v == u
    decreases |xs|
  {
    if |xs| == 0 then [u]
    else if u == xs[0] then xs
    else if StrLess(u, xs[0]) then
      assert forall j :: 0 <= j < |xs| ==> StrLess(u, xs[j]) by {
        forall j | 0 < j < |xs|
          ensures StrLess(u, xs[j])
        {
          StrLessTransitive(u, xs[0], xs[j]);
        }
      }
      [u] + xs
    else
      StrLessTotal(u, xs[0]);
      var rest := Insert(xs[1..], u);
      assert forall v :: v in rest ==> StrLess(xs[0], v);
      [xs[0]] + rest
  }

  /**
   * The link loop of `download_raw` followed by `sorted(links)`: the set of links is kept as
   * its sorted list, so the pages are visited once each and in code-point order.
   */
  method CollectGuidanceLinks(hrefs: seq<string>) returns (links: seq<string>)
    ensures StrictlySorted(links)
    ensures forall u :: u in links <==> exists i :: 0 <= i < |hrefs| && GuidanceLink(hrefs[i]) == Some(u)
  {
    links := [];
    var i := 0;
    while i < |hrefs|
      invariant 0 <= i <= |hrefs|
      invariant StrictlySorted(links)
      invariant forall u :: u in links <==> u in Yielded(hrefs[..i], GuidanceLink)
    {
      YieldedStep(hrefs, i, GuidanceLink);
      var link := GuidanceLink(hrefs[i]);
      if link.Some? {
        links := Insert(links, link.value);
      }
      i := i + 1;
    }
    assert hrefs[..i] == hrefs;
    YieldedValues(hrefs, GuidanceLink);
  }

  // ---------------------------------------------------------------- one guidance page

  /** The first `<time>` element: its `datetime` attribute, when present, and its text. */
  datatype TimeElement = TimeElement(datetime: Option<string>, text: string)

  /**
   * What the selectors of `_fetch_guidance_page` and `_extract_last_updated` find: the `h1`
   * text, the lead paragraph's text, the first paragraph's text, the `<time>` element, the
   * text of the published-dates block, the `content` of each of the four date meta tags (in
   * selector order), the texts of every `p`, `li`, `dd`, `dt`, `span` and `div` in document
   * order, the whole page text and the main content's text.
   */
  datatype GuidancePage = GuidancePage(
    heading: Option<string>,
    lead: Option<string>,
    firstParagraph: Option<string>,
    timeElement: Option<TimeElement>,
    publishedBlock: Option<string>,
    metaContents: seq<Option<string>>,
    blocks: seq<string>,
    pageText: string,
    content: Option<string>)

  /** Method 1: a `datetime` attribute starting with a date gives that date, else the element's text is parsed. */
  function FromTime(e: Option<TimeElement>): Option<string>
  {
    if e.None? then None
    else if e.value.datetime.Some? && e.value.datetime.value != "" && Dates.StartsIsoShaped(e.value.datetime.value) then
      Some(e.value.datetime.value[..10])
    else Dates.ParseHuman(e.value.text)
  }

  /** The date after `tag` in lower-cased `text`, when one is found and parses. */
  function LabelledDate(tag: string, text: string, oneOrMore: bool): Option<string>
  {
    match Scan.Search(Scan.Labelled(tag, oneOrMore), text)
    case None => None
    case Some(m) => Dates.ParseHuman(m)
  }

  /** Method 2: the published-dates block, read for `published` or else for `updated`. */
  function FromPublishedBlock(block: Option<string>): Option<string>
  {
    if block.None? then None
    else
      var text := Lower(block.value);
      if Contains(text, "published") then LabelledDate("published", text, true)
      else if Contains(text, "updated") || Contains(text, "last updated") then LabelledDate("updated", text, true)
      else None
  }

  /**
   * Method 3 for one meta tag: its non-empty content up to the first `T`, kept as is when it
   * starts with a date and parsed otherwise.
   */
  function FromMetaContent(content: Option<string>): Option<string>
  {
    if content.None? || content.value == "" then None
    else
      var c := if 'T' in content.value then SplitOn(content.value, "T")[0] else content.value;
      if Dates.StartsIsoShaped(c) then Some(c) else Dates.ParseHuman(c)
  }

  /** Method 3: the meta tags in selector order; the first that gives a date decides. */
  function FromMetas(contents: seq<Option<string>>): Option<string>
  {
    if |contents| == 0 then None
    else
      match FromMetaContent(contents[0])
      case Some(d) => Some(d)
      case None => FromMetas(contents[1..])
  }

  /** Method 4 for one lower-cased block: the date after `updated` or, failing that word, after `published`. */
  function BlockDate(text: string): Option<string>
  {
    if Contains(text, "last updated") || Contains(text, "updated") then LabelledDate("updated", text, false)
    else if Contains(text, "published") || Contains(text, "first published") then LabelledDate("published", text, false)
    else None
  }

  /** Method 4: the blocks in document order; the first that gives a date decides. */
  function FromBlocks(blocks: seq<string>): Option<string>
  {
    if |blocks| == 0 then None
    else
      match BlockDate(Lower(blocks[0]))
      case Some(d) => Some(d)
      case None => FromBlocks(blocks[1..])
  }

  /** Method 5: the first `<day> <month> 20<yy>` in the page text, when it parses. */
  function FromPageText(text: string): Option<string>
  {
    match Scan.Search(Scan.DAY_MONTH_20YY_ANYWHERE, text)
    case None => None
    case Some(m) => Dates.ParseHuman(m)
  }

  /** The five methods in the order `_extract_last_updated` tries them. */
  function Strategies(page: GuidancePage): (s: seq<Option<string>>)
    ensures |s| == 5
  {
    [FromTime(page.timeElement), FromPublishedBlock(page.publishedBlock), FromMetas(page.metaContents),
     FromBlocks(page.blocks), FromPageText(page.pageText)]
  }

  lemma {:induction false} MetasDated(contents: seq<Option<string>>)
    ensures Dated(FromMetas(contents))
  {
    if |contents| > 0 {
      var r := FromMetaContent(contents[0]);
      if r.Some? {
        var content := contents[0].value;
        var c := if 'T' in content then SplitOn(content, "T")[0] else content;
        if !Dates.StartsIsoShaped(c) {
          Dates.IsoShapedStarts(r.value);
        }
      } else {
        MetasDated(contents[1..]);
      }
    }
  }

  lemma {:induction false} BlocksDated(blocks: seq<string>)
    ensures FromBlocks(blocks).Some? ==> Dates.IsIsoShaped(FromBlocks(blocks).value)
  {
    if |blocks| > 0 && BlockDate(Lower(blocks[0])).None? {
      BlocksDated(blocks[1..]);
    }
  }

  /** An option that, when present, starts with `YYYY-MM-DD`. */
  predicate Dated(o: Option<string>)
  {
    o.Some? ==> Dates.StartsIsoShaped(o.value)
  }

  lemma ParsedDated(o: Option<string>)
    requires o.Some? ==> Dates.IsIsoShaped(o.value)
    ensures Dated(o)
  {
    if o.Some? {
      Dates.IsoShapedStarts(o.value);
    }
  }

  lemma TimeDated(e: Option<TimeElement>)
    ensures Dated(FromTime(e))
  {
    if e.Some? && !(e.value.datetime.Some? && e.value.datetime.value != "" && Dates.StartsIsoShaped(e.value.datetime.value)) {
      ParsedDated(Dates.ParseHuman(e.value.text));
    }
  }

  lemma LabelledDated(tag: string, text: string, oneOrMore: bool)
    ensures LabelledDate(tag, text, oneOrMore).Some? ==> Dates.IsIsoShaped(LabelledDate(tag, text, oneOrMore).value)
  {
  }

  lemma PublishedBlockDated(block: Option<string>)
    ensures Dated(FromPublishedBlock(block))
  {
    if block.Some? {
      var text := Lower(block.value);
      if Contains(text, "published") {
        LabelledDated("published", text, true);
        ParsedDated(LabelledDate("published", text, true));
      } else {
        LabelledDated("updated", text, true);
        ParsedDated(LabelledDate("updated", text, true));
      }
    }
  }

  lemma PageTextDated(text: string)
    ensures Dated(FromPageText(text))
  {
    ParsedDated(FromPageText(text));
  }

  /** Whichever method finds it, the first date found starts with `YYYY-MM-DD`. */
  lemma FirstStrategyDated(page: GuidancePage)
    ensures Dated(FirstOf(Strategies(page)))
  {
    var s := Strategies(page);
    TimeDated(page.timeElement);
    PublishedBlockDated(page.publishedBlock);
    MetasDated(page.metaContents);
    BlocksDated(page.blocks);
    ParsedDated(FromBlocks(page.blocks));
    PageTextDated(page.pageText);
    assert forall k :: 0 <= k < 5 ==> Dated(s[k]);
  }

  /**
   * `_extract_last_updated`: the date of the first method that finds one, later methods
   * counting only when every earlier one found nothing; nothing when all five fail. Every
   * date found starts with `YYYY-MM-DD`.
   */
  function LastUpdated(page: GuidancePage): (r: Option<string>)
    ensures r.None? <==> forall k :: 0 <= k < 5 ==> Strategies(page)[k].None?
    ensures r.Some? ==>
      exists k :: 0 <= k < 5 && Strategies(page)[k] == r && forall j :: 0 <= j < k ==> Strategies(page)[j].None?
    ensures r.Some? ==> Dates.StartsIsoShaped(r.value)
  {
    FirstStrategyDated(page);
    FirstOf(Strategies(page))
  }

  /** `summary_el.get_text(...) if summary_el else ""`, the lead paragraph tried first. */
  function SummaryText(page: GuidancePage): string
  {
    if page.lead.Some? then page.lead.value
    else if page.firstParagraph.Some? then page.firstParagraph.value
    else ""
  }

  /**
   * `_fetch_guidance_page`: the raw item of one page. The date is the known date of the URL
   * when there is one, else the scraped date; a page without either has no date (`null`).
   */
  function PageItem(url: string, page: GuidancePage): (item: Row)
    ensures item.Keys == {"url", "title", "summary", "full_text"} + (if "last_updated" in item then {"last_updated"} else {})
    ensures item["url"] == url
    ensures item["title"] == page.heading.UnwrapOr("Untitled guidance")
    ensures item["summary"] == Take(SummaryText(page), 600) && |item["summary"]| <= 600
    ensures item["full_text"] == Take(page.content.UnwrapOr(""), 8000) && |item["full_text"]| <= 8000
    ensures "last_updated" in item <==> url in KNOWN_DATES || LastUpdated(page).Some?
    ensures url in KNOWN_DATES ==> item["last_updated"] == KNOWN_DATES[url]
    ensures url !in KNOWN_DATES && LastUpdated(page).Some? ==> item["last_updated"] == LastUpdated(page).value
  {
    var item := map[
      "url" := url,
      "title" := page.heading.UnwrapOr("Untitled guidance"),
      "summary" := Take(SummaryText(page), 600),
      "full_text" := Take(page.content.UnwrapOr(""), 8000)];
    if url in KNOWN_DATES then item["last_updated" := KNOWN_DATES[url]]
    else if LastUpdated(page).Some? then item["last_updated" := LastUpdated(page).value]
    else item
  }

  /** Whatever its source, a page's date starts with `YYYY-MM-DD`. */
  lemma PageItemDated(url: string, page: GuidancePage)
    ensures "last_updated" in PageItem(url, page) ==> Dates.StartsIsoShaped(PageItem(url, page)["last_updated"])
  {
    if url in KNOWN_DATES {
      KnownDatesAreIso();
      Dates.IsoShapedStarts(KNOWN_DATES[url]);
    }
  }

  /** A page that could not be fetched yields nothing; one that could, its item. */
  function Fetched(fetch: string -> Option<GuidancePage>, url: string): Option<Row>
  {
    match fetch(url)
    case None => None
    case Some(page) => Some(PageItem(url, page))
  }

  function Fetcher(fetch: string -> Option<GuidancePage>): string -> Option<Row>
  {
    url => Fetched(fetch, url)
  }

  /**
   * `download_raw`: the guidance links of the index page, then one item per page fetched,
   * in link order, skipping the pages that fail.
   */
  method DownloadRaw(hrefs: seq<string>, fetch: string -> Option<GuidancePage>)
    returns (links: seq<string>, items: seq<Row>)
    ensures StrictlySorted(links)
    ensures forall u :: u in links <==> exists i :: 0 <= i < |hrefs| && GuidanceLink(hrefs[i]) == Some(u)
    ensures items == Kept(links, Fetcher(fetch))
    ensures |items| <= |links|
  {
    links := CollectGuidanceLinks(hrefs);
    items := KeepEach(links, Fetcher(fetch));
  }

  // ---------------------------------------------------------------- records

  /** `_infer_domain`'s keyword table, in insertion (and so iteration) order. */
  const DOMAIN_TABLE: seq<(string, string)> := [
    ("safeguard", "safeguarding"),
    ("protection", "safeguarding"),
    ("dbs", "safeguarding"),
    ("trustee", "governance"),
    ("board", "governance"),
    ("governance", "governance"),
    ("data protection", "gdpr"),
    ("gdpr", "gdpr"),
    ("privacy", "gdpr"),
    ("health and safety", "health_safety"),
    ("risk assessment", "health_safety"),
    ("risk", "risk_management"),
    ("internal control", "risk_management"),
    ("fraud", "anti_fraud"),
    ("money laundering", "anti_fraud"),
    ("sanction", "sanctions"),
    ("accounts", "financial_reporting"),
    ("financial reporting", "financial_reporting"),
    ("sorp", "financial_reporting")
  ]

  /** The domains a guidance record can be filed under. */
  const DOMAINS: set<string> :=
    {"safeguarding", "governance", "gdpr", "health_safety", "risk_management", "anti_fraud", "sanctions",
     "financial_reporting"}

  /** The text the domain is inferred from: title, summary and the first 2000 characters of the body. */
  function DomainText(title: string, summary: string, fullText: string): string
  {
    Lower(title + " " + summary + " " + Take(fullText, 2000))
  }

  /**
   * `_infer_domain`: the domain of the first table keyword found in the text, else
   * `governance`; always one of the eight domains.
   */
  function InferDomain(title: string, summary: string, fullText: string): (domain: string)
    ensures domain in DOMAINS
    ensures forall k :: FirstKeyAt(DomainText(title, summary, fullText), DOMAIN_TABLE, k) ==> domain == DOMAIN_TABLE[k].1
    ensures (forall k :: 0 <= k < |DOMAIN_TABLE| ==> !Contains(DomainText(title, summary, fullText), DOMAIN_TABLE[k].0))
      ==> domain == "governance"
  {
    var found := FirstFound(DomainText(title, summary, fullText), DOMAIN_TABLE);
    if found.Some? then
      DomainTableTargets();
      found.value
    else "governance"
  }

  /** Every entry of the table names one of the eight domains. */
  lemma DomainTableTargets()
    ensures forall k :: 0 <= k < |DOMAIN_TABLE| ==> DOMAIN_TABLE[k].1 in DOMAINS
  {
  }

  /** Any text mentioning `protection` is filed under safeguarding: the entry just before wins or this one does. */
  lemma ProtectionMeansSafeguarding(title: string, summary: string, fullText: string)
    requires Contains(DomainText(title, summary, fullText), "protection")
    ensures InferDomain(title, summary, fullText) == "safeguarding"
  {
    var text := DomainText(title, summary, fullText);
    var found := FirstFound(text, DOMAIN_TABLE);
    assert DOMAIN_TABLE[1].0 == "protection";
    var k :| 0 <= k < |DOMAIN_TABLE| && Contains(text, DOMAIN_TABLE[k].0) && found.value == DOMAIN_TABLE[k].1 &&
      forall j :: 0 <= j < k ==> !Contains(text, DOMAIN_TABLE[j].0);
    assert k <= 1;
  }

  /** So the `data protection` entry never decides: such text is filed under safeguarding, not gdpr. */
  lemma DataProtectionIsSafeguarding(title: string, summary: string, fullText: string)
    requires Contains(DomainText(title, summary, fullText), "data protection")
    ensures InferDomain(title, summary, fullText) == "safeguarding"
  {
    var text := DomainText(title, summary, fullText);
    var i :| 0 <= i <= |text| - |"data protection"| && OccursAt(text, "data protection", i);
    assert OccursAt(text, "protection", i + 5) by {
      assert text[i + 5..i + 15] == "data protection"[5..];
    }
    ProtectionMeansSafeguarding(title, summary, fullText);
  }

  /** The text the keywords are drawn from: title, summary and the first 500 characters of the body. */
  function KeywordText(title: string, summary: string, fullText: string): string
  {
    title + " " + summary + " " + Take(fullText, 500)
  }

  /**
   * `normalize` for one item: a guidance record dated by the item (or the 1970-01-01
   * placeholder), with a slug id, an inferred domain and at most 25 keywords. `stamp` is the
   * clock reading used when the title has no slug.
   */
  function NormalizeItem(item: Row, stamp: string): (rec: NormalizedRecord)
    ensures rec.title == Get(item, "title", "Untitled guidance") && rec.summary == Get(item, "summary", "")
    ensures rec.sourceUrl == Get(item, "url", "") && rec.fullText == Some(Get(item, "full_text", ""))
    ensures rec.lastUpdated == Or(Get(item, "last_updated", ""), "1970-01-01") && rec.publishedDate == rec.lastUpdated
    ensures rec.id == Slug.SlugId("CC_guidance_", rec.title, stamp)
    ensures rec.regulator == "CC" && rec.documentType == "guidance"
    ensures rec.domain == InferDomain(rec.title, rec.summary, Get(item, "full_text", "")) && rec.domain in DOMAINS
    ensures rec.keywords == Some(Keywords.KeywordsOf(KeywordText(rec.title, rec.summary, Get(item, "full_text", "")), 25))
    ensures |rec.keywords.value| <= 25 && Distinct(rec.keywords.value)
  {
    var title := Get(item, "title", "Untitled guidance");
    var summary := Get(item, "summary", "");
    var fullText := Get(item, "full_text", "");
    var lastUpdated := Or(Get(item, "last_updated", ""), "1970-01-01");
    Record(Slug.SlugId("CC_guidance_", title, stamp), title, summary, Get(item, "url", ""), lastUpdated, lastUpdated,
           "CC", InferDomain(title, summary, fullText), "guidance")
      .(keywords := Some(Keywords.KeywordsOf(KeywordText(title, summary, fullText), 25)), fullText := Some(fullText))
  }

  /** The placeholder date starts with `YYYY-MM-DD`. */
  lemma PlaceholderDated()
    ensures Dates.StartsIsoShaped("1970-01-01")
  {
    assert Dates.IsIsoShaped("1970-01-01");
    Dates.IsoShapedStarts("1970-01-01");
  }

  /** A record made from a scraped page is dated `YYYY-MM-DD`: the page's date or the placeholder. */
  lemma ScrapedRecordDated(url: string, page: GuidancePage, stamp: string)
    ensures Dates.StartsIsoShaped(NormalizeItem(PageItem(url, page), stamp).lastUpdated)
  {
    PageItemDated(url, page);
    PlaceholderDated();
  }

  /** A known URL keeps its known date through to the record, whatever the page says. */
  lemma KnownDateReachesRecord(url: string, page: GuidancePage, stamp: string)
    requires url in KNOWN_DATES
    ensures NormalizeItem(PageItem(url, page), stamp).lastUpdated == KNOWN_DATES[url]
    ensures NormalizeItem(PageItem(url, page), stamp).publishedDate == KNOWN_DATES[url]
  {
    KnownDatesAreIso();
  }

  /** `normalize`: one record per raw item, in order. */
  method Normalize(items: seq<Row>, stamp: string) returns (records: seq<NormalizedRecord>)
    ensures |records| == |items|
    ensures forall i :: 0 <= i < |items| ==> records[i] == NormalizeItem(items[i], stamp)
  {
    records := NormalizeEach(items, item => NormalizeItem(item, stamp));
  }
}
