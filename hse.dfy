/**
 * The Health and Safety Executive adapter: a fixed list of guidance pages, each read for its
 * title, summary, last-reviewed date and main text, and turned into a health-and-safety
 * guidance record.
 */
module Hse {
  import opened Wrappers
  import opened Text
  import opened Collections
  import Dates
  import Slug
  import Keywords
  import opened AdapterBase
  import opened DescribedPages

  const HSE_PAGES: seq<string> := [
    "https://www.hse.gov.uk/voluntary/work-types/charity-retail-and-fundraising-activities.htm",
    "https://www.hse.gov.uk/voluntary/index.htm",
    "https://www.hse.gov.uk/contact/faqs/charities.htm",
    "https://www.hse.gov.uk/voluntary/about.htm",
    "https://www.hse.gov.uk/voluntary/resources.htm",
    "https://www.hse.gov.uk/voluntary/work-types/events.htm",
    "https://www.hse.gov.uk/voluntary/work-types/outdoor.htm",
    "https://www.hse.gov.uk/simple-health-safety/risk/index.htm"
  ]

  /**
   * `_extract_last_updated`: only the first `<day> <word> <year>` of the page text is tried;
   * the page's date is that text read by `_parse_human_date`, or nothing when there is no
   * such text or it does not parse, whatever later text says.
   */
  function LastUpdatedIn(text: string): (r: Option<string>)
    ensures FirstDateText(text).None? ==> r.None?
    ensures FirstDateText(text).Some? ==> r == Dates.ParseHuman(FirstDateText(text).value)
    ensures r.Some? ==> Dates.IsIsoShaped(r.value)
  {
    match FirstDateText(text)
    case None => None
    case Some(m) => Dates.ParseHuman(m)
  }

  /** `_fetch_page`: the page's raw item, titled `HSE guidance` when it has no heading. */
  function PageItem(url: string, page: DescribedPage): (item: Row)
    ensures "url" in item && "title" in item && "summary" in item && "full_text" in item
    ensures item["url"] == url && item["title"] == page.heading.UnwrapOr("HSE guidance")
    ensures item["summary"] == Take(SummaryText(page, ""), 600) && |item["summary"]| <= 600
    ensures item["full_text"] == Take(page.main.UnwrapOr(""), 8000) && |item["full_text"]| <= 8000
    ensures "last_updated" in item <==> LastUpdatedIn(page.pageText).Some?
    ensures "last_updated" in item ==> item["last_updated"] == LastUpdatedIn(page.pageText).value
  {
    DescribedPages.PageItem(url, page, "HSE guidance", "", LastUpdatedIn(page.pageText))
  }

  function Fetched(fetch: string -> Option<DescribedPage>, url: string): Option<Row>
  {
    match fetch(url)
    case None => None
    case Some(page) => Some(PageItem(url, page))
  }

  function Fetcher(fetch: string -> Option<DescribedPage>): string -> Option<Row>
  {
    url => Fetched(fetch, url)
  }

  /**
   * `download_raw`: the pages in list order, a page that fails being skipped, so at most
   * one item per page.
   */
  method DownloadRaw(fetch: string -> Option<DescribedPage>) returns (items: seq<Row>)
    ensures items == Kept(HSE_PAGES, Fetcher(fetch))
    ensures |items| <= |HSE_PAGES|
    ensures (forall k :: 0 <= k < |HSE_PAGES| ==> fetch(HSE_PAGES[k]).Some?) ==> |items| == |HSE_PAGES|
  {
    items := KeepEach(HSE_PAGES, Fetcher(fetch));
  }

  /** The text the keywords are drawn from: title, summary and the first 500 characters of the body. */
  function KeywordText(title: string, summary: string, fullText: string): string
  {
    title + " " + summary + " " + Take(fullText, 500)
  }

  /**
   * `normalize` for one item: a health-and-safety guidance record dated by the item (or the
   * 1970-01-01 placeholder), with a slug id and at most 25 keywords. `stamp` is the clock
   * reading used when the title has no slug.
   */
  function NormalizeItem(item: Row, stamp: string): (rec: NormalizedRecord)
    ensures rec.title == Get(item, "title", "HSE guidance") && rec.summary == Get(item, "summary", "")
    ensures rec.sourceUrl == Get(item, "url", "") && rec.fullText == Some(Get(item, "full_text", ""))
    ensures rec.lastUpdated == Or(Get(item, "last_updated", ""), "1970-01-01") && rec.publishedDate == rec.lastUpdated
    ensures rec.id == Slug.SlugId("HSE_guidance_", rec.title, stamp)
    ensures rec.regulator == "HSE" && rec.domain == "health_safety" && rec.documentType == "guidance"
    ensures rec.keywords == Some(Keywords.KeywordsOf(KeywordText(rec.title, rec.summary, Get(item, "full_text", "")), 25))
    ensures |rec.keywords.value| <= 25 && Distinct(rec.keywords.value)
  {
    var title := Get(item, "title", "HSE guidance");
    var summary := Get(item, "summary", "");
    var fullText := Get(item, "full_text", "");
    var lastUpdated := Or(Get(item, "last_updated", ""), "1970-01-01");
    Record(Slug.SlugId("HSE_guidance_", title, stamp), title, summary, Get(item, "url", ""), lastUpdated, lastUpdated,
           "HSE", "health_safety", "guidance")
      .(keywords := Some(Keywords.KeywordsOf(KeywordText(title, summary, fullText), 25)), fullText := Some(fullText))
  }

  /** A record made from a fetched page is dated `YYYY-MM-DD`: the page's date or the placeholder. */
  lemma PageRecordDated(url: string, page: DescribedPage, stamp: string)
    ensures Dates.IsIsoShaped(NormalizeItem(PageItem(url, page), stamp).lastUpdated)
    ensures LastUpdatedIn(page.pageText).None? ==> NormalizeItem(PageItem(url, page), stamp).lastUpdated == "1970-01-01"
  {
    var item := PageItem(url, page);
    assert Dates.IsIsoShaped("1970-01-01");
  }

  /** `normalize`: one record per raw item, in order. */
  method Normalize(items: seq<Row>, stamp: string) returns (records: seq<NormalizedRecord>)
    ensures |records| == |items|
    ensures forall i :: 0 <= i < |items| ==> records[i] == NormalizeItem(items[i], stamp)
  {
    records := NormalizeEach(items, item => NormalizeItem(item, stamp));
  }
}
