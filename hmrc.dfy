/**
 * The HMRC adapter: the charities detailed-guidance page, read for its title, summary,
 * date and main text, and turned into a financial-reporting guidance record. A record
 * without a date is dated with the day the pipeline runs.
 */
module Hmrc {
  import opened Wrappers
  import opened Text
  import opened Collections
  import Dates
  import Slug
  import Keywords
  import opened AdapterBase
  import opened DescribedPages

  const HMRC_PAGES: seq<string> := [
    "https://www.gov.uk/government/publications/charities-detailed-guidance-notes"
  ]

  /** The summary of a page with neither a meta description nor a paragraph. */
  const DEFAULT_SUMMARY := "HMRC detailed guidance notes for charities."

  /**
   * `_extract_last_updated`: only the first `<day> <word> <year>` of the page text is tried,
   * and only as `%d %B %Y` (a full month name); anything else gives no date.
   */
  function LastUpdatedIn(text: string): (r: Option<string>)
    ensures FirstDateText(text).None? ==> r.None?
    ensures FirstDateText(text).Some? ==>
      (r.Some? <==> Dates.Strptime(FirstDateText(text).value, Dates.DAY_MONTHNAME_YEAR).Some?)
    ensures r.Some? ==> r.value == Dates.Iso(Dates.Strptime(FirstDateText(text).value, Dates.DAY_MONTHNAME_YEAR).value)
    ensures r.Some? ==> Dates.IsIsoShaped(r.value)
  {
    match FirstDateText(text)
    case None => None
    case Some(m) =>
      match Dates.Strptime(m, Dates.DAY_MONTHNAME_YEAR)
      case None => None
      case Some(d) => Dates.IsoIsShaped(d); Some(Dates.Iso(d))
  }

  /**
   * `_fetch_page`: the page's raw item, titled `HMRC charities guidance` when it has no
   * heading and summarised by the fixed sentence when it has neither description nor paragraph.
   */
  function PageItem(url: string, page: DescribedPage): (item: Row)
    ensures "url" in item && "title" in item && "summary" in item && "full_text" in item
    ensures item["url"] == url && item["title"] == page.heading.UnwrapOr("HMRC charities guidance")
    ensures item["summary"] == Take(SummaryText(page, DEFAULT_SUMMARY), 600) && |item["summary"]| <= 600
    ensures (page.description.None? || page.description.value == "") && page.firstParagraph.None? ==>
      item["summary"] == DEFAULT_SUMMARY
    ensures item["full_text"] == Take(page.main.UnwrapOr(""), 8000) && |item["full_text"]| <= 8000
    ensures "last_updated" in item <==> LastUpdatedIn(page.pageText).Some?
    ensures "last_updated" in item ==> item["last_updated"] == LastUpdatedIn(page.pageText).value
  {
    DescribedPages.PageItem(url, page, "HMRC charities guidance", DEFAULT_SUMMARY, LastUpdatedIn(page.pageText))
  }

  function Fetched(fetch: string -> Option<DescribedPage>, url: string): Option<Row>
  {
    match fetch(url)
    case None => None
    case Some(page) => Some(PageItem(url, page))
  }

  function Fetcher(fetch: string -> Option<DescribedPage>): string -> Option<Row>
  {
    url => Fetched(fetch, url)
  }

  /** `download_raw`: the pages in list order, a page that fails being skipped. */
  method DownloadRaw(fetch: string -> Option<DescribedPage>) returns (items: seq<Row>)
    ensures items == Kept(HMRC_PAGES, Fetcher(fetch))
    ensures |items| <= |HMRC_PAGES|
    ensures (forall k :: 0 <= k < |HMRC_PAGES| ==> fetch(HMRC_PAGES[k]).Some?) ==> |items| == |HMRC_PAGES|
  {
    items := KeepEach(HMRC_PAGES, Fetcher(fetch));
  }

  /** The text the keywords are drawn from: title, summary and the first 500 characters of the body. */
  function KeywordText(title: string, summary: string, fullText: string): string
  {
    title + " " + summary + " " + Take(fullText, 500)
  }

  /**
   * `normalize` for one item: a financial-reporting guidance record dated by the item or,
   * failing that, `today`, with a slug id and at most 25 keywords. `stamp` is the clock
   * reading used when the title has no slug.
   */
  function NormalizeItem(item: Row, today: string, stamp: string): (rec: NormalizedRecord)
    ensures rec.title == Get(item, "title", "HMRC charities guidance") && rec.summary == Get(item, "summary", "")
    ensures rec.sourceUrl == Get(item, "url", "") && rec.fullText == Some(Get(item, "full_text", ""))
    ensures rec.lastUpdated == Or(Get(item, "last_updated", ""), today) && rec.publishedDate == rec.lastUpdated
    ensures rec.id == Slug.SlugId("HMRC_guidance_", rec.title, stamp)
    ensures rec.regulator == "HMRC" && rec.domain == "financial_reporting" && rec.documentType == "guidance"
    ensures rec.keywords == Some(Keywords.KeywordsOf(KeywordText(rec.title, rec.summary, Get(item, "full_text", "")), 25))
    ensures |rec.keywords.value| <= 25 && Distinct(rec.keywords.value)
  {
    var title := Get(item, "title", "HMRC charities guidance");
    var summary := Get(item, "summary", "");
    var fullText := Get(item, "full_text", "");
    var lastUpdated := Or(Get(item, "last_updated", ""), today);
    Record(Slug.SlugId("HMRC_guidance_", title, stamp), title, summary, Get(item, "url", ""), lastUpdated, lastUpdated,
           "HMRC", "financial_reporting", "guidance")
      .(keywords := Some(Keywords.KeywordsOf(KeywordText(title, summary, fullText), 25)), fullText := Some(fullText))
  }

  /**
   * A page whose first date-like text is not a `%d %B %Y` date gives a record dated with the
   * run's day, not a placeholder; otherwise the record carries the page's date.
   */
  lemma UndatedPageIsDatedToday(url: string, page: DescribedPage, today: string, stamp: string)
    ensures LastUpdatedIn(page.pageText).None? ==> NormalizeItem(PageItem(url, page), today, stamp).lastUpdated == today
    ensures LastUpdatedIn(page.pageText).Some? ==>
      NormalizeItem(PageItem(url, page), today, stamp).lastUpdated == LastUpdatedIn(page.pageText).value &&
      Dates.IsIsoShaped(NormalizeItem(PageItem(url, page), today, stamp).lastUpdated)
  {
  }

  /** `normalize`: one record per raw item, in order. */
  method Normalize(items: seq<Row>, today: string, stamp: string) returns (records: seq<NormalizedRecord>)
    ensures |records| == |items|
    ensures forall i :: 0 <= i < |items| ==> records[i] == NormalizeItem(items[i], today, stamp)
  {
    records := NormalizeEach(items, item => NormalizeItem(item, today, stamp));
  }
}
