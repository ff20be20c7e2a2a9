/**
 * The page shape shared by the HSE and HMRC adapters, which read a fixed list of pages with
 * the same selectors: the `h1` text, the `meta[name="description"]` content, the first
 * paragraph of the main content, the whole page text and the main content's text.
 */
module DescribedPages {
  import opened Wrappers
  import opened Text
  import Scan
  import opened AdapterBase

  datatype DescribedPage = DescribedPage(
    heading: Option<string>,
    description: Option<string>,
    firstParagraph: Option<string>,
    pageText: string,
    main: Option<string>)

  /**
   * The summary before truncation: the stripped meta description when it is non-empty,
   * else the first paragraph's text, else `fallback`.
   */
  function SummaryText(page: DescribedPage, fallback: string): (s: string)
    ensures page.description.Some? && page.description.value != "" ==> s == Strip(page.description.value)
    ensures (page.description.None? || page.description.value == "") ==>
      s == (if page.firstParagraph.Some? then page.firstParagraph.value else fallback)
  {
    if page.description.Some? && page.description.value != "" then Strip(page.description.value)
    else if page.firstParagraph.Some? then page.firstParagraph.value
    else fallback
  }

  /** The first `<day> <word> <year>` in the page text, as both adapters search for it. */
  function FirstDateText(text: string): Option<string>
  {
    Scan.Search(Scan.DAY_WORD_YEAR, text)
  }

  /**
   * `_fetch_page`'s dictionary: the URL, the title (or `defaultTitle`), the summary cut to
   * 600 characters, the date when one was found (a `null` date is an absent key) and the
   * main text cut to 8000 characters.
   */
  function PageItem(url: string, page: DescribedPage, defaultTitle: string, defaultSummary: string,
                    lastUpdated: Option<string>): (item: Row)
    ensures "url" in item && item["url"] == url
    ensures "title" in item && item["title"] == page.heading.UnwrapOr(defaultTitle)
    ensures "summary" in item && item["summary"] == Take(SummaryText(page, defaultSummary), 600)
    ensures "full_text" in item && item["full_text"] == Take(page.main.UnwrapOr(""), 8000)
    ensures |item["summary"]| <= 600 && |item["full_text"]| <= 8000
    ensures "last_updated" in item <==> lastUpdated.Some?
    ensures lastUpdated.Some? ==> item["last_updated"] == lastUpdated.value
    ensures item.Keys <= {"url", "title", "summary", "last_updated", "full_text"}
  {
    var item := map[
      "url" := url,
      "title" := page.heading.UnwrapOr(defaultTitle),
      "summary" := Take(SummaryText(page, defaultSummary), 600),
      "full_text" := Take(page.main.UnwrapOr(""), 8000)];
    if lastUpdated.Some? then item["last_updated" := lastUpdated.value] else item
  }
}
