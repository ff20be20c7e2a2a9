/**
 * What the five curated-resource adapters (financial reporting, anti-fraud, safeguarding,
 * data protection, risk management) share: a constant list of resources staged verbatim as
 * the raw items, and a `normalize` that turns each item into a guidance record whose id is a
 * fixed prefix and the slug of the title, dated by the item (or `2023-01-01` when the item has
 * no date), with at most 20 keywords drawn from the title and summary.
 */
module Curated {
  import opened Wrappers
  import opened Text
  import opened Collections
  import Slug
  import Keywords
  import opened AdapterBase

  /** One entry of a `RESOURCES` list. */
  datatype Resource = Resource(url: string, title: string, summary: string, regulator: string, lastUpdated: string)

  /** The raw item a resource becomes once written to and read back from the staging file. */
  function AsItem(r: Resource): (item: Row)
    ensures item.Keys == {"url", "title", "summary", "regulator", "last_updated"}
    ensures item["url"] == r.url && item["title"] == r.title && item["summary"] == r.summary
    ensures item["regulator"] == r.regulator && item["last_updated"] == r.lastUpdated
  {
    map["url" := r.url, "title" := r.title, "summary" := r.summary, "regulator" := r.regulator,
        "last_updated" := r.lastUpdated]
  }

  /** `download_raw` followed by reading the file back: the resources, one item each, in order. */
  function Staged(resources: seq<Resource>): (items: seq<Row>)
    ensures |items| == |resources|
    ensures forall i :: 0 <= i < |resources| ==> items[i] == AsItem(resources[i])
  {
    seq(|resources|, i requires 0 <= i < |resources| => AsItem(resources[i]))
  }

  /** Where a record's regulator comes from: the item, with a default, or a fixed value. */
  datatype RegulatorRule = FromItem(default: string) | Fixed(value: string)

  /** What tells the five adapters apart: the id prefix, the domain and the regulator rule. */
  datatype Profile = Profile(prefix: string, domain: string, regulator: RegulatorRule)

  function RegulatorOf(item: Row, rule: RegulatorRule): (r: string)
    ensures rule.Fixed? ==> r == rule.value
    ensures rule.FromItem? && "regulator" in item ==> r == item["regulator"]
    ensures rule.FromItem? && "regulator" !in item ==> r == rule.default
  {
    match rule
    case FromItem(default) => Get(item, "regulator", default)
    case Fixed(value) => value
  }

  /** The text `_build_keywords` reads: the title and the summary only. */
  function KeywordText(title: string, summary: string): string
  {
    title + " " + summary
  }

  /**
   * `normalize` for one item. The id never falls back to a timestamp: a title without slug
   * characters gives the bare prefix.
   */
  function NormalizeItem(item: Row, p: Profile): (rec: NormalizedRecord)
    ensures rec.title == Get(item, "title", "") && rec.summary == Get(item, "summary", "")
    ensures rec.sourceUrl == Get(item, "url", "")
    ensures rec.id == p.prefix + Slug.Slug(rec.title)
    ensures "last_updated" in item ==> rec.lastUpdated == item["last_updated"]
    ensures "last_updated" !in item ==> rec.lastUpdated == "2023-01-01"
    ensures rec.publishedDate == rec.lastUpdated
    ensures rec.regulator == RegulatorOf(item, p.regulator)
    ensures rec.domain == p.domain && rec.documentType == "guidance"
    ensures rec.keywords == Some(Keywords.KeywordsOf(KeywordText(rec.title, rec.summary), 20))
    ensures rec.fullText.None? && rec.charityNumber.None? && rec.fineAmount.None?
  {
    var title := Get(item, "title", "");
    var summary := Get(item, "summary", "");
    var date := Get(item, "last_updated", "2023-01-01");
    var keywords := Keywords.KeywordsOf(KeywordText(title, summary), 20);
    Record(p.prefix + Slug.Slug(title), title, summary, Get(item, "url", ""), date, date,
           RegulatorOf(item, p.regulator), p.domain, "guidance")
      .(keywords := Some(keywords))
  }

  /** A record's keywords: at most twenty, none repeated. */
  lemma NormalizedKeywords(item: Row, p: Profile)
    ensures NormalizeItem(item, p).keywords.Some?
    ensures |NormalizeItem(item, p).keywords.value| <= 20 && Distinct(NormalizeItem(item, p).keywords.value)
  {
    var rec := NormalizeItem(item, p);
    assert rec.keywords.value == Keywords.KeywordsOf(KeywordText(rec.title, rec.summary), 20);
  }

  /** `normalize`: one record per raw item, in order. */
  method Normalize(items: seq<Row>, p: Profile) returns (records: seq<NormalizedRecord>)
    ensures |records| == |items|
    ensures forall i :: 0 <= i < |items| ==> records[i] == NormalizeItem(items[i], p)
  {
    records := NormalizeEach(items, item => NormalizeItem(item, p));
  }

  /**
   * The record of a staged resource carries the resource's own title, summary, url and date
   * (the `2023-01-01` default never applies), and its regulator unless the rule fixes one.
   */
  lemma StagedRecord(r: Resource, p: Profile)
    ensures NormalizeItem(AsItem(r), p).title == r.title && NormalizeItem(AsItem(r), p).summary == r.summary
    ensures NormalizeItem(AsItem(r), p).sourceUrl == r.url
    ensures NormalizeItem(AsItem(r), p).lastUpdated == r.lastUpdated
    ensures NormalizeItem(AsItem(r), p).publishedDate == r.lastUpdated
    ensures NormalizeItem(AsItem(r), p).id == p.prefix + Slug.Slug(r.title)
    ensures NormalizeItem(AsItem(r), p).regulator == (if p.regulator.Fixed? then p.regulator.value else r.regulator)
  {
    var item := AsItem(r);
    assert "title" in item && "summary" in item && "url" in item && "last_updated" in item && "regulator" in item;
  }

  /** Every staged resource's record is as `StagedRecord` says. */
  lemma StagedRecords(resources: seq<Resource>, p: Profile)
    ensures forall i :: 0 <= i < |resources| ==>
      var rec := NormalizeItem(Staged(resources)[i], p);
      rec.title == resources[i].title && rec.summary == resources[i].summary && rec.sourceUrl == resources[i].url &&
      rec.lastUpdated == resources[i].lastUpdated && rec.publishedDate == resources[i].lastUpdated &&
      rec.id == p.prefix + Slug.Slug(resources[i].title) &&
      rec.regulator == (if p.regulator.Fixed? then p.regulator.value else resources[i].regulator) &&
      rec.domain == p.domain && rec.documentType == "guidance"
  {
    forall i | 0 <= i < |resources| {
      StagedRecord(resources[i], p);
    }
  }

  /** Resources whose titles have pairwise different slugs get pairwise different ids. */
  lemma StagedIdsDistinct(resources: seq<Resource>, p: Profile)
    requires forall i, j :: 0 <= i < j < |resources| ==> Slug.Slug(resources[i].title) != Slug.Slug(resources[j].title)
    ensures forall i, j :: 0 <= i < j < |resources| ==>
      NormalizeItem(Staged(resources)[i], p).id != NormalizeItem(Staged(resources)[j], p).id
  {
    forall i, j | 0 <= i < j < |resources|
      ensures NormalizeItem(Staged(resources)[i], p).id != NormalizeItem(Staged(resources)[j], p).id
    {
      StagedRecord(resources[i], p);
      StagedRecord(resources[j], p);
      var a := Slug.Slug(resources[i].title);
      var b := Slug.Slug(resources[j].title);
      assert (p.prefix + a)[|p.prefix|..] == a && (p.prefix + b)[|p.prefix|..] == b;
    }
  }
}
