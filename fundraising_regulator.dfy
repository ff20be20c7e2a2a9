/**
 * The Fundraising Regulator adapter: the Code of Fundraising Practice registered as a single
 * guidance document. Nothing is fetched; the staged item is a constant.
 */
module FundraisingRegulator {
  import opened Wrappers
  import opened Text
  import Slug
  import opened AdapterBase

  const CODE_PDF_URL :=
    "https://www.fundraisingregulator.org.uk/sites/default/files/2019-09/Code-of-Fundraising-Practice-October-2019.pdf"

  const CODE_TITLE := "Code of Fundraising Practice"

  const CODE_SUMMARY := "Official Code of Fundraising Practice issued by the Fundraising Regulator."

  /** The slug of the Code's title. */
  const CODE_SLUG := "code-of-fundraising-practice"

  const FR_KEYWORDS: seq<string> := ["fundraising", "code", "practice", "governance"]

  /** `download_raw`, read back: one item for the Code, last updated on 2019-10-01 and without text. */
  const CODE_ITEM: Row := map[
    "url" := CODE_PDF_URL, "title" := CODE_TITLE, "summary" := CODE_SUMMARY,
    "last_updated" := "2019-10-01", "full_text" := ""]

  const STAGED: seq<Row> := [CODE_ITEM]

  /**
   * `normalize` for one item: a `risk_management` guidance record of the regulator `FR`, dated
   * by the item's `last_updated` or, when that is missing or empty, by `today`; its id is the
   * title's slug after `FR_guidance_`, or the clock's `stamp` when the slug is empty.
   */
  function NormalizeItem(item: Row, today: string, stamp: string): (rec: NormalizedRecord)
    ensures rec.title == Get(item, "title", CODE_TITLE) && rec.summary == Get(item, "summary", "")
    ensures rec.sourceUrl == Get(item, "url", "")
    ensures Get(item, "last_updated", "") != "" ==> rec.lastUpdated == item["last_updated"]
    ensures Get(item, "last_updated", "") == "" ==> rec.lastUpdated == today
    ensures rec.publishedDate == rec.lastUpdated
    ensures rec.id == Slug.SlugId("FR_guidance_", rec.title, stamp)
    ensures rec.regulator == "FR" && rec.domain == "risk_management" && rec.documentType == "guidance"
    ensures rec.keywords == Some(FR_KEYWORDS) && rec.fullText == Some(Get(item, "full_text", ""))
  {
    var title := Get(item, "title", CODE_TITLE);
    var lastUpdated := Or(Get(item, "last_updated", ""), today);
    Record(Slug.SlugId("FR_guidance_", title, stamp), title, Get(item, "summary", ""), Get(item, "url", ""),
           lastUpdated, lastUpdated, "FR", "risk_management", "guidance")
      .(keywords := Some(FR_KEYWORDS), fullText := Some(Get(item, "full_text", "")))
  }

  /** `normalize`: one record per staged item, in order. */
  method Normalize(items: seq<Row>, today: string, stamp: string) returns (records: seq<NormalizedRecord>)
    ensures |records| == |items|
    ensures forall i :: 0 <= i < |items| ==> records[i] == NormalizeItem(items[i], today, stamp)
  {
    records := NormalizeEach(items, item => NormalizeItem(item, today, stamp));
  }

  lemma CodeWords()
    ensures Slug.WordsAndSeparators(["code", "of", "fundraising", "practice"], [" ", " ", " "])
  {
  }

  lemma CodeLower()
    ensures Lower(CODE_TITLE) == Slug.Spaced(["code", "of", "fundraising", "practice"], [" ", " ", " "])
  {
    assert CODE_TITLE == "Code " + ("of " + ("Fundraising " + "Practice"));
    LowerAppend("Fundraising ", "Practice");
    LowerAppend("of ", "Fundraising " + "Practice");
    LowerAppend("Code ", "of " + ("Fundraising " + "Practice"));
    LowerWords();
    CodeSpaced();
  }

  lemma LowerWords()
    ensures Lower("Code ") == "code " && Lower("of ") == "of "
    ensures Lower("Fundraising ") == "fundraising " && Lower("Practice") == "practice"
  {
  }

  lemma CodeSpaced()
    ensures Slug.Spaced(["code", "of", "fundraising", "practice"], [" ", " ", " "]) ==
      "code " + ("of " + ("fundraising " + "practice"))
  {
    assert Slug.Spaced(["practice"], []) == "practice";
    assert Slug.Spaced(["fundraising", "practice"], [" "]) == "fundraising " + "practice";
    assert Slug.Spaced(["of", "fundraising", "practice"], [" ", " "]) == "of " + ("fundraising " + "practice");
  }

  lemma CodeDashed()
    ensures Slug.Dashed(["code", "of", "fundraising", "practice"]) == CODE_SLUG
  {
    assert Slug.Dashed(["practice"]) == "practice";
    assert Slug.Dashed(["fundraising", "practice"]) == "fundraising" + ("-" + "practice");
    assert Slug.Dashed(["of", "fundraising", "practice"]) == "of" + ("-" + ("fundraising" + ("-" + "practice")));
    assert CODE_SLUG == "code" + ("-" + ("of" + ("-" + ("fundraising" + ("-" + "practice")))));
  }

  /** The slug of the Code's title is its four words joined by `'-'`. */
  lemma CodeSlug()
    ensures Slug.Slug(CODE_TITLE) == CODE_SLUG
  {
    CodeWords();
    CodeLower();
    CodeDashed();
    assert CODE_TITLE[..|CODE_TITLE|] == CODE_TITLE;
    Slug.SlugBeginsWithWords(CODE_TITLE, CODE_TITLE, ["code", "of", "fundraising", "practice"], [" ", " ", " "]);
    var c := Slug.CollapseRuns(Lower(CODE_TITLE));
    assert |StripChar(c, '-')| <= |c| <= 28;
    assert Slug.Slug(CODE_TITLE)[..28] == CODE_SLUG;
  }

  /**
   * The staged items are the Code alone, and its record (the first `Normalize` returns) is
   * `FR_guidance_code-of-fundraising-practice`, published and last updated on 2019-10-01
   * whatever the day, and pointing at the Code's PDF.
   */
  lemma StagedCodeRecord(today: string, stamp: string)
    ensures |STAGED| == 1
    ensures NormalizeItem(STAGED[0], today, stamp).id == "FR_guidance_" + CODE_SLUG
    ensures NormalizeItem(STAGED[0], today, stamp).publishedDate == "2019-10-01"
    ensures NormalizeItem(STAGED[0], today, stamp).lastUpdated == "2019-10-01"
    ensures NormalizeItem(STAGED[0], today, stamp).sourceUrl == CODE_PDF_URL
    ensures NormalizeItem(STAGED[0], today, stamp).title == CODE_TITLE
  {
    StagedItem();
    CodeId(stamp);
  }

  /** The Code's id: its slug after the prefix, whatever the clock reads. */
  lemma CodeId(stamp: string)
    ensures Slug.SlugId("FR_guidance_", CODE_TITLE, stamp) == "FR_guidance_" + CODE_SLUG
  {
    CodeSlug();
  }

  /** The staged item's fields, read back. */
  lemma StagedItem()
    ensures Get(CODE_ITEM, "title", CODE_TITLE) == CODE_TITLE
    ensures Get(CODE_ITEM, "last_updated", "") == "2019-10-01"
    ensures Get(CODE_ITEM, "url", "") == CODE_PDF_URL
  {
  }
}
