/**
 * The OFSI adapter: the consolidated list of financial-sanctions targets. The publication page
 * is searched for the link to the list's CSV file, and each row of that file naming a target
 * becomes a `sanctions` record of critical risk. The adapter stands alone: the pipeline's
 * registry of sources does not name it.
 */
module Ofsi {
  import opened Wrappers
  import opened Text
  import Dates
  import opened AdapterBase

  const DOWNLOAD_PAGE :=
    "https://www.gov.uk/government/publications/financial-sanctions-consolidated-list-of-targets/consolidated-list-of-targets"

  const NO_LINK := "CSV link not found on OFSI page (no ConList.csv link)"

  // ---------------------------------------------------------------- finding the list

  /** `(link.get('href') or '').strip()`, for an anchor whose `href` may be missing. */
  function Href(anchor: Option<string>): string
  {
    Strip(anchor.UnwrapOr(""))
  }

  /** The link names the consolidated list's CSV: it ends in `.csv` and mentions `conlist`, in any case. */
  predicate IsConListCsv(href: string)
  {
    EndsWith(Lower(href), ".csv") && Contains(Lower(href), "conlist")
  }

  /** The anchor's stripped `href` when it links to the list's CSV. */
  function Candidate(anchor: Option<string>): Option<string>
  {
    if IsConListCsv(Href(anchor)) then Some(Href(anchor)) else None
  }

  /** For each anchor, its link when it points at the list. */
  function Candidates(anchors: seq<Option<string>>): (c: seq<Option<string>>)
    ensures |c| == |anchors|
  {
    seq(|anchors|, i requires 0 <= i < |anchors| => Candidate(anchors[i]))
  }

  /**
   * The stripped `href` of the first anchor that links to the list's CSV, if any does: by
   * `FirstOf`, none is found only when no anchor points at the list, and the link found is
   * that of an anchor every earlier one of which does not.
   */
  function FirstCsvLink(anchors: seq<Option<string>>): Option<string>
  {
    FirstOf(Candidates(anchors))
  }

  /** The link found points at the list and is the stripped `href` of one of the page's anchors. */
  lemma FoundLinkIsConList(anchors: seq<Option<string>>)
    requires FirstCsvLink(anchors).Some?
    ensures IsConListCsv(FirstCsvLink(anchors).value)
    ensures exists i :: 0 <= i < |anchors| && FirstCsvLink(anchors).value == Href(anchors[i])
  {
    var c := Candidates(anchors);
    var k :| 0 <= k < |c| && c[k] == FirstOf(c) && forall j :: 0 <= j < k ==> c[j].None?;
    assert c[k] == Candidate(anchors[k]);
  }

  /** No link is found only when no anchor points at the list. */
  lemma NoLinkMeansNoConList(anchors: seq<Option<string>>)
    requires FirstCsvLink(anchors).None?
    ensures forall i :: 0 <= i < |anchors| ==> !IsConListCsv(Href(anchors[i]))
  {
    var c := Candidates(anchors);
    forall i | 0 <= i < |anchors| ensures !IsConListCsv(Href(anchors[i])) {
      assert c[i] == Candidate(anchors[i]);
    }
  }

  /** An anchor pointing at the list, after none that did, gives the link found. */
  lemma FoundAt(anchors: seq<Option<string>>, i: nat)
    requires i < |anchors| && IsConListCsv(Href(anchors[i]))
    requires forall j :: 0 <= j < i ==> Candidates(anchors)[j].None?
    ensures FirstCsvLink(anchors) == Some(Href(anchors[i]))
  {
    FirstOfAt(Candidates(anchors), i);
  }

  /** The loop over the page's anchors that stops at the first link to the list. */
  method FindCsvLink(anchors: seq<Option<string>>) returns (link: Option<string>)
    ensures link == FirstCsvLink(anchors)
  {
    ghost var candidates := Candidates(anchors);
    var i := 0;
    while i < |anchors|
      invariant 0 <= i <= |anchors|
      invariant forall j :: 0 <= j < i ==> candidates[j].None?
    {
      var href := Href(anchors[i]);
      if IsConListCsv(href) {
        FoundAt(anchors, i);
        return Some(href);
      }
      assert candidates[i] == Candidate(anchors[i]);
      i := i + 1;
    }
    return None;
  }

  /** A relative link is made absolute on `www.gov.uk`. */
  function DownloadUrl(link: string): (url: string)
    ensures StartsWith(link, "http") ==> url == link
    ensures !StartsWith(link, "http") ==> url == "https://www.gov.uk" + link
  {
    if StartsWith(link, "http") then link else "https://www.gov.uk" + link
  }

  /** Whatever the link, the file is fetched from an absolute `http` address. */
  lemma DownloadUrlIsAbsolute(link: string)
    ensures StartsWith(DownloadUrl(link), "http")
  {
    if !StartsWith(link, "http") {
      assert DownloadUrl(link)[..4] == "https://www.gov.uk"[..4];
    }
  }

  /**
   * `download_raw`: the publication page's anchors (or the failure to fetch it), then the rows
   * of the CSV file behind the first link to the list. Without such a link the adapter fails.
   */
  method DownloadRaw(page: Result<seq<Option<string>>>, fetch: string -> Result<seq<Row>>)
    returns (rows: Result<seq<Row>>)
    ensures page.Err? ==> rows == Err(page.error)
    ensures page.Ok? && FirstCsvLink(page.value).None? ==> rows == Err(NO_LINK)
    ensures page.Ok? && FirstCsvLink(page.value).Some? ==> rows == fetch(DownloadUrl(FirstCsvLink(page.value).value))
  {
    if page.Err? {
      return Err(page.error);
    }
    var link := FindCsvLink(page.value);
    if link.None? {
      return Err(NO_LINK);
    }
    rows := fetch(DownloadUrl(link.value));
  }

  // ---------------------------------------------------------------- one row

  /** `row.get('Name 6') or row.get('name') or row.get('Name') or row.get('Primary name') or ''` */
  function NameOf(row: Row): string
  {
    Or(Get(row, "Name 6", ""), Or(Get(row, "name", ""), Or(Get(row, "Name", ""), Get(row, "Primary name", ""))))
  }

  /** `row.get('Group Type', row.get('Type', 'Unknown'))`: a present but empty column is kept. */
  function GroupType(row: Row): string
  {
    Get(row, "Group Type", Get(row, "Type", "Unknown"))
  }

  /** `row.get('Regime', '') or row.get('Sanctions Regime', '') or row.get('regime', '')` */
  function Regime(row: Row): string
  {
    Or(Get(row, "Regime", ""), Or(Get(row, "Sanctions Regime", ""), Get(row, "regime", "")))
  }

  /** `row.get('Listed On', row.get('Date Listed', ''))` */
  function ListedOn(row: Row): string
  {
    Get(row, "Listed On", Get(row, "Date Listed", ""))
  }

  /** The formats `_parse_date` tries, in order: `%d/%m/%Y`, `%Y-%m-%d`, `%d-%m-%Y`, `%d %b %Y`. */
  const OFSI_FORMATS: seq<Dates.Format> :=
    [Dates.DAY_MONTH_YEAR_SLASHED, Dates.YEAR_MONTH_DAY, Dates.DAY_MONTH_YEAR_DASHED, Dates.DAY_MONTHABBR_YEAR]

  /** `_parse_date`: nothing for an empty text, else the stripped text read with the first format that fits. */
  function ParseDate(dateStr: string): (r: Option<string>)
    ensures dateStr == "" ==> r.None?
    ensures dateStr != "" ==> r == Dates.ParseFirst(Strip(dateStr), OFSI_FORMATS)
    ensures r.Some? ==> Dates.IsIsoShaped(r.value)
  {
    if dateStr == "" then None else Dates.ParseFirst(Strip(dateStr), OFSI_FORMATS)
  }

  /** The letters and digits of a text, in order. */
  function Alnums(s: string): (r: string)
    ensures |r| <= |s|
    ensures forall c :: c in r ==> IsAlnum(c) && c in s
  {
    if |s| == 0 then ""
    else (if IsAlnum(s[0]) then [s[0]] else "") + Alnums(s[1..])
  }

  /** `''.join(c for c in name.lower() if c.isalnum())[:30]` */
  function NameSlug(name: string): (r: string)
    ensures |r| <= 30
    ensures forall c :: c in r ==> IsLower(c) || IsDigit(c)
  {
    var s := Alnums(Lower(name));
    var r := Take(s, 30);
    assert forall c :: c in r ==> c in s;
    r
  }

  /**
   * The designating authority: `UN` when the upper-cased statement of reasons mentions `UN`,
   * else `EU` when it mentions `EU`, else `UK`.
   */
  function DesignatedBy(reasons: string): (r: string)
    ensures r == "UN" <==> Contains(Upper(reasons), "UN")
    ensures r == "EU" <==> !Contains(Upper(reasons), "UN") && Contains(Upper(reasons), "EU")
    ensures r == "UK" <==> !Contains(Upper(reasons), "UN") && !Contains(Upper(reasons), "EU")
  {
    if Contains(Upper(reasons), "UN") then "UN"
    else if Contains(Upper(reasons), "EU") then "EU"
    else "UK"
  }

  /** The summary before truncation, prefixed with the group type when there is one. */
  function SummaryText(name: string, regime: string, groupType: string): (summary: string)
    ensures EndsWith(summary, name + " is designated under " + regime + " sanctions regime.")
    ensures groupType != "" ==> StartsWith(summary, groupType + ": ")
    ensures |summary| == |name + " is designated under " + regime + " sanctions regime."| +
      (if groupType != "" then |groupType| + 2 else 0)
  {
    var summary := name + " is designated under " + regime + " sanctions regime.";
    if groupType != "" then groupType + ": " + summary else summary
  }

  /**
   * `_normalize_row`: none for a row whose name, stripped, is shorter than two characters;
   * otherwise a critical `sanctions` record named after the target, dated by its listing date
   * (or today, the day the list is read), last updated today, and carrying the regime and the
   * designating authority.
   */
  function NormalizeRow(row: Row, today: string): (r: Option<NormalizedRecord>)
    requires Dates.IsIsoShaped(today)
    ensures r.None? <==> |Strip(NameOf(row))| < 2
    ensures r.Some? ==>
      var rec := r.value;
      rec.id == "OFSI_sanction_" + NameSlug(NameOf(row)) &&
      rec.title == "Sanctions: " + Take(NameOf(row), 100) &&
      rec.sourceUrl == DOWNLOAD_PAGE && rec.regulator == "OFSI" &&
      rec.domain == "sanctions" && rec.documentType == "sanction" && rec.riskLevel == Some("critical") &&
      Dates.IsIsoShaped(rec.publishedDate) && rec.lastUpdated == today &&
      (ParseDate(ListedOn(row)).Some? ==> rec.publishedDate == ParseDate(ListedOn(row)).value) &&
      (ParseDate(ListedOn(row)).None? ==> rec.publishedDate == today) &&
      rec.sanctionsRegime == Some(Regime(row)) &&
      rec.designatedBy == Some(DesignatedBy(Get(row, "UK Statement of Reasons", ""))) &&
      rec.summary == Take(SummaryText(NameOf(row), Regime(row), GroupType(row)), 500) &&
      rec.keywords == Some(["sanctions", "ofsi", Lower(Regime(row)), Lower(GroupType(row))]) &&
      |rec.summary| <= 500
  {
    var name := NameOf(row);
    if |Strip(name)| < 2 then None
    else
      var groupType := GroupType(row);
      var regime := Regime(row);
      var listed := ParseDate(ListedOn(row));
      var published := if listed.Some? then listed.value else today;
      Some(Record("OFSI_sanction_" + NameSlug(name), "Sanctions: " + Take(name, 100),
                  Take(SummaryText(name, regime, groupType), 500), DOWNLOAD_PAGE,
                  published, today, "OFSI", "sanctions", "sanction")
        .(riskLevel := Some("critical"), sanctionsRegime := Some(regime),
          designatedBy := Some(DesignatedBy(Get(row, "UK Statement of Reasons", ""))),
          keywords := Some(["sanctions", "ofsi", Lower(regime), Lower(groupType)])))
  }

  /** The designating authority is always one of `UN`, `EU` and `UK`. */
  lemma DesignationIsKnown(row: Row, today: string)
    requires Dates.IsIsoShaped(today) && NormalizeRow(row, today).Some?
    ensures NormalizeRow(row, today).value.designatedBy.value in {"UN", "EU", "UK"}
  {
  }

  /**
   * Targets whose names agree in their first thirty letters and digits, ignoring case, share an
   * id: `'Al-Qaida'` and `'AL QAIDA'` give the same `OFSI_sanction_alqaida`.
   */
  lemma SameLettersSameId(row1: Row, row2: Row, today: string)
    requires Dates.IsIsoShaped(today)
    requires NormalizeRow(row1, today).Some? && NormalizeRow(row2, today).Some?
    requires NameSlug(NameOf(row1)) == NameSlug(NameOf(row2))
    ensures NormalizeRow(row1, today).value.id == NormalizeRow(row2, today).value.id
  {
  }

  function RowNormalizer(today: string): Row -> Option<NormalizedRecord>
    requires Dates.IsIsoShaped(today)
  {
    row => NormalizeRow(row, today)
  }

  /** `normalize`: the records of the rows that name a target, in the file's order. */
  method Normalize(rows: seq<Row>, today: string) returns (records: seq<NormalizedRecord>)
    requires Dates.IsIsoShaped(today)
    ensures records == Kept(rows, RowNormalizer(today))
    ensures forall rec :: rec in records ==> rec.regulator == "OFSI" && rec.riskLevel == Some("critical")
  {
    records := KeepEach(rows, RowNormalizer(today));
  }
}
