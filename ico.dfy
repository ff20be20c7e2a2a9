/**
 * The ICO adapter: enforcement actions read from the tables of the enforcement page, one raw
 * case per table row, each turned into a `gdpr` enforcement record whose risk level follows
 * the size of the fine and the kind of action.
 *
 * A table is given as what the selectors find in it: for each `<tr>` its cells in document
 * order, each a `th` or a `td` with its stripped text and the `href` of its first anchor.
 */
module Ico {
  import opened Wrappers
  import opened Text
  import opened Phrases
  import Scan
  import Dates
  import opened AdapterBase

  const ENFORCEMENT_URL := "https://ico.org.uk/action-weve-taken/enforcement/"

  /** Words in an organisation's name that make it charity-relevant. */
  const CHARITY_KEYWORDS: seq<string> := [
    "charity", "trust", "foundation", "association",
    "society", "church", "hospice", "shelter", "relief",
    "volunteer", "not-for-profit", "nonprofit"]

  // ---------------------------------------------------------------- the enforcement tables

  /** A cell: `th` or `td`, its stripped text, and `link.get('href', '')` of its first anchor. */
  datatype Cell = Cell(isHeader: bool, text: string, link: Option<string>)

  /** A `<tr>`: its cells in document order. */
  type TableRow = seq<Cell>

  /** A `<table>`: its rows in document order. */
  type Table = seq<TableRow>

  /** The column names: the lower-cased text of every cell, `th` or `td`, of the first row. */
  function Headers(first: TableRow): (h: seq<string>)
    ensures |h| == |first|
  {
    seq(|first|, i requires 0 <= i < |first| => Lower(first[i].text))
  }

  /** `row.select('td')`: the data cells of a row, in order. */
  function DataCells(row: TableRow): (cells: seq<Cell>)
    ensures |cells| <= |row|
    ensures forall c :: c in cells <==> c in row && !c.isHeader
  {
    if |row| == 0 then []
    else (if row[0].isHeader then [] else [row[0]]) + DataCells(row[1..])
  }

  /**
   * The dictionary `case_data` after its first `n` cells: cell `i` is stored under header `i`
   * when there is one, and a linked cell also stores its link under `'<header>_url'`.
   */
  function CaseUpTo(headers: seq<string>, cells: seq<Cell>, n: nat): (d: Row)
    requires n <= |cells|
    ensures forall i :: 0 <= i < n && i < |headers| ==> headers[i] in d
    ensures n == 0 || |headers| == 0 ==> d == map[]
  {
    if n == 0 then map[]
    else
      var d := CaseUpTo(headers, cells, n - 1);
      var i := n - 1;
      if i < |headers| then
        var d1 := d[headers[i] := cells[i].text];
        if cells[i].link.Some? then d1[headers[i] + "_url" := cells[i].link.value] else d1
      else d
  }

  /** Column names that cannot overwrite one another: distinct, and none another's `_url` key. */
  predicate UniqueColumns(headers: seq<string>)
  {
    (forall i, j :: 0 <= i < j < |headers| ==> headers[i] != headers[j]) &&
    (forall i, j :: 0 <= i < |headers| && 0 <= j < |headers| ==> headers[i] != headers[j] + "_url")
  }

  /** With such columns, each cell's text is stored under its own header, and its link beside it. */
  lemma {:induction false} CaseHoldsCells(headers: seq<string>, cells: seq<Cell>, n: nat, i: nat)
    requires n <= |cells| && i < n && i < |headers| && UniqueColumns(headers)
    ensures headers[i] in CaseUpTo(headers, cells, n) && CaseUpTo(headers, cells, n)[headers[i]] == cells[i].text
    ensures cells[i].link.Some? ==>
      headers[i] + "_url" in CaseUpTo(headers, cells, n) &&
      CaseUpTo(headers, cells, n)[headers[i] + "_url"] == cells[i].link.value
    decreases n
  {
    var h := headers[i];
    var u := h + "_url";
    UrlKeyDiffers(h);
    var j := n - 1;
    if i < j {
      CaseHoldsCells(headers, cells, j, i);
      if j < |headers| {
        var hj := headers[j];
        assert hj != h && hj != u && hj + "_url" != h;
        UrlKeysDiffer(hj, h);
      }
    }
  }

  lemma UrlKeyDiffers(h: string)
    ensures h != h + "_url"
  {
    assert |h + "_url"| == |h| + 4;
  }

  /** Different columns have different `_url` keys. */
  lemma UrlKeysDiffer(a: string, b: string)
    requires a != b
    ensures a + "_url" != b + "_url"
  {
    if |a| == |b| {
      assert (a + "_url")[..|a|] == a && (b + "_url")[..|b|] == b;
    } else {
      assert |a + "_url"| != |b + "_url"|;
    }
  }

  /**
   * The case one data row gives: none for a row with fewer than three `td` cells or for an
   * empty dictionary (a table without column names).
   */
  function RowCase(headers: seq<string>, row: TableRow): (r: Option<Row>)
    ensures r.Some? ==> |DataCells(row)| >= 3 && r.value != map[] && r.value == CaseUpTo(headers, DataCells(row), |DataCells(row)|)
    ensures r.None? <==> |DataCells(row)| < 3 || |headers| == 0
  {
    var cells := DataCells(row);
    if |cells| < 3 then None
    else
      var c := CaseUpTo(headers, cells, |cells|);
      assert |headers| > 0 ==> headers[0] in c;
      if c == map[] then
        None
      else
        Some(c)
  }

  function RowCaser(headers: seq<string>): TableRow -> Option<Row>
  {
    row => RowCase(headers, row)
  }

  /**
   * The cases of one table: its first row names the columns and every later row that yields a
   * case gives one, in order. A table without rows makes `rows[0]` raise.
   */
  function TableCases(table: Table): (r: Result<seq<Row>>)
    ensures r.Err? <==> |table| == 0
  {
    if |table| == 0 then Err("IndexError: list index out of range")
    else Ok(Kept(table[1..], RowCaser(Headers(table[0]))))
  }

  /** The cases of the page's tables, in table order; the first table without rows aborts the scrape. */
  function PageCases(tables: seq<Table>): (r: Result<seq<Row>>)
  {
    if |tables| == 0 then Ok([])
    else
      match TableCases(tables[0])
      case Err(e) => Err(e)
      case Ok(first) => Prepend(first, PageCases(tables[1..]))
  }

  /** The cases gathered so far, put before those still to come unless those failed. */
  function Prepend(cases: seq<Row>, rest: Result<seq<Row>>): (r: Result<seq<Row>>)
    ensures r.Err? <==> rest.Err?
  {
    match rest
    case Err(e) => Err(e)
    case Ok(more) => Ok(cases + more)
  }

  /** The scrape fails exactly when one of the page's tables has no rows. */
  lemma {:induction false} PageFailsOnEmptyTable(tables: seq<Table>)
    ensures PageCases(tables).Err? <==> exists k :: 0 <= k < |tables| && |tables[k]| == 0
  {
    if |tables| > 0 {
      PageFailsOnEmptyTable(tables[1..]);
      assert forall k :: 1 <= k < |tables| ==> tables[k] == tables[1..][k - 1];
    }
  }

  /** The page from table `k` on: that table's cases before the rest, or its error. */
  lemma PageCasesStep(tables: seq<Table>, k: nat)
    requires k < |tables|
    ensures |tables[k]| == 0 ==> PageCases(tables[k..]) == Err("IndexError: list index out of range")
    ensures |tables[k]| > 0 ==>
      PageCases(tables[k..]) == Prepend(TableCases(tables[k]).value, PageCases(tables[k + 1..]))
  {
    assert tables[k..][0] == tables[k];
    assert tables[k..][1..] == tables[k + 1..];
  }

  lemma PrependTwice(a: seq<Row>, b: seq<Row>, rest: Result<seq<Row>>)
    ensures Prepend(a, Prepend(b, rest)) == Prepend(a + b, rest)
  {
    if rest.Ok? {
      assert a + (b + rest.value) == (a + b) + rest.value;
    }
  }

  /** The inner loop of `download_raw`: the cells of one row, stored one at a time. */
  method BuildCase(headers: seq<string>, cells: seq<Cell>) returns (caseData: Row)
    ensures caseData == CaseUpTo(headers, cells, |cells|)
  {
    caseData := map[];
    var i := 0;
    while i < |cells|
      invariant 0 <= i <= |cells|
      invariant caseData == CaseUpTo(headers, cells, i)
    {
      if i < |headers| {
        var cell := cells[i];
        if cell.link.Some? {
          caseData := caseData[headers[i] := cell.text];
          caseData := caseData[headers[i] + "_url" := cell.link.value];
        } else {
          caseData := caseData[headers[i] := cell.text];
        }
      }
      i := i + 1;
    }
  }

  /** The body of the row loop: the case one data row gives, if any. */
  method ScanRow(headers: seq<string>, row: TableRow) returns (c: Option<Row>)
    ensures c == RowCase(headers, row)
  {
    var cells := DataCells(row);
    c := None;
    if |cells| >= 3 {
      var caseData := BuildCase(headers, cells);
      if caseData != map[] {
        c := Some(caseData);
      }
    }
  }

  lemma CaseStep(headers: seq<string>, rows: seq<TableRow>, j: nat, c: Option<Row>)
    requires j < |rows| && c == RowCase(headers, rows[j])
    ensures Kept(rows[..j + 1], RowCaser(headers)) ==
      Kept(rows[..j], RowCaser(headers)) + (if c.Some? then [c.value] else [])
  {
    KeptStep(rows, j, RowCaser(headers));
    assert RowCaser(headers)(rows[j]) == c;
  }

  /** The row loop of `download_raw` over one table that has rows. */
  method ScanTable(table: Table) returns (cases: seq<Row>)
    requires |table| > 0
    ensures TableCases(table) == Ok(cases)
  {
    var headers := Headers(table[0]);
    var rows := table[1..];
    cases := [];
    var j := 0;
    while j < |rows|
      invariant 0 <= j <= |rows|
      invariant cases == Kept(rows[..j], RowCaser(headers))
    {
      var c := ScanRow(headers, rows[j]);
      CaseStep(headers, rows, j, c);
      if c.Some? {
        cases := cases + [c.value];
      }
      j := j + 1;
    }
    assert rows[..j] == rows;
  }

  /**
   * `download_raw`: the page's cases, or the failure of the request, or the error of the
   * first table that has no rows.
   */
  method DownloadRaw(page: Result<seq<Table>>) returns (cases: Result<seq<Row>>)
    ensures page.Err? ==> cases == Err(page.error)
    ensures page.Ok? ==> cases == PageCases(page.value)
  {
    if page.Err? {
      return Err(page.error);
    }
    var tables := page.value;
    var all: seq<Row> := [];
    var k := 0;
    assert tables[0..] == tables;
    assert Prepend([], PageCases(tables)) == PageCases(tables) by {
      if PageCases(tables).Ok? {
        assert [] + PageCases(tables).value == PageCases(tables).value;
      }
    }
    while k < |tables|
      invariant 0 <= k <= |tables|
      invariant PageCases(tables) == Prepend(all, PageCases(tables[k..]))
    {
      PageCasesStep(tables, k);
      if |tables[k]| == 0 {
        return Err("IndexError: list index out of range");
      }
      var more := ScanTable(tables[k]);
      PrependTwice(all, more, PageCases(tables[k + 1..]));
      all := all + more;
      k := k + 1;
    }
    assert tables[k..] == [];
    assert all + [] == all;
    return Ok(all);
  }

  // ---------------------------------------------------------------- one case

  /** `case.get('organisation') or case.get('name') or case.get('company') or 'Unknown Organisation'` */
  function OrgName(c: Row): (name: string)
    ensures name != ""
    ensures Get(c, "organisation", "") != "" ==> name == c["organisation"]
    ensures Get(c, "organisation", "") == "" && Get(c, "name", "") != "" ==> name == c["name"]
    ensures Get(c, "organisation", "") == "" && Get(c, "name", "") == "" && Get(c, "company", "") != "" ==>
      name == c["company"]
    ensures Get(c, "organisation", "") == "" && Get(c, "name", "") == "" && Get(c, "company", "") == "" ==>
      name == "Unknown Organisation"
  {
    Or(Get(c, "organisation", ""), Or(Get(c, "name", ""), Or(Get(c, "company", ""), "Unknown Organisation")))
  }

  /** The organisation's lower-cased name mentions one of the charity words. */
  predicate CharityRelevant(orgName: string)
  {
    AnyIn(Lower(orgName), CHARITY_KEYWORDS)
  }

  /** `case.get('type') or case.get('action') or 'Enforcement action'` */
  function ActionType(c: Row): (a: string)
    ensures a != ""
  {
    Or(Get(c, "type", ""), Or(Get(c, "action", ""), "Enforcement action"))
  }

  /** The formats `_parse_date` tries, in order. */
  const ICO_FORMATS: seq<Dates.Format> :=
    [Dates.DAY_MONTH_YEAR_SLASHED, Dates.DAY_MONTHNAME_YEAR, Dates.YEAR_MONTH_DAY, Dates.MONTHNAME_YEAR]

  /** `case.get('date') or case.get('published')`: the first non-empty of the two. */
  function DateText(c: Row): (r: Option<string>)
    ensures r.Some? ==> r.value != ""
    ensures r.None? <==> Get(c, "date", "") == "" && Get(c, "published", "") == ""
  {
    if Get(c, "date", "") != "" then Some(c["date"])
    else if Get(c, "published", "") != "" then Some(c["published"])
    else None
  }

  /**
   * `_parse_date`: nothing for a missing or empty text; otherwise the stripped text read with
   * the first of `%d/%m/%Y`, `%d %B %Y`, `%Y-%m-%d`, `%B %Y` that fits, as `YYYY-MM-DD`.
   */
  function ParseDate(dateStr: Option<string>): (r: Option<string>)
    ensures dateStr.None? || dateStr.value == "" ==> r.None?
    ensures dateStr.Some? && dateStr.value != "" ==> r == Dates.ParseFirst(Strip(dateStr.value), ICO_FORMATS)
    ensures r.Some? ==> Dates.IsIsoShaped(r.value)
  {
    if dateStr.None? || dateStr.value == "" then None
    else Dates.ParseFirst(Strip(dateStr.value), ICO_FORMATS)
  }

  // ---------------------------------------------------------------- the fine

  /** The position of the first digit of `s` at or after `i`, or `|s|` when there is none. */
  function FirstDigit(s: string, i: nat): (d: nat)
    requires i <= |s|
    ensures i <= d <= |s|
    ensures d < |s| ==> IsDigit(s[d])
    ensures forall j :: i <= j < d ==> !IsDigit(s[j])
    decreases |s| - i
  {
    if i == |s| || IsDigit(s[i]) then i else FirstDigit(s, i + 1)
  }

  /** `(?:,\d{3})*` taken greedily from `j`: where the run of comma groups ends. */
  function CommaGroupsEnd(s: string, j: nat): (e: nat)
    requires j <= |s|
    ensures j <= e <= |s|
    ensures forall k :: j <= k < e ==> IsDigit(s[k]) || s[k] == ','
    decreases |s| - j
  {
    if j + 4 <= |s| && s[j] == ',' && IsDigit(s[j + 1]) && IsDigit(s[j + 2]) && IsDigit(s[j + 3]) then
      CommaGroupsEnd(s, j + 4)
    else j
  }

  /** `(?:\.\d{2})?` at `j`: whether a point and two digits follow. */
  predicate HasCents(s: string, j: nat)
  {
    j + 3 <= |s| && s[j] == '.' && IsDigit(s[j + 1]) && IsDigit(s[j + 2])
  }

  /** The value of a text of decimal digits. */
  function NatValue(t: string): nat
    requires forall c :: c in t ==> IsDigit(c)
  {
    if |t| == 0 then 0
    else
      assert t[|t| - 1] in t;
      assert forall c :: c in t[..|t| - 1] ==> c in t;
      10 * NatValue(t[..|t| - 1]) + DigitValue(t[|t| - 1])
  }

  /** The whole-number part of the amount that starts at `d`: `\d{1,3}(?:,\d{3})*` taken greedily. */
  function WholeEnd(s: string, d: nat): (e: nat)
    requires d <= |s|
    ensures d <= e <= |s|
    ensures forall k :: d <= k < e ==> IsDigit(s[k]) || s[k] == ','
  {
    CommaGroupsEnd(s, d + Scan.RunLen(s, d, Scan.Digit, Some(3)))
  }

  /**
   * `re.search(r'£?(\d{1,3}(?:,\d{3})*(?:\.\d{2})?)', text)` and `float(group.replace(',', ''))`.
   * Nothing after the group is required, so the leftmost match captures from the first digit
   * of the text, and every repetition matches greedily: at most three digits, then each
   * `,ddd`, then `.dd` if present. A run of more than three digits without separators is cut
   * after its third digit.
   */
  function FineIn(text: string): (r: Option<real>)
    ensures r.None? <==> forall j :: 0 <= j < |text| ==> !IsDigit(text[j])
    ensures r.Some? ==> r.value >= 0.0
  {
    var d := FirstDigit(text, 0);
    if d == |text| then None else Some(AmountAt(text, d))
  }

  /** The value of the amount whose first digit is at `d`: its whole part and its pence. */
  function AmountAt(text: string, d: nat): (v: real)
    requires d <= |text|
    ensures v >= 0.0
  {
    var e := WholeEnd(text, d);
    var cents: nat := if HasCents(text, e) then 10 * DigitValue(text[e + 1]) + DigitValue(text[e + 2]) else 0;
    NatValue(WholeDigits(text, d)) as real + cents as real / 100.0
  }

  /** The digits of the whole-number part starting at `d`, its commas dropped. */
  function WholeDigits(text: string, d: nat): (w: string)
    requires d <= |text|
    ensures forall c :: c in w ==> IsDigit(c)
  {
    var w := RemoveChar(text[d..WholeEnd(text, d)], ',');
    assert forall c :: c in text[d..WholeEnd(text, d)] ==> IsDigit(c) || c == ',';
    w
  }

  lemma CommasDropped()
    ensures RemoveChar("500,000", ',') == "500000"
  {
    assert "500,000" == "500" + ([','] + "000");
    ThousandsSeparatorDropped("500", "000");
    assert "500" + "000" == "500000";
  }

  lemma ThousandsSeparatorDropped(a: string, b: string)
    requires forall k :: 0 <= k < |a| ==> IsDigit(a[k])
    requires forall k :: 0 <= k < |b| ==> IsDigit(b[k])
    ensures RemoveChar(a + ([','] + b), ',') == a + b
  {
    RemoveCharAppend(a, [','] + b, ',');
    NoCommaIn(a);
    CommaGroupDropped(b);
  }

  lemma NoCommaIn(digits: string)
    requires forall k :: 0 <= k < |digits| ==> IsDigit(digits[k])
    ensures RemoveChar(digits, ',') == digits
  {
    RemoveCharAbsent(digits, ',');
  }

  lemma CommaGroupDropped(digits: string)
    requires forall k :: 0 <= k < |digits| ==> IsDigit(digits[k])
    ensures RemoveChar([','] + digits, ',') == digits
  {
    assert ([','] + digits)[1..] == digits;
    NoCommaIn(digits);
  }

  /** Without pence an amount is its whole part. */
  lemma WholeAmount(text: string, d: nat)
    requires d <= |text| && !HasCents(text, WholeEnd(text, d))
    ensures AmountAt(text, d) == NatValue(WholeDigits(text, d)) as real
  {
  }

  lemma NatValueOf500()
    ensures NatValue("500") == 500
  {
    assert "500"[..2] == "50" && "50"[..1] == "5" && "5"[..0] == "";
  }

  lemma NatValueOf500000()
    ensures NatValue("500000") == 500000
  {
    NatValueOf500();
    assert "500000"[..5] == "50000" && "50000"[..4] == "5000" && "5000"[..3] == "500";
  }

  /** Without separators only the first three digits are read: `'500000'` is a fine of 500. */
  lemma UnseparatedFineIsCut()
    ensures FineIn("500000") == Some(500.0)
  {
    var s := "500000";
    assert FirstDigit(s, 0) == 0;
    assert Scan.RunLen(s, 3, Scan.Digit, Some(0)) == 0;
    assert Scan.RunLen(s, 0, Scan.Digit, Some(3)) == 3;
    assert CommaGroupsEnd(s, 3) == 3;
    assert WholeEnd(s, 0) == 3;
    assert s[0..3] == "500";
    RemoveCharAbsent("500", ',');
    assert WholeDigits(s, 0) == "500";
    NatValueOf500();
    assert !HasCents(s, 3);
  }

  /** With separators the whole amount is read: `'£500,000'` is a fine of 500000. */
  lemma SeparatedFineIsRead()
    ensures FineIn("£500,000") == Some(500000.0)
  {
    var s := "£500,000";
    assert FirstDigit(s, 1) == 1;
    assert FirstDigit(s, 0) == 1;
    assert WholeEnd(s, 1) == 8 by {
      assert Scan.RunLen(s, 4, Scan.Digit, Some(0)) == 0;
      assert Scan.RunLen(s, 1, Scan.Digit, Some(3)) == 3;
      assert CommaGroupsEnd(s, 8) == 8;
      assert CommaGroupsEnd(s, 4) == 8;
    }
    assert s[1..8] == "500,000";
    CommasDropped();
    assert WholeDigits(s, 1) == RemoveChar(s[1..8], ',');
    assert !HasCents(s, 8);
    WholeAmount(s, 1);
    NatValueOf500000();
  }

  /** The keys `_extract_fine` looks at, in order. */
  const FINE_KEYS: seq<string> := ["fine", "amount", "penalty"]

  /** The case holds `key` and its text has an amount in it. */
  predicate Readable(c: Row, key: string)
  {
    key in c && FineIn(c[key]).Some?
  }

  /** `keys[k]` is the first of `keys` that is readable, and `r` is the fine read from it. */
  predicate ReadFromFirst(c: Row, keys: seq<string>, k: int, r: Option<real>)
  {
    0 <= k < |keys| && Readable(c, keys[k]) && FineIn(c[keys[k]]) == r &&
    forall j :: 0 <= j < k ==> !Readable(c, keys[j])
  }

  /** The fine read from the first of `keys` that is present and whose text holds a digit. */
  function FineFrom(c: Row, keys: seq<string>): (r: Option<real>)
    ensures r.None? <==> forall k :: 0 <= k < |keys| ==> !Readable(c, keys[k])
    ensures r.Some? ==> exists k :: ReadFromFirst(c, keys, k, r)
  {
    if |keys| == 0 then None
    else if Readable(c, keys[0]) then
      assert ReadFromFirst(c, keys, 0, FineIn(c[keys[0]]));
      FineIn(c[keys[0]])
    else
      var rest := FineFrom(c, keys[1..]);
      assert forall k :: 1 <= k < |keys| ==> keys[k] == keys[1..][k - 1];
      assert rest.Some? ==> exists k :: ReadFromFirst(c, keys, k, rest) by {
        if rest.Some? {
          var k :| ReadFromFirst(c, keys[1..], k, rest);
          assert ReadFromFirst(c, keys, k + 1, rest);
        }
      }
      rest
  }

  /** `_extract_fine`: the amount under `fine`, else `amount`, else `penalty`, skipping keys without one. */
  function ExtractFine(c: Row): (r: Option<real>)
    ensures r.Some? ==> r.value >= 0.0
  {
    FineFrom(c, FINE_KEYS)
  }

  // ---------------------------------------------------------------- the risk level

  /** `fine_amount and fine_amount >= t`, for a positive threshold `t`. */
  predicate FineAtLeast(fine: Option<real>, t: real)
  {
    fine.Some? && fine.value >= t
  }

  predicate Prosecution(actionLower: string)
  {
    Contains(actionLower, "prosecution") || Contains(actionLower, "criminal")
  }

  predicate Undertaking(actionLower: string)
  {
    Contains(actionLower, "undertaking") || Contains(actionLower, "reprimand")
  }

  /**
   * `_assess_risk`: a fine of 100000 or more is critical and one of 10000 or more high;
   * otherwise a prosecution is critical, an undertaking or reprimand medium and anything
   * else low. A zero or absent fine takes no part.
   */
  function AssessRisk(fine: Option<real>, actionType: string): (risk: string)
    ensures risk == "critical" <==>
      FineAtLeast(fine, 100000.0) || (!FineAtLeast(fine, 10000.0) && Prosecution(Lower(actionType)))
    ensures risk == "high" <==> FineAtLeast(fine, 10000.0) && !FineAtLeast(fine, 100000.0)
    ensures risk == "medium" <==>
      !FineAtLeast(fine, 10000.0) && !Prosecution(Lower(actionType)) && Undertaking(Lower(actionType))
    ensures risk == "low" <==>
      !FineAtLeast(fine, 10000.0) && !Prosecution(Lower(actionType)) && !Undertaking(Lower(actionType))
  {
    var actionLower := Lower(actionType);
    if FineAtLeast(fine, 100000.0) then "critical"
    else if FineAtLeast(fine, 10000.0) then "high"
    else if Prosecution(actionLower) then "critical"
    else if Undertaking(actionLower) then "medium"
    else "low"
  }

  /** A fine of 10000 or more decides the level whatever the action. */
  lemma LargeFineDecides(fine: Option<real>, a1: string, a2: string)
    requires FineAtLeast(fine, 10000.0)
    ensures AssessRisk(fine, a1) == AssessRisk(fine, a2)
  {
  }

  /** Below 10000 a fine counts for nothing: the action alone decides, as if there were no fine. */
  lemma SmallFineIsNoFine(fine: Option<real>, actionType: string)
    requires !FineAtLeast(fine, 10000.0)
    ensures AssessRisk(fine, actionType) == AssessRisk(None, actionType)
  {
  }

  // ---------------------------------------------------------------- the record

  /** `re.sub(r'[^a-z0-9]', '', s)`: the letters and digits of a lower-cased text, in order. */
  function SlugChars(s: string): (r: string)
    ensures |r| <= |s|
    ensures forall c :: c in r ==> IsLower(c) || IsDigit(c)
  {
    if |s| == 0 then ""
    else (if IsLower(s[0]) || IsDigit(s[0]) then [s[0]] else "") + SlugChars(s[1..])
  }

  /** `re.sub(r'[^a-z0-9]', '', org_name.lower())[:20]` */
  function OrgSlug(orgName: string): (r: string)
    ensures |r| <= 20 && forall c :: c in r ==> IsLower(c) || IsDigit(c)
  {
    var s := SlugChars(Lower(orgName));
    var r := Take(s, 20);
    assert forall c :: c in r ==> c in s;
    r
  }

  /** `published_date[:10].replace('-', '') if published_date else 'unknown'` */
  function DateDigits(published: Option<string>): string
  {
    if published.Some? then Dates.DatePart(published.value) else "unknown"
  }

  /** `f"ICO_enforcement_{org_slug}_{date_part}"` */
  function CaseId(orgName: string, published: Option<string>): string
  {
    "ICO_enforcement_" + OrgSlug(orgName) + "_" + DateDigits(published)
  }

  /**
   * The summary before truncation: `'<action> against <org>.'`, followed by the formatted fine
   * when there is a non-zero one; `money` is `'{:,.0f}'`.
   */
  function SummaryText(actionType: string, orgName: string, fine: Option<real>, money: real -> string): (summary: string)
    ensures StartsWith(summary, actionType + " against " + orgName + ".")
    ensures fine.None? || fine.value == 0.0 ==> summary == actionType + " against " + orgName + "."
    ensures fine.Some? && fine.value != 0.0 ==>
      EndsWith(summary, " Fine: £" + money(fine.value) + ".") &&
      |summary| == |actionType + " against " + orgName + "."| + |" Fine: £" + money(fine.value) + "."|
  {
    actionType + " against " + orgName + "." +
    (if fine.Some? && fine.value != 0.0 then " Fine: £" + money(fine.value) + "." else "")
  }

  /** `case.get('organisation_url') or case.get('name_url') or ENFORCEMENT_URL` */
  function SourceUrl(c: Row): (url: string)
    ensures url != ""
    ensures Get(c, "organisation_url", "") != "" ==> url == c["organisation_url"]
    ensures Get(c, "organisation_url", "") == "" && Get(c, "name_url", "") != "" ==> url == c["name_url"]
    ensures Get(c, "organisation_url", "") == "" && Get(c, "name_url", "") == "" ==> url == ENFORCEMENT_URL
  {
    Or(Get(c, "organisation_url", ""), Or(Get(c, "name_url", ""), ENFORCEMENT_URL))
  }

  /**
   * The record of one case from what `normalize` reads out of it: a `gdpr` enforcement record
   * about the organisation, dated by the case or else by the 1970-01-01 placeholder, carrying
   * the fine, the action as outcome and a risk level, and naming the organisation as a charity
   * only when its name says so.
   */
  function CaseRecord(orgName: string, published: Option<string>, fine: Option<real>, actionType: string,
                      sourceUrl: string, money: real -> string): (rec: NormalizedRecord)
    requires published.Some? ==> Dates.IsIsoShaped(published.value)
    ensures rec.regulator == "ICO" && rec.domain == "gdpr" && rec.documentType == "enforcement"
    ensures Dates.IsIsoShaped(rec.publishedDate) && rec.lastUpdated == rec.publishedDate
    ensures published.Some? ==> rec.publishedDate == published.value
    ensures published.None? ==> rec.publishedDate == "1970-01-01"
    ensures rec.charityName.Some? <==> CharityRelevant(orgName)
    ensures rec.charityName.Some? ==> rec.charityName.value == orgName
    ensures rec.id == CaseId(orgName, published)
    ensures rec.title == "ICO action: " + orgName && rec.sourceUrl == sourceUrl
    ensures rec.riskLevel == Some(AssessRisk(fine, actionType)) && rec.fineAmount == fine
    ensures rec.outcome == Some(actionType)
    ensures rec.summary == Take(SummaryText(actionType, orgName, fine, money), 500)
    ensures rec.keywords == Some(["data protection", "gdpr", "ico", Lower(actionType)])
    ensures |rec.summary| <= 500
  {
    var date := if published.Some? then published.value else "1970-01-01";
    assert Dates.IsIsoShaped("1970-01-01");
    Record(CaseId(orgName, published), "ICO action: " + orgName,
           Take(SummaryText(actionType, orgName, fine, money), 500), sourceUrl,
           date, date, "ICO", "gdpr", "enforcement")
      .(charityName := if CharityRelevant(orgName) then Some(orgName) else None,
        riskLevel := Some(AssessRisk(fine, actionType)), outcome := Some(actionType),
        fineAmount := fine, keywords := Some(["data protection", "gdpr", "ico", Lower(actionType)]))
  }

  /** `normalize` for one case. */
  function NormalizeCase(c: Row, money: real -> string): NormalizedRecord
  {
    CaseRecord(OrgName(c), ParseDate(DateText(c)), ExtractFine(c), ActionType(c), SourceUrl(c), money)
  }

  /**
   * A record's id is `ICO_enforcement_`, at most twenty lower-case letters and digits of the
   * organisation's name, `_`, and the eight digits of the date or `unknown`.
   */
  lemma CaseIdShape(orgName: string, published: Option<string>)
    requires published.Some? ==> Dates.IsIsoShaped(published.value)
    ensures CaseId(orgName, published) == "ICO_enforcement_" + OrgSlug(orgName) + "_" + DateDigits(published)
    ensures published.Some? ==> |DateDigits(published)| == 8 && forall ch :: ch in DateDigits(published) ==> IsDigit(ch)
    ensures published.None? ==> DateDigits(published) == "unknown"
  {
    if published.Some? {
      Dates.IsoShapedStarts(published.value);
      Dates.DatePartOfIso(published.value);
    }
  }

  /**
   * A case with neither a `date` nor a `published` text has no date, so its record carries the
   * 1970-01-01 placeholder and `unknown` in its id.
   */
  lemma UndatedCase(c: Row, orgName: string, fine: Option<real>, actionType: string, url: string, money: real -> string)
    requires Get(c, "date", "") == "" && Get(c, "published", "") == ""
    ensures ParseDate(DateText(c)).None?
    ensures CaseRecord(orgName, ParseDate(DateText(c)), fine, actionType, url, money).publishedDate == "1970-01-01"
    ensures CaseRecord(orgName, ParseDate(DateText(c)), fine, actionType, url, money).id ==
      "ICO_enforcement_" + OrgSlug(orgName) + "_unknown"
  {
    var prefix := "ICO_enforcement_" + OrgSlug(orgName);
    assert prefix + "_" + "unknown" == prefix + "_unknown";
  }

  /** `normalize`: one record per stored case, in order. */
  method Normalize(cases: seq<Row>, money: real -> string) returns (records: seq<NormalizedRecord>)
    ensures |records| == |cases|
    ensures forall i :: 0 <= i < |cases| ==> records[i] == NormalizeCase(cases[i], money)
  {
    records := NormalizeEach(cases, c => NormalizeCase(c, money));
  }
}
