/**
 * The common record shape every adapter produces (`NormalizedRecord`), its flattening into
 * one CSV row, the source description (`SourceMetadata`) and the download-then-normalize
 * template every adapter runs.
 */
module AdapterBase {
  import opened Wrappers
  import opened Text

  /** A CSV row, or a raw JSON item, as a string-keyed dictionary. */
  type Row = map<string, string>

  /** Information about a data source; `lastFetched` is a timestamp kept as text. */
  datatype SourceMetadata = SourceMetadata(
    name: string,
    url: string,
    regulator: string,
    updateFrequency: string,
    lastFetched: Option<string>,
    recordCount: int)

  /** A source description with the dataclass defaults for the last two fields. */
  function NewSourceMetadata(name: string, url: string, regulator: string, updateFrequency: string)
    : (m: SourceMetadata)
    ensures m.lastFetched.None? && m.recordCount == 0
    ensures m.name == name && m.url == url && m.regulator == regulator && m.updateFrequency == updateFrequency
  {
    SourceMetadata(name, url, regulator, updateFrequency, None, 0)
  }

  /** One record of the common schema: nine required text fields and thirteen optional ones. */
  datatype NormalizedRecord = NormalizedRecord(
    id: string,
    title: string,
    summary: string,
    sourceUrl: string,
    publishedDate: string,
    lastUpdated: string,
    regulator: string,
    domain: string,
    documentType: string,
    charityNumber: Option<string>,
    charityName: Option<string>,
    charityIncomeBand: Option<string>,
    riskLevel: Option<string>,
    caseId: Option<string>,
    caseStatus: Option<string>,
    outcome: Option<string>,
    issuesIdentified: Option<seq<string>>,
    sanctionsRegime: Option<string>,
    designatedBy: Option<string>,
    fineAmount: Option<real>,
    keywords: Option<seq<string>>,
    fullText: Option<string>)

  /** A record with the required fields given and every optional field left at `None`. */
  function Record(id: string, title: string, summary: string, sourceUrl: string, publishedDate: string,
                  lastUpdated: string, regulator: string, domain: string, documentType: string): NormalizedRecord
  {
    NormalizedRecord(id, title, summary, sourceUrl, publishedDate, lastUpdated, regulator, domain, documentType,
                     None, None, None, None, None, None, None, None, None, None, None, None, None)
  }

  /** The 21 keys of a serialised record; `full_text` is never written. */
  const ROW_KEYS: set<string> := {
    "id", "title", "summary", "source_url", "published_date", "last_updated",
    "regulator", "domain", "document_type", "charity_number", "charity_name",
    "charity_income_band", "risk_level", "case_id", "case_status", "outcome",
    "issues_identified", "sanctions_regime", "designated_by", "fine_amount",
    "keywords"}

  /** `value or ''` on an optional string. */
  function Flat(o: Option<string>): (r: string)
    ensures r == "" <==> o.None? || o.value == ""
    ensures o.Some? ==> r == o.value
  {
    if o.Some? then o.value else ""
  }

  /** `'|'.join(xs) if xs else ''` */
  function JoinedList(o: Option<seq<string>>): (r: string)
    ensures o.None? || |o.value| == 0 ==> r == ""
    ensures o.Some? && |o.value| > 0 ==> r == Join(o.value, "|")
  {
    if o.Some? && |o.value| > 0 then Join(o.value, "|") else ""
  }

  /** `str(x) if x else ''` on an optional amount; `show` is Python's `str` on floats. */
  function Amount(o: Option<real>, show: real -> string): (r: string)
    ensures o.None? || o.value == 0.0 ==> r == ""
    ensures o.Some? && o.value != 0.0 ==> r == show(o.value)
  {
    if o.Some? && o.value != 0.0 then show(o.value) else ""
  }

  /** What `to_csv_row` writes under one column key. */
  function CsvField(rec: NormalizedRecord, show: real -> string, key: string): string
  {
    match key
    case "id" => rec.id
    case "title" => rec.title
    case "summary" => rec.summary
    case "source_url" => rec.sourceUrl
    case "published_date" => rec.publishedDate
    case "last_updated" => rec.lastUpdated
    case "regulator" => rec.regulator
    case "domain" => rec.domain
    case "document_type" => rec.documentType
    case "charity_number" => Flat(rec.charityNumber)
    case "charity_name" => Flat(rec.charityName)
    case "charity_income_band" => Flat(rec.charityIncomeBand)
    case "risk_level" => Flat(rec.riskLevel)
    case "case_id" => Flat(rec.caseId)
    case "case_status" => Flat(rec.caseStatus)
    case "outcome" => Flat(rec.outcome)
    case "issues_identified" => JoinedList(rec.issuesIdentified)
    case "sanctions_regime" => Flat(rec.sanctionsRegime)
    case "designated_by" => Flat(rec.designatedBy)
    case "fine_amount" => Amount(rec.fineAmount, show)
    case "keywords" => JoinedList(rec.keywords)
    case _ => ""
  }

  /**
   * `to_csv_row`: exactly the 21 column keys. What each key holds is stated by
   * the `ToCsvRow...` lemmas below.
   */
  function ToCsvRow(rec: NormalizedRecord, show: real -> string): (row: Row)
    ensures row.Keys == ROW_KEYS
  {
    map key | key in ROW_KEYS :: CsvField(rec, show, key)
  }

  /** The nine required fields are copied unchanged: identity and text ... */
  lemma ToCsvRowIdentity(rec: NormalizedRecord, show: real -> string)
    ensures ToCsvRow(rec, show)["id"] == rec.id
    ensures ToCsvRow(rec, show)["title"] == rec.title
    ensures ToCsvRow(rec, show)["summary"] == rec.summary
    ensures ToCsvRow(rec, show)["source_url"] == rec.sourceUrl
  {
  }

  /** ... the two dates ... */
  lemma ToCsvRowDates(rec: NormalizedRecord, show: real -> string)
    ensures ToCsvRow(rec, show)["published_date"] == rec.publishedDate
    ensures ToCsvRow(rec, show)["last_updated"] == rec.lastUpdated
  {
  }

  /** ... and the classification. */
  lemma ToCsvRowClassification(rec: NormalizedRecord, show: real -> string)
    ensures ToCsvRow(rec, show)["regulator"] == rec.regulator
    ensures ToCsvRow(rec, show)["domain"] == rec.domain
    ensures ToCsvRow(rec, show)["document_type"] == rec.documentType
  {
  }

  /** Optional text fields become `''` when missing and are copied otherwise: the charity ... */
  lemma ToCsvRowCharity(rec: NormalizedRecord, show: real -> string)
    ensures var row := ToCsvRow(rec, show);
      row["charity_number"] == Flat(rec.charityNumber) && row["charity_name"] == Flat(rec.charityName) &&
      row["charity_income_band"] == Flat(rec.charityIncomeBand) && row["risk_level"] == Flat(rec.riskLevel)
  {
  }

  /** ... the case and the sanctions designation ... */
  lemma ToCsvRowCase(rec: NormalizedRecord, show: real -> string)
    ensures var row := ToCsvRow(rec, show);
      row["case_id"] == Flat(rec.caseId) && row["case_status"] == Flat(rec.caseStatus) &&
      row["outcome"] == Flat(rec.outcome) && row["sanctions_regime"] == Flat(rec.sanctionsRegime) &&
      row["designated_by"] == Flat(rec.designatedBy)
  {
  }

  /** ... while list fields are `'|'`-joined when non-empty and the fine is shown when non-zero. */
  lemma ToCsvRowLists(rec: NormalizedRecord, show: real -> string)
    ensures var row := ToCsvRow(rec, show);
      row["issues_identified"] == JoinedList(rec.issuesIdentified) &&
      row["keywords"] == JoinedList(rec.keywords) &&
      row["fine_amount"] == Amount(rec.fineAmount, show)
  {
  }

  /** Splitting `a + tail` where `a` has no separator glues `a` onto the first piece of `tail`. */
  lemma {:induction false} SplitPrefix(a: string, tail: string, c: char)
    requires c !in a
    ensures SplitOn(a + tail, [c]) == [a + SplitOn(tail, [c])[0]] + SplitOn(tail, [c])[1..]
    decreases |a|
  {
    if |a| == 0 {
      var x := SplitOn(tail, [c]);
      assert a + tail == tail && a + x[0] == x[0];
      assert [x[0]] + x[1..] == x;
    } else {
      assert a + tail == [a[0]] + (a[1..] + tail);
      assert (a + tail)[1..] == a[1..] + tail;
      assert !StartsWith(a + tail, [c]);
      SplitPrefix(a[1..], tail, c);
      assert [a[0]] + (a[1..] + SplitOn(tail, [c])[0]) == a + SplitOn(tail, [c])[0];
    }
  }

  /** Splitting a joined list on its separator gives the list back when no element holds the separator. */
  lemma {:induction false} SplitJoin(parts: seq<string>, c: char)
    requires |parts| > 0
    requires forall k :: 0 <= k < |parts| ==> c !in parts[k]
    ensures SplitOn(Join(parts, [c]), [c]) == parts
    decreases |parts|
  {
    if |parts| == 1 {
      SplitPrefix(parts[0], "", c);
      assert parts[0] + "" == parts[0];
    } else {
      var rest := Join(parts[1..], [c]);
      assert Join(parts, [c]) == parts[0] + ([c] + rest);
      SplitPrefix(parts[0], [c] + rest, c);
      assert ([c] + rest)[|[c]|..] == rest;
      SplitJoin(parts[1..], c);
      assert SplitOn([c] + rest, [c]) == [""] + parts[1..];
      assert parts[0] + "" == parts[0];
    }
  }

  /** A non-empty keyword cell splits back into the record's keywords when none holds a `'|'`. */
  lemma KeywordsRoundTrip(rec: NormalizedRecord, show: real -> string)
    requires rec.keywords.Some? && |rec.keywords.value| > 0
    requires forall k :: 0 <= k < |rec.keywords.value| ==> '|' !in rec.keywords.value[k]
    ensures SplitOn(ToCsvRow(rec, show)["keywords"], "|") == rec.keywords.value
  {
    ToCsvRowLists(rec, show);
    SplitJoin(rec.keywords.value, '|');
  }

  /**
   * `fetch_and_normalize`: download, then normalize what was downloaded. A failed download is
   * reported as is and normalization is not attempted; a failure while normalizing is reported too.
   */
  function FetchAndNormalize<Raw>(download: Result<Raw>, normalize: Raw -> Result<seq<NormalizedRecord>>)
    : (r: Result<seq<NormalizedRecord>>)
    ensures download.Err? ==> r == Err(download.error)
    ensures download.Ok? ==> r == normalize(download.value)
  {
    match download
    case Err(e) => Err(e)
    case Ok(raw) => normalize(raw)
  }

  /** When the download fails the outcome does not depend on `normalize`: it is never called. */
  lemma FailedDownloadSkipsNormalize<Raw>(download: Result<Raw>,
                                          n1: Raw -> Result<seq<NormalizedRecord>>,
                                          n2: Raw -> Result<seq<NormalizedRecord>>)
    requires download.Err?
    ensures FetchAndNormalize(download, n1) == FetchAndNormalize(download, n2)
  {
  }

  /** The `records = []; for item in items: records.append(...)` loop of every `normalize`. */
  method NormalizeEach<T>(items: seq<T>, one: T -> NormalizedRecord) returns (records: seq<NormalizedRecord>)
    ensures |records| == |items|
    ensures forall i :: 0 <= i < |items| ==> records[i] == one(items[i])
  {
    records := [];
    var i := 0;
    while i < |items|
      invariant 0 <= i <= |items|
      invariant |records| == i
      invariant forall j :: 0 <= j < i ==> records[j] == one(items[j])
    {
      records := records + [one(items[i])];
      i := i + 1;
    }
  }

  /** What a loop that keeps only the items yielding a value collects, in order. */
  function Kept<T, U>(items: seq<T>, f: T -> Option<U>): (out: seq<U>)
    ensures |out| <= |items|
    ensures forall u :: u in out ==> exists i :: 0 <= i < |items| && f(items[i]) == Some(u)
    ensures (forall i :: 0 <= i < |items| ==> f(items[i]).Some?) ==> |out| == |items|
  {
    if |items| == 0 then []
    else
      var rest := Kept(items[..|items| - 1], f);
      match f(items[|items| - 1])
      case None => rest
      case Some(u) => rest + [u]
  }

  /** The values the items yield, as a set. */
  ghost function Yielded<T, U>(items: seq<T>, f: T -> Option<U>): set<U>
    decreases |items|
  {
    if |items| == 0 then {}
    else
      var last := f(items[|items| - 1]);
      Yielded(items[..|items| - 1], f) + (if last.Some? then {last.value} else {})
  }

  /** A value is yielded exactly when some item yields it. */
  lemma {:induction false} YieldedValues<T, U>(items: seq<T>, f: T -> Option<U>)
    ensures forall u :: u in Yielded(items, f) <==> exists i :: 0 <= i < |items| && f(items[i]) == Some(u)
    decreases |items|
  {
    if |items| > 0 {
      var init := items[..|items| - 1];
      YieldedValues(init, f);
      forall u ensures u in Yielded(items, f) <==> exists i :: 0 <= i < |items| && f(items[i]) == Some(u)
      {
        if u in Yielded(init, f) {
          var i :| 0 <= i < |init| && f(init[i]) == Some(u);
          assert items[i] == init[i];
        }
        if exists i :: 0 <= i < |items| && f(items[i]) == Some(u) {
          var i :| 0 <= i < |items| && f(items[i]) == Some(u);
          if i < |init| {
            assert init[i] == items[i];
          }
        }
      }
    }
  }

  lemma YieldedStep<T, U>(items: seq<T>, i: nat, f: T -> Option<U>)
    requires i < |items|
    ensures Yielded(items[..i + 1], f) ==
      Yielded(items[..i], f) + (if f(items[i]).Some? then {f(items[i]).value} else {})
  {
    assert items[..i + 1][..i] == items[..i];
  }

  /** One more item: its value, if it yields one, follows the values before it. */
  lemma KeptStep<T, U>(items: seq<T>, i: nat, f: T -> Option<U>)
    requires i < |items|
    ensures Kept(items[..i + 1], f) == Kept(items[..i], f) + (if f(items[i]).Some? then [f(items[i]).value] else [])
  {
    assert items[..i + 1][..i] == items[..i];
    if f(items[i]).None? {
      assert Kept(items[..i], f) + [] == Kept(items[..i], f);
    }
  }

  /**
   * A loop that appends the value of each item that yields one and skips the others: a page
   * that fails to download, a row that does not describe an entry.
   */
  method KeepEach<T, U>(items: seq<T>, f: T -> Option<U>) returns (out: seq<U>)
    ensures out == Kept(items, f)
  {
    out := [];
    var i := 0;
    while i < |items|
      invariant 0 <= i <= |items|
      invariant out == Kept(items[..i], f)
    {
      KeptStep(items, i, f);
      var r := f(items[i]);
      if r.Some? {
        out := out + [r.value];
      }
      i := i + 1;
    }
    assert items[..i] == items;
  }
}
