/**
 * The one-off date fixer: rewrites `published_date` and `last_updated` of the records whose
 * id has a known good date, and writes the table back under its original header.
 */
module FixDates {
  import opened Wrappers
  import opened Text
  import Dates
  import RemoveDuplicates
  import opened CsvTable

  /** Known good dates, by record id. */
  const FIXED_DATES: map<string, string> :=
    CC_GUIDANCE_DATES + CC_CASE_DATES + CC_CASE_DATES_VERIFIED + HSE_GUIDANCE_DATES

  /** Charity Commission guidance pages. */
  const CC_GUIDANCE_DATES: map<string, string> := map[
    "CC_guidance_making-decisions-at-a-charity" := "2018-05-01",
    "CC_guidance_managing-charity-finances" := "2018-04-10",
    "CC_guidance_managing-conflicts-of-interest-in-a-charity" := "2019-05-06",
    "CC_guidance_what-to-send-to-the-charity-commission-and-how-to-get-help" := "2018-06-15"
  ]

  /** Charity Commission inquiry reports. */
  const CC_CASE_DATES: map<string, string> := map[
    "CC_case_1100416_unknown" := "2023-10-20",
    "CC_case_1142005_unknown" := "2023-07-01",
    "CC_case_1117893_unknown" := "2023-11-05",
    "CC_case_1127466_unknown" := "2023-07-03",
    "CC_case_1136163_unknown" := "2023-02-28",
    "CC_case_1122974_unknown" := "2023-01-22",
    "CC_case_1159575_unknown" := "2023-12-19",
    "CC_case_1164018_unknown" := "2023-12-05",
    "CC_case_1189808_unknown" := "2023-11-21",
    "CC_case_1143110_unknown" := "2023-11-15"
  ]

  /** Further inquiry reports whose scraped dates were placeholders. */
  const CC_CASE_DATES_VERIFIED: map<string, string> := map[
    "CC_case_1160575_unknown" := "2024-10-24",
    "CC_case_1058334_unknown" := "2024-10-18",
    "CC_case_517381_unknown" := "2024-10-17",
    "CC_case_1159995_unknown" := "2024-09-26",
    "CC_case_1155658_unknown" := "2024-09-05",
    "CC_case_1149924_unknown" := "2024-09-05",
    "CC_case_1152988_unknown" := "2024-08-22",
    "CC_case_1180264_unknown" := "2024-07-19",
    "CC_case_1026493_unknown" := "2024-07-12",
    "CC_case_1111470_unknown" := "2024-07-08",
    "CC_case_1149828_unknown" := "2024-05-22",
    "CC_case_1014419_unknown" := "2024-05-14",
    "CC_case_1014813_unknown" := "2024-04-25",
    "CC_case_1026816_unknown" := "2024-04-24",
    "CC_case_1026963_unknown" := "2024-04-16",
    "CC_case_1098071_unknown" := "2024-03-06",
    "CC_case_1176670_unknown" := "2024-01-25",
    "CC_case_1175877_unknown" := "2025-04-23"
  ]

  /** Health and Safety Executive guidance pages. */
  const HSE_GUIDANCE_DATES: map<string, string> := map[
    "HSE_guidance_protecting-volunteers-in-charity-shops-and-fundraising" := "2021-06-15",
    "HSE_guidance_volunteering-how-to-manage-the-risks" := "2021-03-22",
    "HSE_guidance_does-health-and-safety-legislation-apply-to-volunteers" := "2020-09-18",
    "HSE_guidance_managing-risks-and-risk-assessment-at-work" := "2022-01-13"
  ]

  /** A good date: `YYYY-MM-DD` and none of the placeholder dates. */
  predicate RealDate(d: string)
  {
    Dates.IsIsoShaped(d) && !RemoveDuplicates.IsPlaceholder(d)
  }

  lemma CcGuidanceDatesAreReal()
    ensures forall id :: id in CC_GUIDANCE_DATES ==> RealDate(CC_GUIDANCE_DATES[id])
  {
  }

  lemma CcCaseDatesAreReal()
    ensures forall id :: id in CC_CASE_DATES ==> RealDate(CC_CASE_DATES[id])
  {
  }

  lemma CcCaseDatesVerifiedAreReal()
    ensures forall id :: id in CC_CASE_DATES_VERIFIED ==> RealDate(CC_CASE_DATES_VERIFIED[id])
  {
  }

  lemma HseGuidanceDatesAreReal()
    ensures forall id :: id in HSE_GUIDANCE_DATES ==> RealDate(HSE_GUIDANCE_DATES[id])
  {
  }

  /** Every known good date is a `YYYY-MM-DD` date and none is a placeholder date. */
  lemma FixedDatesAreReal()
    ensures forall id :: id in FIXED_DATES ==> RealDate(FIXED_DATES[id])
  {
    CcGuidanceDatesAreReal();
    CcCaseDatesAreReal();
    CcCaseDatesVerifiedAreReal();
    HseGuidanceDatesAreReal();
  }

  /** `record.get('id') in dates` */
  predicate Fixable(r: Row, dates: map<string, string>)
  {
    "id" in r && r["id"] in dates
  }

  /** One record after the fix: both dates set to the known date when its id has one. */
  function PatchRow(r: Row, dates: map<string, string>): (p: Row)
    ensures Fixable(r, dates) ==> (p.Keys == r.Keys + {"published_date", "last_updated"} &&
      p["published_date"] == dates[r["id"]] && p["last_updated"] == dates[r["id"]])
    ensures !Fixable(r, dates) ==> p == r
    ensures forall k :: k in r && k != "published_date" && k != "last_updated" ==> k in p && p[k] == r[k]
  {
    if Fixable(r, dates) then r["published_date" := dates[r["id"]]]["last_updated" := dates[r["id"]]]
    else r
  }

  /** The table after the fix, record by record and in the same order. */
  function Patched(rows: seq<Row>, dates: map<string, string>): (out: seq<Row>)
    ensures |out| == |rows|
  {
    seq(|rows|, i requires 0 <= i < |rows| => PatchRow(rows[i], dates))
  }

  /** The number of records whose id has a known date. */
  function Updates(rows: seq<Row>, dates: map<string, string>): (n: nat)
    ensures n <= |rows|
  {
    if |rows| == 0 then 0
    else Updates(rows[..|rows| - 1], dates) + (if Fixable(rows[|rows| - 1], dates) then 1 else 0)
  }

  /** Fixing keeps the id, so a fixed record is fixable exactly when the original was. */
  lemma PatchRowKeepsId(r: Row, dates: map<string, string>)
    ensures "id" in PatchRow(r, dates) <==> "id" in r
    ensures "id" in r ==> PatchRow(r, dates)["id"] == r["id"]
    ensures Fixable(PatchRow(r, dates), dates) <==> Fixable(r, dates)
  {
  }

  /** A record fixed by the known dates carries a real publication date, so duplicate removal prefers it. */
  lemma PatchedRecordIsDated(r: Row)
    requires Fixable(r, FIXED_DATES)
    ensures !RemoveDuplicates.IsPlaceholder(RemoveDuplicates.PublishedDate(PatchRow(r, FIXED_DATES)))
  {
    FixedDatesAreReal();
  }

  /** Running the fixer twice gives the same table as running it once. */
  lemma PatchedIdempotent(rows: seq<Row>, dates: map<string, string>)
    ensures Patched(Patched(rows, dates), dates) == Patched(rows, dates)
  {
    forall i | 0 <= i < |rows|
      ensures PatchRow(PatchRow(rows[i], dates), dates) == PatchRow(rows[i], dates)
    {
      PatchRowKeepsId(rows[i], dates);
    }
  }

  /** A second run reports as many updates as the first. */
  lemma {:induction false} UpdatesStable(rows: seq<Row>, dates: map<string, string>)
    ensures Updates(Patched(rows, dates), dates) == Updates(rows, dates)
    decreases |rows|
  {
    if |rows| > 0 {
      var n := |rows| - 1;
      assert Patched(rows, dates)[..n] == Patched(rows[..n], dates);
      UpdatesStable(rows[..n], dates);
      PatchRowKeepsId(rows[n], dates);
    }
  }

  /** With no fixable record the table is left exactly as it was. */
  lemma {:induction false} NoUpdatesNoChange(rows: seq<Row>, dates: map<string, string>)
    requires Updates(rows, dates) == 0
    ensures Patched(rows, dates) == rows
    decreases |rows|
  {
    if |rows| > 0 {
      var n := |rows| - 1;
      NoUpdatesNoChange(rows[..n], dates);
      assert Patched(rows, dates)[..n] == Patched(rows[..n], dates);
      assert rows == rows[..n] + [rows[n]];
    }
  }

  /** The update loop of `patch_csv`, fixing each record dictionary in place. */
  method PatchRows(records: array<Row>, dates: map<string, string>) returns (updates: nat)
    modifies records
    ensures records[..] == Patched(old(records[..]), dates)
    ensures updates == Updates(old(records[..]), dates)
  {
    ghost var original := records[..];
    updates := 0;
    var i := 0;
    while i < records.Length
      invariant 0 <= i <= records.Length
      invariant forall j :: 0 <= j < i ==> records[j] == PatchRow(original[j], dates)
      invariant forall j :: i <= j < records.Length ==> records[j] == original[j]
      invariant updates == Updates(original[..i], dates)
    {
      var record := records[i];
      assert original[..i + 1][..i] == original[..i];
      if "id" in record && record["id"] in dates {
        var date := dates[record["id"]];
        records[i] := record["published_date" := date]["last_updated" := date];
        updates := updates + 1;
      }
      i := i + 1;
    }
    assert original[..i] == original;
    assert records[..] == Patched(original, dates);
  }

  /** How a run ends: no file, the number of updates, or the exception that stopped the write. */
  datatype Outcome = NoFile | Done(updates: nat) | Raised(error: string)

  /**
   * `patch_csv`: with no file nothing happens. Otherwise the records are fixed, the file is
   * reopened for writing (which empties it) and rewritten under the header it had; the write
   * stops at the first fixed row holding a field the header lacks, and an empty file has no
   * header to write.
   */
  method PatchCsv(file: Option<CsvFile>) returns (after: Option<CsvFile>, outcome: Outcome)
    ensures file.None? ==> after.None? && outcome == NoFile
    ensures file.Some? && file.value.header.None? ==>
      after == Some(CsvFile(None, [])) && outcome.Raised?
    ensures file.Some? && file.value.header.Some? ==>
      var fieldnames := file.value.header.value;
      var fixed := Patched(file.value.rows, FIXED_DATES);
      var n := FirstMisfit(fieldnames, fixed);
      after == Some(CsvFile(Some(fieldnames), AllWritten(fieldnames, fixed[..n]))) &&
      (n == |fixed| ==> outcome == Done(Updates(file.value.rows, FIXED_DATES))) &&
      (n < |fixed| ==> outcome.Raised?)
  {
    if file.None? {
      return None, NoFile;
    }
    var rows := file.value.rows;
    var records := new Row[|rows|](i requires 0 <= i < |rows| => rows[i]);
    assert records[..] == rows;
    var updates := PatchRows(records, FIXED_DATES);
    if file.value.header.None? {
      return Some(CsvFile(None, [])), Raised("TypeError: 'NoneType' object is not iterable");
    }
    var fieldnames := file.value.header.value;
    var fixed := records[..];
    var n := FirstMisfit(fieldnames, fixed);
    after := Some(CsvFile(Some(fieldnames), AllWritten(fieldnames, fixed[..n])));
    if n == |fixed| {
      outcome := Done(updates);
    } else {
      outcome := Raised("ValueError: dict contains fields not in fieldnames");
    }
  }

  /**
   * For a table read from a file whose header has both date columns, the run succeeds and the
   * file then holds exactly the fixed table.
   */
  lemma WellFormedFileIsRewritten(fieldnames: seq<string>, rows: seq<Row>, dates: map<string, string>)
    requires "published_date" in fieldnames && "last_updated" in fieldnames
    requires forall i :: 0 <= i < |rows| ==> rows[i].Keys == set f | f in fieldnames
    ensures FirstMisfit(fieldnames, Patched(rows, dates)) == |rows|
    ensures AllWritten(fieldnames, Patched(rows, dates)) == Patched(rows, dates)
  {
    var fixed := Patched(rows, dates);
    forall i | 0 <= i < |rows|
      ensures fixed[i].Keys == set f | f in fieldnames
    {
      assert fixed[i] == PatchRow(rows[i], dates);
    }
    forall i | 0 <= i < |rows|
      ensures AllWritten(fieldnames, fixed)[i] == fixed[i]
    {
      AsWrittenExact(fieldnames, fixed[i]);
    }
    FirstMisfitAll(fieldnames, fixed);
  }
}
