/**
 * The orchestrator: load the persisted table keyed by id, run the selected source adapters
 * (skipping unknown keys and failing adapters), merge the new records into the table with
 * "strictly newer `last_updated` wins", and write the table sorted by `published_date`,
 * newest first.
 *
 * A Python dictionary keyed by id is modelled as a sequence of rows in insertion order whose
 * `"id"` values are pairwise distinct (`Keyed`); assigning to an existing key replaces the row
 * in place, a new key is appended.
 */
module RunCharityUpdate {
  import opened Wrappers
  import opened Text
  import opened Collections
  import opened AdapterBase

  /** The column order of the persisted CSV. */
  const CSV_COLUMNS: seq<string> := [
    "id", "title", "summary", "source_url", "published_date", "last_updated",
    "regulator", "domain", "document_type", "charity_number", "charity_name",
    "charity_income_band", "risk_level", "case_id", "case_status", "outcome",
    "issues_identified", "sanctions_regime", "designated_by", "fine_amount",
    "keywords"]

  /** The source registry keys, in registry order. */
  const SOURCES: seq<string> := [
    "cc", "cc_guidance", "ico", "hse", "hmrc", "fr",
    "safeguarding", "data_protection", "financial_reporting", "risk_management", "anti_fraud"]

  /** The persisted columns are exactly the keys a serialised record carries. */
  lemma CsvColumnsMatchRecordRows()
    ensures |CSV_COLUMNS| == 21 && Distinct(CSV_COLUMNS)
    ensures forall c :: c in CSV_COLUMNS <==> c in ROW_KEYS
  {
  }

  // ---------------------------------------------------------------------------------------
  // The id-keyed table

  /** Every row has an `"id"` and no two rows share one. */
  predicate Keyed(t: seq<Row>)
  {
    (forall i :: 0 <= i < |t| ==> "id" in t[i]) &&
    (forall i, j :: 0 <= i < j < |t| ==> t[i]["id"] != t[j]["id"])
  }

  predicate HasId(rows: seq<Row>)
  {
    forall i :: 0 <= i < |rows| ==> "id" in rows[i]
  }

  /** The ids present in a sequence of rows. */
  function Ids(rows: seq<Row>): set<string>
  {
    set i | 0 <= i < |rows| && "id" in rows[i] :: rows[i]["id"]
  }

  /** The position of the row with id `k`, if any. */
  function Find(t: seq<Row>, k: string): (r: Option<nat>)
    ensures r.Some? ==> r.value < |t| && "id" in t[r.value] && t[r.value]["id"] == k
    ensures r.None? ==> k !in Ids(t)
  {
    if |t| == 0 then None
    else if "id" in t[0] && t[0]["id"] == k then Some(0)
    else
      match Find(t[1..], k)
      case None =>
        assert forall i :: 1 <= i < |t| ==> t[i] == t[1..][i - 1];
        None
      case Some(j) => Some(j + 1)
  }

  /** `d.get(k)`: the row stored under id `k`. */
  function Lookup(t: seq<Row>, k: string): Option<Row>
  {
    match Find(t, k)
    case None => None
    case Some(j) => Some(t[j])
  }

  /** In a keyed table the row at any position is the one stored under its id. */
  lemma LookupAt(t: seq<Row>, i: nat)
    requires Keyed(t) && i < |t|
    ensures Lookup(t, t[i]["id"]) == Some(t[i])
  {
  }

  /** `d[row['id']] = row` */
  function Put(t: seq<Row>, row: Row): seq<Row>
    requires "id" in row
  {
    match Find(t, row["id"])
    case None => t + [row]
    case Some(j) => t[j := row]
  }

  /** `row.get('last_updated', '')` */
  function LastUpdated(row: Row): string
  {
    Get(row, "last_updated", "")
  }

  /** One step of `merge_records`: add a new id; replace an existing one only when strictly newer. */
  function Upsert(t: seq<Row>, row: Row): seq<Row>
    requires "id" in row
  {
    match Lookup(t, row["id"])
    case None => Put(t, row)
    case Some(stored) => if StrLess(LastUpdated(stored), LastUpdated(row)) then Put(t, row) else t
  }

  /** The merge of a batch of rows, one row at a time, in batch order. */
  function MergeAll(t: seq<Row>, rows: seq<Row>): seq<Row>
    requires HasId(rows)
    decreases |rows|
  {
    if |rows| == 0 then t
    else Upsert(MergeAll(t, rows[..|rows| - 1]), rows[|rows| - 1])
  }

  lemma FindInKeyed(t: seq<Row>, i: nat)
    requires Keyed(t) && i < |t|
    ensures Find(t, t[i]["id"]) == Some(i)
  {
  }

  lemma IdsSnoc(t: seq<Row>, row: Row)
    requires "id" in row
    ensures Ids(t + [row]) == Ids(t) + {row["id"]}
  {
    var u := t + [row];
    assert u[|t|] == row;
    forall k | k in Ids(t) ensures k in Ids(u)
    {
      var i :| 0 <= i < |t| && "id" in t[i] && t[i]["id"] == k;
      assert u[i] == t[i];
    }
  }

  lemma IdsUpdate(t: seq<Row>, j: nat, row: Row)
    requires Keyed(t) && j < |t| && "id" in row && row["id"] == t[j]["id"]
    ensures Ids(t[j := row]) == Ids(t)
  {
    var u := t[j := row];
    forall k | k in Ids(t) ensures k in Ids(u)
    {
      var i :| 0 <= i < |t| && "id" in t[i] && t[i]["id"] == k;
      assert "id" in u[i] && u[i]["id"] == k;
    }
    forall k | k in Ids(u) ensures k in Ids(t)
    {
      var i :| 0 <= i < |u| && "id" in u[i] && u[i]["id"] == k;
      assert "id" in t[i] && t[i]["id"] == k;
    }
  }

  /**
   * Storing a row keeps the table keyed, keeps the id at every old position, adds the row's
   * id, stores the row under its id and leaves every other id's row alone.
   */
  lemma PutShape(t: seq<Row>, row: Row)
    requires Keyed(t) && "id" in row
    ensures Keyed(Put(t, row))
    ensures Ids(Put(t, row)) == Ids(t) + {row["id"]}
    ensures |Put(t, row)| >= |t|
    ensures forall i :: 0 <= i < |t| ==> Put(t, row)[i]["id"] == t[i]["id"]
    ensures forall k :: Lookup(Put(t, row), k) == if k == row["id"] then Some(row) else Lookup(t, k)
  {
    var u := Put(t, row);
    match Find(t, row["id"])
    case None =>
      IdsSnoc(t, row);
    case Some(j) =>
      IdsUpdate(t, j, row);
      assert row["id"] in Ids(t);
    forall k ensures Lookup(u, k) == if k == row["id"] then Some(row) else Lookup(t, k)
    {
      PutLookup(t, row, k);
    }
  }

  /** Appending a row only adds a match for its own id, after any earlier one. */
  lemma {:induction false} FindAppend(t: seq<Row>, row: Row, k: string)
    requires "id" in row
    ensures Find(t + [row], k) ==
      if Find(t, k).Some? then Find(t, k) else if row["id"] == k then Some(|t|) else None
    decreases |t|
  {
    if |t| > 0 {
      assert (t + [row])[1..] == t[1..] + [row];
      FindAppend(t[1..], row, k);
    }
  }

  /** Find looks at ids only: rows carrying the same ids at the same positions find alike. */
  lemma {:induction false} FindSameIds(t: seq<Row>, u: seq<Row>, k: string)
    requires |t| == |u|
    requires forall i :: 0 <= i < |t| ==> ("id" in t[i] <==> "id" in u[i])
    requires forall i :: 0 <= i < |t| && "id" in t[i] ==> t[i]["id"] == u[i]["id"]
    ensures Find(t, k) == Find(u, k)
    decreases |t|
  {
    if |t| > 0 {
      FindSameIds(t[1..], u[1..], k);
    }
  }

  lemma PutLookup(t: seq<Row>, row: Row, k: string)
    requires Keyed(t) && "id" in row
    ensures Lookup(Put(t, row), k) == if k == row["id"] then Some(row) else Lookup(t, k)
  {
    match Find(t, row["id"])
    case None =>
      FindAppend(t, row, k);
    case Some(j) =>
      FindSameIds(t, t[j := row], k);
      if Find(t, k).Some? {
        FindInKeyed(t, Find(t, k).value);
      }
  }

  /** An upsert keeps the table keyed, keeps the id at every old position, and adds the row's id. */
  lemma UpsertShape(t: seq<Row>, row: Row)
    requires Keyed(t) && "id" in row
    ensures Keyed(Upsert(t, row))
    ensures Ids(Upsert(t, row)) == Ids(t) + {row["id"]}
    ensures |Upsert(t, row)| >= |t|
    ensures forall i :: 0 <= i < |t| ==> Upsert(t, row)[i]["id"] == t[i]["id"]
  {
    PutShape(t, row);
    if Lookup(t, row["id"]).Some? {
      assert row["id"] in Ids(t);
    }
  }

  /**
   * What an upsert stores: the row's id maps to the row when the id was new or the row is
   * strictly newer than the stored one, and to the stored row otherwise; every other id keeps
   * its row.
   */
  lemma UpsertLookup(t: seq<Row>, row: Row, k: string)
    requires Keyed(t) && "id" in row
    ensures (k == row["id"] && (Lookup(t, k).None? || StrLess(LastUpdated(Lookup(t, k).value), LastUpdated(row))))
            ==> Lookup(Upsert(t, row), k) == Some(row)
    ensures (k == row["id"] && Lookup(t, k).Some? && !StrLess(LastUpdated(Lookup(t, k).value), LastUpdated(row)))
            ==> Lookup(Upsert(t, row), k) == Lookup(t, k)
    ensures k != row["id"] ==> Lookup(Upsert(t, row), k) == Lookup(t, k)
  {
    PutLookup(t, row, k);
  }

  /** The merge keeps the table keyed and its ids are the old ids and the batch's ids. */
  lemma {:induction false} MergeShape(t: seq<Row>, rows: seq<Row>)
    requires Keyed(t) && HasId(rows)
    ensures Keyed(MergeAll(t, rows))
    ensures Ids(MergeAll(t, rows)) == Ids(t) + Ids(rows)
    ensures |MergeAll(t, rows)| >= |t|
    ensures forall i :: 0 <= i < |t| ==> MergeAll(t, rows)[i]["id"] == t[i]["id"]
    decreases |rows|
  {
    if |rows| > 0 {
      var init := rows[..|rows| - 1];
      var last := rows[|rows| - 1];
      MergeShape(t, init);
      UpsertShape(MergeAll(t, init), last);
      assert rows == init + [last];
      IdsSnoc(init, last);
    }
  }

  /** An existing row whose id the batch does not carry comes out unchanged. */
  lemma {:induction false} MergeKeepsOthers(t: seq<Row>, rows: seq<Row>, k: string)
    requires Keyed(t) && HasId(rows) && k !in Ids(rows)
    ensures Lookup(MergeAll(t, rows), k) == Lookup(t, k)
    decreases |rows|
  {
    if |rows| > 0 {
      var init := rows[..|rows| - 1];
      var last := rows[|rows| - 1];
      assert rows == init + [last];
      IdsSnoc(init, last);
      MergeKeepsOthers(t, init, k);
      MergeShape(t, init);
      UpsertLookup(MergeAll(t, init), last, k);
    }
  }

  /**
   * Merging rows that are already stored under their ids changes nothing; an empty batch is
   * the special case with no rows at all.
   */
  lemma {:induction false} MergeStoredIsNoOp(t: seq<Row>, rows: seq<Row>)
    requires Keyed(t) && HasId(rows)
    requires forall i :: 0 <= i < |rows| ==> Lookup(t, rows[i]["id"]) == Some(rows[i])
    ensures MergeAll(t, rows) == t
    decreases |rows|
  {
    if |rows| > 0 {
      var init := rows[..|rows| - 1];
      var last := rows[|rows| - 1];
      MergeStoredIsNoOp(t, init);
      StrLessIrreflexive(LastUpdated(last));
    }
  }

  /**
   * Two rows with the same new id in one batch: the later one replaces the earlier one only
   * when its `last_updated` is strictly greater.
   */
  lemma RepeatedIdInBatch(t: seq<Row>, r1: Row, r2: Row)
    requires Keyed(t) && "id" in r1 && "id" in r2 && r1["id"] == r2["id"] && r1["id"] !in Ids(t)
    ensures Lookup(MergeAll(t, [r1, r2]), r1["id"]) ==
            Some(if StrLess(LastUpdated(r1), LastUpdated(r2)) then r2 else r1)
  {
    var k := r1["id"];
    assert [r1, r2][..1] == [r1];
    assert [r1][..0] == [];
    assert MergeAll(t, [r1]) == Upsert(t, r1);
    assert MergeAll(t, [r1, r2]) == Upsert(Upsert(t, r1), r2);
    assert Lookup(t, k).None?;
    UpsertLookup(t, r1, k);
    UpsertShape(t, r1);
    UpsertLookup(Upsert(t, r1), r2, k);
  }

  /** The serialised form of each new record, in batch order. */
  function CsvRows(records: seq<NormalizedRecord>, show: real -> string): (rows: seq<Row>)
    ensures |rows| == |records| && HasId(rows)
    ensures forall i :: 0 <= i < |rows| ==> rows[i] == ToCsvRow(records[i], show)
  {
    seq(|records|, i requires 0 <= i < |records| => ToCsvRow(records[i], show))
  }

  /**
   * `merge_records`: copy the existing table, then upsert each new record's row, replacing a
   * stored row only when the new `last_updated` is strictly greater.
   */
  method MergeRecords(existing: seq<Row>, newRecords: seq<NormalizedRecord>, show: real -> string)
    returns (merged: seq<Row>)
    ensures merged == MergeAll(existing, CsvRows(newRecords, show))
  {
    ghost var rows := CsvRows(newRecords, show);
    merged := existing;
    var i := 0;
    assert rows[..0] == [];
    while i < |newRecords|
      invariant 0 <= i <= |newRecords| && |rows| == |newRecords| && HasId(rows)
      invariant HasId(rows[..i]) && merged == MergeAll(existing, rows[..i])
    {
      var row := ToCsvRow(newRecords[i], show);
      assert rows[..i + 1][..i] == rows[..i] && rows[..i + 1][i] == row;
      assert MergeAll(existing, rows[..i + 1]) == Upsert(merged, row);
      var recordId := row["id"];
      var found := Lookup(merged, recordId);
      if found.Some? {
        var existingDate := Get(found.value, "last_updated", "");
        var newDate := Get(row, "last_updated", "");
        if StrLess(existingDate, newDate) {
          merged := Put(merged, row);
        }
      } else {
        merged := Put(merged, row);
      }
      i := i + 1;
    }
    assert rows[..i] == rows;
  }

  // ---------------------------------------------------------------------------------------
  // Loading the persisted table

  /** The rows stored by `records[row['id']] = row` over a sequence of rows. */
  function PutAll(rows: seq<Row>): seq<Row>
    requires HasId(rows)
    decreases |rows|
  {
    if |rows| == 0 then [] else Put(PutAll(rows[..|rows| - 1]), rows[|rows| - 1])
  }

  /** The last row of `rows` with id `k`. */
  function LastWithId(rows: seq<Row>, k: string): Option<Row>
    requires HasId(rows)
    decreases |rows|
  {
    if |rows| == 0 then None
    else if rows[|rows| - 1]["id"] == k then Some(rows[|rows| - 1])
    else LastWithId(rows[..|rows| - 1], k)
  }

  /** Loading keeps one row per id, and the row kept for an id is the last one read with it. */
  lemma {:induction false} PutAllLookup(rows: seq<Row>, k: string)
    requires HasId(rows)
    ensures Keyed(PutAll(rows))
    ensures Lookup(PutAll(rows), k) == LastWithId(rows, k)
    decreases |rows|
  {
    if |rows| > 0 {
      var init := rows[..|rows| - 1];
      PutAllLookup(init, k);
      PutShape(PutAll(init), rows[|rows| - 1]);
    }
  }

  /**
   * `load_existing_records`: `None` stands for a missing file, which gives an empty table; a
   * row without an `id` column makes the load fail.
   */
  method LoadExistingRecords(file: Option<seq<Row>>) returns (records: Option<seq<Row>>)
    ensures file.None? ==> records == Some([])
    ensures file.Some? && !HasId(file.value) ==> records.None?
    ensures file.Some? && HasId(file.value) ==> records == Some(PutAll(file.value))
  {
    if file.None? {
      return Some([]);
    }
    var rows := file.value;
    var t: seq<Row> := [];
    var i := 0;
    while i < |rows|
      invariant 0 <= i <= |rows|
      invariant HasId(rows[..i]) && t == PutAll(rows[..i])
    {
      if "id" !in rows[i] {
        return None;
      }
      assert rows[..i + 1][..i] == rows[..i];
      t := Put(t, rows[i]);
      i := i + 1;
    }
    assert rows[..i] == rows;
    return Some(t);
  }

  // ---------------------------------------------------------------------------------------
  // Writing the table

  /** `r.get('published_date', '')`, the sort key of `save_records`. */
  function PublishedDate(row: Row): string
  {
    Get(row, "published_date", "")
  }

  /** Inserts `x` in front of the first row whose date is not greater than its own. */
  function Insert(x: Row, ys: seq<Row>): (r: seq<Row>)
    ensures multiset(r) == multiset([x] + ys)
    ensures forall z :: z in r <==> z == x || z in ys
    decreases |ys|
  {
    if |ys| == 0 || !StrLess(PublishedDate(x), PublishedDate(ys[0])) then [x] + ys
    else
      assert ys == [ys[0]] + ys[1..];
      [ys[0]] + Insert(x, ys[1..])
  }

  /**
   * `sorted(records, key=published_date, reverse=True)`: stable, newest first. Built from the
   * back, each row goes before the rows of equal date that follow it in the input.
   */
  function SortByDateDesc(rows: seq<Row>): (r: seq<Row>)
    ensures multiset(r) == multiset(rows)
    decreases |rows|
  {
    if |rows| == 0 then []
    else
      assert rows == [rows[0]] + rows[1..];
      Insert(rows[0], SortByDateDesc(rows[1..]))
  }

  predicate NewestFirst(rows: seq<Row>)
  {
    forall i, j :: 0 <= i < j < |rows| ==> !StrLess(PublishedDate(rows[i]), PublishedDate(rows[j]))
  }

  /** `!(a < b)` is transitive, since `<` on strings is a strict total order. */
  lemma NotLessTransitive(a: string, b: string, c: string)
    requires !StrLess(a, b) && !StrLess(b, c)
    ensures !StrLess(a, c)
  {
    StrLessTotal(a, b);
    StrLessTotal(b, c);
    if StrLess(a, c) {
      if a == b {
      } else if b == c {
      } else {
        StrLessTransitive(c, b, a);
        StrLessAsymmetric(a, c);
      }
    }
  }

  /** A row not older than any row of a newest-first sequence can go in front of it. */
  lemma ConsNewestFirst(y: Row, s: seq<Row>)
    requires NewestFirst(s)
    requires forall z :: z in s ==> !StrLess(PublishedDate(y), PublishedDate(z))
    ensures NewestFirst([y] + s)
  {
    var r := [y] + s;
    forall i, j | 0 <= i < j < |r|
      ensures !StrLess(PublishedDate(r[i]), PublishedDate(r[j]))
    {
      if i == 0 {
        assert r[j] == s[j - 1];
      } else {
        assert r[i] == s[i - 1] && r[j] == s[j - 1];
      }
    }
  }

  lemma {:induction false} InsertSorted(x: Row, ys: seq<Row>)
    requires NewestFirst(ys)
    ensures NewestFirst(Insert(x, ys))
    decreases |ys|
  {
    if |ys| == 0 || !StrLess(PublishedDate(x), PublishedDate(ys[0])) {
      forall z | z in ys
        ensures !StrLess(PublishedDate(x), PublishedDate(z))
      {
        var m :| 0 <= m < |ys| && ys[m] == z;
        if m > 0 {
          NotLessTransitive(PublishedDate(x), PublishedDate(ys[0]), PublishedDate(z));
        }
      }
      ConsNewestFirst(x, ys);
    } else {
      var rest := ys[1..];
      assert NewestFirst(rest) by {
        forall i, j | 0 <= i < j < |rest|
          ensures !StrLess(PublishedDate(rest[i]), PublishedDate(rest[j]))
        {
          assert rest[i] == ys[i + 1] && rest[j] == ys[j + 1];
        }
      }
      InsertSorted(x, rest);
      StrLessAsymmetric(PublishedDate(x), PublishedDate(ys[0]));
      forall z | z in Insert(x, rest)
        ensures !StrLess(PublishedDate(ys[0]), PublishedDate(z))
      {
        if z != x {
          var m :| 0 <= m < |rest| && rest[m] == z;
          assert ys[m + 1] == z;
        }
      }
      ConsNewestFirst(ys[0], Insert(x, rest));
    }
  }

  /** The sorted table is non-increasing in `published_date`. */
  lemma {:induction false} SortIsNewestFirst(rows: seq<Row>)
    ensures NewestFirst(SortByDateDesc(rows))
    decreases |rows|
  {
    if |rows| > 0 {
      SortIsNewestFirst(rows[1..]);
      InsertSorted(rows[0], SortByDateDesc(rows[1..]));
    }
  }

  /** The rows carrying date `d`, in order. */
  function WithDate(rows: seq<Row>, d: string): seq<Row>
  {
    if |rows| == 0 then []
    else (if PublishedDate(rows[0]) == d then [rows[0]] else []) + WithDate(rows[1..], d)
  }

  lemma {:induction false} InsertStable(x: Row, ys: seq<Row>, d: string)
    ensures WithDate(Insert(x, ys), d) == WithDate([x] + ys, d)
    decreases |ys|
  {
    if |ys| == 0 || !StrLess(PublishedDate(x), PublishedDate(ys[0])) {
    } else {
      InsertStable(x, ys[1..], d);
      StrLessIrreflexive(PublishedDate(x));
      var r := Insert(x, ys);
      assert r[1..] == Insert(x, ys[1..]);
      assert ([x] + ys)[1..] == ys;
      assert ([x] + ys[1..])[1..] == ys[1..];
      assert ys[1..] == ys[1..];
    }
  }

  /** Sorting is stable: rows with equal dates keep their input order. */
  lemma {:induction false} SortIsStable(rows: seq<Row>, d: string)
    ensures WithDate(SortByDateDesc(rows), d) == WithDate(rows, d)
    decreases |rows|
  {
    if |rows| > 0 {
      SortIsStable(rows[1..], d);
      InsertStable(rows[0], SortByDateDesc(rows[1..]), d);
      assert ([rows[0]] + SortByDateDesc(rows[1..]))[1..] == SortByDateDesc(rows[1..]);
    }
  }

  /** `DictWriter(fieldnames=CSV_COLUMNS, extrasaction='ignore')`: the columns only, missing ones empty. */
  function Project(row: Row): (r: Row)
    ensures r.Keys == set c | c in CSV_COLUMNS
    ensures forall c :: c in CSV_COLUMNS ==> r[c] == Get(row, c, "")
  {
    map c | c in CSV_COLUMNS :: Get(row, c, "")
  }

  /** `save_records`: the rows written below the header, newest first. */
  function SaveRecords(records: seq<Row>): (written: seq<Row>)
    ensures |written| == |records|
  {
    var sorted := SortByDateDesc(records);
    seq(|sorted|, i requires 0 <= i < |sorted| => Project(sorted[i]))
  }

  /** `sorted` is `records` newest first, rows of equal date in their input order. */
  ghost predicate StablyNewestFirst(sorted: seq<Row>, records: seq<Row>)
  {
    multiset(sorted) == multiset(records) && NewestFirst(sorted) &&
    forall d :: WithDate(sorted, d) == WithDate(records, d)
  }

  lemma SortFacts(records: seq<Row>)
    ensures |SortByDateDesc(records)| == |records| && StablyNewestFirst(SortByDateDesc(records), records)
  {
    SortIsNewestFirst(records);
    forall d ensures WithDate(SortByDateDesc(records), d) == WithDate(records, d)
    {
      SortIsStable(records, d);
    }
    assert |multiset(SortByDateDesc(records))| == |multiset(records)|;
  }

  /** What is written is the projection of a newest-first, stable permutation of the table. */
  lemma SaveRecordsOrder(records: seq<Row>)
    ensures exists sorted: seq<Row> ::
      StablyNewestFirst(sorted, records) && |sorted| == |SaveRecords(records)| &&
      forall i :: 0 <= i < |sorted| ==> SaveRecords(records)[i] == Project(sorted[i])
  {
    var sorted := SortByDateDesc(records);
    SortFacts(records);
    assert forall i :: 0 <= i < |sorted| ==> SaveRecords(records)[i] == Project(sorted[i]);
  }

  // ---------------------------------------------------------------------------------------
  // The pipeline

  /** `sources if sources else list(SOURCES.keys())` */
  function SourcesToRun(sources: Option<seq<string>>): (keys: seq<string>)
    ensures sources.None? || |sources.value| == 0 ==> keys == SOURCES
    ensures sources.Some? && |sources.value| > 0 ==> keys == sources.value
  {
    if sources.Some? && |sources.value| > 0 then sources.value else SOURCES
  }

  /** What one source key contributes: the adapter's records, or nothing when unknown or failing. */
  function Contribution(key: string, fetch: string -> Result<seq<NormalizedRecord>>): seq<NormalizedRecord>
  {
    if key in SOURCES && fetch(key).Ok? then fetch(key).value else []
  }

  /** The new records of a run: the contributions of the keys, in key order. */
  function Collected(keys: seq<string>, fetch: string -> Result<seq<NormalizedRecord>>): seq<NormalizedRecord>
    decreases |keys|
  {
    if |keys| == 0 then []
    else Collected(keys[..|keys| - 1], fetch) + Contribution(keys[|keys| - 1], fetch)
  }

  /**
   * A failing or unknown source neither aborts the run nor changes what the other sources
   * contribute: the collected records of `a + b` are those of `a` followed by those of `b`.
   */
  lemma {:induction false} CollectedAppend(a: seq<string>, b: seq<string>, fetch: string -> Result<seq<NormalizedRecord>>)
    ensures Collected(a + b, fetch) == Collected(a, fetch) + Collected(b, fetch)
    decreases |b|
  {
    if |b| == 0 {
      assert a + b == a;
    } else {
      var init := b[..|b| - 1];
      assert (a + b)[..|a + b| - 1] == a + init;
      CollectedAppend(a, init, fetch);
    }
  }

  /** A key that is unknown, or whose adapter fails, contributes no records. */
  lemma SkippedSource(key: string, fetch: string -> Result<seq<NormalizedRecord>>)
    requires key !in SOURCES || fetch(key).Err?
    ensures Collected([key], fetch) == []
  {
    assert [key][..0] == [];
  }

  /** The outcome of a run that got past loading the persisted table. */
  datatype RunReport = RunReport(
    newRecords: seq<NormalizedRecord>,
    merged: seq<Row>,
    saved: Option<seq<Row>>,
    byRegulator: map<string, nat>)

  /** `record.get('regulator', 'Unknown')` for each merged row. */
  function Regulators(rows: seq<Row>): (regs: seq<string>)
    ensures |regs| == |rows|
    ensures forall i :: 0 <= i < |rows| ==> regs[i] == Get(rows[i], "regulator", "Unknown")
  {
    seq(|rows|, i requires 0 <= i < |rows| => Get(rows[i], "regulator", "Unknown"))
  }

  /** The `by_regulator` tally of the summary. */
  method CountByRegulator(rows: seq<Row>) returns (byRegulator: map<string, nat>)
    ensures byRegulator == Tally(Regulators(rows))
  {
    var regs := Regulators(rows);
    byRegulator := map[];
    var i := 0;
    while i < |rows|
      invariant 0 <= i <= |rows|
      invariant byRegulator == Tally(regs[..i])
    {
      var reg := Get(rows[i], "regulator", "Unknown");
      assert regs[..i + 1] == regs[..i] + [reg];
      TallySnoc(regs[..i], reg);
      byRegulator := byRegulator[reg := (if reg in byRegulator then byRegulator[reg] else 0) + 1];
      i := i + 1;
    }
    assert regs[..i] == regs;
  }

  /** One more key: its contribution follows those of the keys before it. */
  lemma CollectedStep(keys: seq<string>, i: nat, fetch: string -> Result<seq<NormalizedRecord>>)
    requires i < |keys|
    ensures Collected(keys[..i + 1], fetch) == Collected(keys[..i], fetch) + Contribution(keys[i], fetch)
  {
    assert keys[..i + 1][..i] == keys[..i];
  }

  /**
   * The source loop of `run_pipeline`: each known key's adapter is run in turn and its records
   * appended; an unknown key is skipped, and a failing adapter adds nothing.
   */
  method CollectRecords(keys: seq<string>, fetch: string -> Result<seq<NormalizedRecord>>)
    returns (allNewRecords: seq<NormalizedRecord>)
    ensures allNewRecords == Collected(keys, fetch)
  {
    allNewRecords := [];
    var i := 0;
    while i < |keys|
      invariant 0 <= i <= |keys|
      invariant allNewRecords == Collected(keys[..i], fetch)
    {
      var sourceKey := keys[i];
      CollectedStep(keys, i, fetch);
      if sourceKey in SOURCES {
        match fetch(sourceKey)
        case Ok(records) =>
          allNewRecords := allNewRecords + records;
        case Err(_) =>
      }
      i := i + 1;
    }
    assert keys[..i] == keys;
  }

  /**
   * `run_pipeline`. `file` is the persisted table (`None` when the file is missing) and
   * `fetch(key)` is what the registered adapter's `fetch_and_normalize` yields for that key.
   * A persisted row without an id aborts the run, as the uncaught `KeyError` does.
   */
  method RunPipeline(file: Option<seq<Row>>, sources: Option<seq<string>>, dryRun: bool,
                     fetch: string -> Result<seq<NormalizedRecord>>, show: real -> string)
    returns (r: Result<RunReport>)
    ensures file.Some? && !HasId(file.value) ==> r.Err?
    ensures (file.None? || HasId(file.value)) ==> r.Ok?
    ensures r.Ok? ==>
      var existing := if file.None? then [] else PutAll(file.value);
      r.value.newRecords == Collected(SourcesToRun(sources), fetch) &&
      r.value.merged == MergeAll(existing, CsvRows(r.value.newRecords, show)) &&
      r.value.saved == (if dryRun then None else Some(SaveRecords(r.value.merged))) &&
      r.value.byRegulator == Tally(Regulators(r.value.merged))
  {
    var loaded := LoadExistingRecords(file);
    if loaded.None? {
      return Err("KeyError: 'id'");
    }
    var existing := loaded.value;
    var allNewRecords := CollectRecords(SourcesToRun(sources), fetch);
    var merged := MergeRecords(existing, allNewRecords, show);
    var saved: Option<seq<Row>> := None;
    if !dryRun {
      saved := Some(SaveRecords(merged));
    }
    var byRegulator := CountByRegulator(merged);
    return Ok(RunReport(allNewRecords, merged, saved, byRegulator));
  }

  /** The regulator summary accounts for every merged row exactly once. */
  lemma RegulatorSummaryTotal(merged: seq<Row>)
    ensures SumCounts(Dedup(Regulators(merged)), Regulators(merged)) == |merged|
  {
    TallyTotal(Regulators(merged));
  }
}
