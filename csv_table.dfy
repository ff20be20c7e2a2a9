/**
 * A CSV file as `csv.DictReader` sees it and as `csv.DictWriter` writes it: a header of field
 * names and rows keyed by those names. A missing value is an absent key.
 */
module CsvTable {
  import opened Wrappers
  import opened Text

  type Row = map<string, string>

  /** A CSV file: its header, or `None` when the file is empty, and its rows. */
  datatype CsvFile = CsvFile(header: Option<seq<string>>, rows: seq<Row>)

  /** `DictWriter` accepts a row only when every key is a header field. */
  predicate Fits(fieldnames: seq<string>, r: Row)
  {
    forall k :: k in r ==> k in fieldnames
  }

  /** How many rows are written before the first one `DictWriter` rejects. */
  function FirstMisfit(fieldnames: seq<string>, rows: seq<Row>): (n: nat)
    ensures n <= |rows|
    ensures forall j :: 0 <= j < n ==> Fits(fieldnames, rows[j])
    ensures n < |rows| ==> !Fits(fieldnames, rows[n])
  {
    if |rows| == 0 || !Fits(fieldnames, rows[0]) then 0 else 1 + FirstMisfit(fieldnames, rows[1..])
  }

  /** A row as written and read back: every header field, `''` where the row has no value. */
  function AsWritten(fieldnames: seq<string>, r: Row): (w: Row)
    ensures w.Keys == set f | f in fieldnames
    ensures forall f :: f in fieldnames ==> w[f] == Get(r, f, "")
  {
    map f | f in fieldnames :: Get(r, f, "")
  }

  function AllWritten(fieldnames: seq<string>, rows: seq<Row>): (out: seq<Row>)
    ensures |out| == |rows|
  {
    seq(|rows|, i requires 0 <= i < |rows| => AsWritten(fieldnames, rows[i]))
  }

  /** A row whose fields are exactly the header fields reads back unchanged. */
  lemma AsWrittenExact(fieldnames: seq<string>, r: Row)
    requires r.Keys == set f | f in fieldnames
    ensures AsWritten(fieldnames, r) == r
  {
  }

  lemma {:induction false} FirstMisfitAll(fieldnames: seq<string>, rows: seq<Row>)
    requires forall i :: 0 <= i < |rows| ==> Fits(fieldnames, rows[i])
    ensures FirstMisfit(fieldnames, rows) == |rows|
    decreases |rows|
  {
    if |rows| > 0 {
      FirstMisfitAll(fieldnames, rows[1..]);
    }
  }
}
