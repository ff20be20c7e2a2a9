/**
 * Enrichment of the policies table from the Charity Commission Register API. The API is four
 * functions handed in by the caller (a name search and three per-charity endpoints); a request
 * that fails, or an answer that cannot be read, is `None`. The loop extends the schema, skips
 * rows without charity information, caches one enrichment per `(reg_no, suffix)` and counts.
 */
module Enrich {
  import opened Wrappers
  import opened Text
  import opened Collections

  type Row = map<string, string>

  /** The charity a lookup designates: its registered number and its subsidiary number. */
  datatype Key = Key(regNo: string, suffix: int)

  /**
   * One search hit. A field the hit does not carry is `None`; `registeredCharityNumber` is kept
   * as the text Python's `str` gives it.
   */
  datatype SearchHit = SearchHit(registeredCharityNumber: Option<string>, subsidiaryNumber: Option<int>)

  /** The area-of-operation answer: either a JSON list of entries or some other JSON object. */
  datatype AreaAnswer = AreaList(entries: seq<Row>) | AreaObject(fields: Row)

  /**
   * The Register API. `overview` maps each field to the text of its value, `None` for a JSON null;
   * `latest_income` is read there.
   */
  datatype RegisterApi = RegisterApi(
    search: string -> Option<seq<SearchHit>>,
    overview: Key -> Option<map<string, Option<string>>>,
    governance: Key -> Option<Row>,
    area: Key -> Option<AreaAnswer>)

  const NEW_FIELDS: seq<string> := [
    "cc_registered_number", "cc_suffix", "cc_status",
    "cc_latest_income", "cc_governing_document", "cc_primary_region"]

  const NEW_FIELD_SET: set<string> := {
    "cc_registered_number", "cc_suffix", "cc_status",
    "cc_latest_income", "cc_governing_document", "cc_primary_region"}

  /** Python's `str` on a non-negative integer. */
  function NatText(n: nat): (s: string)
    ensures |s| > 0 && forall c :: c in s ==> IsDigit(c)
    decreases n
  {
    var d := ['0' + (n % 10) as char];
    if n < 10 then d else NatText(n / 10) + d
  }

  /** Python's `str` on an integer. */
  function IntText(n: int): (s: string)
    ensures |s| > 0
    ensures n >= 0 <==> IsDigit(s[0])
  {
    if n < 0 then "-" + NatText(-n) else NatText(n)
  }

  // ---------------------------------------------------------------------------------------------
  // Lookups
  // ---------------------------------------------------------------------------------------------

  /** The key a search hit names: its number as text (empty when absent) and its suffix (0 when absent). */
  function HitKey(hit: SearchHit): (k: Key)
    ensures k.regNo == hit.registeredCharityNumber.UnwrapOr("")
    ensures k.suffix == hit.subsidiaryNumber.UnwrapOr(0)
  {
    Key(hit.registeredCharityNumber.UnwrapOr(""), hit.subsidiaryNumber.UnwrapOr(0))
  }

  /**
   * `find_charity_by_name`: no request for an empty name; otherwise the first hit of a search
   * for the stripped name, and nothing when the search fails or finds nothing.
   */
  function FindCharityByName(name: string, search: string -> Option<seq<SearchHit>>): (r: Option<Key>)
    ensures name == "" ==> r.None?
    ensures name != "" ==>
      (r.Some? <==> search(Strip(name)).Some? && |search(Strip(name)).value| > 0)
    ensures r.Some? ==> r.value == HitKey(search(Strip(name)).value[0])
  {
    if name == "" then None
    else
      var results := search(Strip(name));
      if results.Some? && |results.value| > 0 then Some(HitKey(results.value[0])) else None
  }

  /** An empty name is answered without consulting the search at all. */
  lemma EmptyNameNeedsNoSearch(s1: string -> Option<seq<SearchHit>>, s2: string -> Option<seq<SearchHit>>)
    ensures FindCharityByName("", s1) == FindCharityByName("", s2) == None
  {
  }

  /**
   * The guard shared by `get_charity_overview`, `get_charity_governance` and
   * `get_charity_area_of_operation`: no request for an empty number, and `None` on failure.
   */
  function Fetch<T>(key: Key, endpoint: Key -> Option<T>): (r: Option<T>)
    ensures key.regNo == "" ==> r.None?
    ensures key.regNo != "" ==> r == endpoint(key)
  {
    if key.regNo == "" then None else endpoint(key)
  }

  // ---------------------------------------------------------------------------------------------
  // extract_enrichment_fields
  // ---------------------------------------------------------------------------------------------

  /** `overview.get("latest_income")` rendered by `str`, or `""` when missing, null or no overview. */
  function LatestIncome(overview: Option<map<string, Option<string>>>): string
  {
    if overview.Some? && "latest_income" in overview.value && overview.value["latest_income"].Some?
    then overview.value["latest_income"].value
    else ""
  }

  /** The first entry's `area_of_operation`, when the answer is a non-empty list. */
  function PrimaryRegion(area: Option<AreaAnswer>): string
  {
    if area.Some? && area.value.AreaList? && |area.value.entries| > 0
    then Get(area.value.entries[0], "area_of_operation", "")
    else ""
  }

  /** `extract_enrichment_fields`: exactly the four `cc_*` fields the answers supply. */
  function ExtractEnrichmentFields(overview: Option<map<string, Option<string>>>, governance: Option<Row>,
                                   area: Option<AreaAnswer>): (fields: Row)
    ensures fields.Keys == {"cc_status", "cc_latest_income", "cc_governing_document", "cc_primary_region"}
    ensures fields["cc_status"] == ""
    ensures fields["cc_latest_income"] != "" ==>
      overview.Some? && "latest_income" in overview.value && overview.value["latest_income"] == Some(fields["cc_latest_income"])
    ensures overview.Some? && "latest_income" in overview.value && overview.value["latest_income"].Some? ==>
      fields["cc_latest_income"] == overview.value["latest_income"].value
    ensures fields["cc_governing_document"] ==
      if governance.Some? then Get(governance.value, "governing_document", "") else ""
    ensures fields["cc_primary_region"] != "" ==> area.Some? && area.value.AreaList? && |area.value.entries| > 0
    ensures area.Some? && area.value.AreaList? && |area.value.entries| > 0 ==>
      fields["cc_primary_region"] == Get(area.value.entries[0], "area_of_operation", "")
  {
    map["cc_status" := "",
        "cc_latest_income" := LatestIncome(overview),
        "cc_governing_document" := if governance.Some? then Get(governance.value, "governing_document", "") else "",
        "cc_primary_region" := PrimaryRegion(area)]
  }

  /** The six fields a charity's row gains: the four answers, its number and its suffix. */
  function Enrichment(key: Key, api: RegisterApi): (e: Row)
    ensures e.Keys == NEW_FIELD_SET
    ensures e["cc_registered_number"] == key.regNo && e["cc_suffix"] == IntText(key.suffix)
    ensures e["cc_status"] == ""
  {
    ExtractEnrichmentFields(Fetch(key, api.overview), Fetch(key, api.governance), Fetch(key, api.area))
      ["cc_registered_number" := key.regNo]["cc_suffix" := IntText(key.suffix)]
  }

  // ---------------------------------------------------------------------------------------------
  // Schema extension
  // ---------------------------------------------------------------------------------------------

  /** `fieldnames` after appending, one after another, each of `news` not already present. */
  function Extended(fieldnames: seq<string>, news: seq<string>): (fs: seq<string>)
    ensures |fieldnames| <= |fs| && fs[..|fieldnames|] == fieldnames
    ensures forall f :: f in fs <==> f in fieldnames || f in news
    ensures Distinct(fieldnames) ==> Distinct(fs)
    decreases |news|
  {
    if |news| == 0 then fieldnames
    else
      var e := Extended(fieldnames, news[..|news| - 1]);
      assert forall f :: f in news <==> f in news[..|news| - 1] || f == news[|news| - 1];
      if news[|news| - 1] in e then e else e + [news[|news| - 1]]
  }

  /** The names of `news` missing from `fieldnames`, in their listed order. */
  function Missing(fieldnames: seq<string>, news: seq<string>): seq<string>
    decreases |news|
  {
    if |news| == 0 then []
    else Missing(fieldnames, news[..|news| - 1]) + (if news[|news| - 1] in fieldnames then [] else [news[|news| - 1]])
  }

  /** With distinct new names, extension appends exactly the missing ones, in listed order. */
  lemma {:induction false} ExtendedAppendsMissing(fieldnames: seq<string>, news: seq<string>)
    requires Distinct(news)
    ensures Extended(fieldnames, news) == fieldnames + Missing(fieldnames, news)
    decreases |news|
  {
    if |news| > 0 {
      var init := news[..|news| - 1];
      var last := news[|news| - 1];
      ExtendedAppendsMissing(fieldnames, init);
      assert last !in init by {
        forall j | 0 <= j < |init| ensures init[j] != last {
          assert news[j] == init[j];
        }
      }
      if last !in fieldnames {
        assert last !in Extended(fieldnames, init);
      }
    }
  }

  lemma {:induction false} NothingMissing(fieldnames: seq<string>, news: seq<string>)
    requires forall f :: f in news ==> f in fieldnames
    ensures Missing(fieldnames, news) == []
    decreases |news|
  {
    if |news| > 0 {
      NothingMissing(fieldnames, news[..|news| - 1]);
    }
  }

  /** A schema that already has the six fields is left as it is. */
  lemma ExtendedComplete(fieldnames: seq<string>)
    requires forall f :: f in NEW_FIELDS ==> f in fieldnames
    ensures Extended(fieldnames, NEW_FIELDS) == fieldnames
  {
    var fs := Extended(fieldnames, NEW_FIELDS);
    assert |fs| == |fieldnames| by {
      ExtendedAppendsMissing(fieldnames, NEW_FIELDS);
      NothingMissing(fieldnames, NEW_FIELDS);
    }
    assert fs == fs[..|fieldnames|];
  }

  /** The loop over `new_fields` that appends each one not yet in `fieldnames`. */
  method ExtendFields(fieldnames: seq<string>) returns (fields: seq<string>)
    ensures fields == Extended(fieldnames, NEW_FIELDS)
  {
    fields := fieldnames;
    for k := 0 to |NEW_FIELDS|
      invariant fields == Extended(fieldnames, NEW_FIELDS[..k])
    {
      assert NEW_FIELDS[..k + 1][..k] == NEW_FIELDS[..k];
      if NEW_FIELDS[k] !in fields {
        fields := fields + [NEW_FIELDS[k]];
      }
    }
    assert NEW_FIELDS[..|NEW_FIELDS|] == NEW_FIELDS;
  }

  // ---------------------------------------------------------------------------------------------
  // The enrichment loop
  // ---------------------------------------------------------------------------------------------

  function CharityName(row: Row): string { Strip(Get(row, "charity_name", "")) }

  function CharityNumber(row: Row): string { Strip(Get(row, "charity_number", "")) }

  /** The row has no number, and `name` is its name. */
  predicate SearchedAs(row: Row, name: string) { CharityNumber(row) == "" && CharityName(row) == name }

  /**
   * The charity of a row with the given stripped name and number, or `None` when the row is
   * skipped: its own number with suffix 0; otherwise the first search hit for its name, unless
   * that names no number.
   */
  function KeyFor(name: string, number: string, search: string -> Option<seq<SearchHit>>): (k: Option<Key>)
    ensures name == "" && number == "" ==> k.None?
    ensures number != "" ==> k == Some(Key(number, 0))
    ensures number == "" && name != "" ==>
      k == if FindCharityByName(name, search).Some? && FindCharityByName(name, search).value.regNo != ""
           then FindCharityByName(name, search) else None
    ensures k.Some? ==> k.value.regNo != ""
  {
    if name == "" && number == "" then None
    else if number != "" then Some(Key(number, 0))
    else
      var found := FindCharityByName(name, search);
      if found.Some? && found.value.regNo != "" then found else None
  }

  /** The charity a row is enriched with, or `None` when it is skipped. */
  function RowKey(row: Row, search: string -> Option<seq<SearchHit>>): Option<Key>
  {
    KeyFor(CharityName(row), CharityNumber(row), search)
  }

  /** A row after the loop: `row.update(enrichment)` for its charity, or untouched when skipped. */
  function EnrichedRow(row: Row, api: RegisterApi): Row
  {
    Updated(row, RowKey(row, api.search), api)
  }

  /** `row.update(enrichment)` for the charity `k`, or `row` itself when there is none. */
  function Updated(row: Row, k: Option<Key>, api: RegisterApi): Row
  {
    if k.Some? then row + Enrichment(k.value, api) else row
  }

  /** The charities of `rows`, one per enriched row, in row order. */
  function RowKeys(rows: seq<Row>, search: string -> Option<seq<SearchHit>>): (ks: seq<Key>)
    ensures |ks| <= |rows|
    decreases |rows|
  {
    if |rows| == 0 then []
    else
      var k := RowKey(rows[|rows| - 1], search);
      RowKeys(rows[..|rows| - 1], search) + (if k.Some? then [k.value] else [])
  }

  /** The name searched for on a row's behalf: its name when it has a name but no number. */
  function SearchedFor(row: Row): seq<string>
  {
    if CharityNumber(row) == "" && CharityName(row) != "" then [CharityName(row)] else []
  }

  /** The names searched for, one per row that has a name but no number, in row order. */
  function Searches(rows: seq<Row>): seq<string>
    decreases |rows|
  {
    if |rows| == 0 then []
    else
      var r := rows[|rows| - 1];
      Searches(rows[..|rows| - 1]) + SearchedFor(r)
  }

  /**
   * The lookup half of one loop pass, on the row's stripped name and number: the row's charity
   * and the names searched for to find it (its name when it has no number, nothing otherwise).
   */
  method LookUp(charityName: string, charityNumber: string, search: string -> Option<seq<SearchHit>>)
    returns (key: Option<Key>, searched: seq<string>)
    ensures key == KeyFor(charityName, charityNumber, search)
    ensures searched == if charityNumber == "" && charityName != "" then [charityName] else []
  {
    searched := [];
    if charityName == "" && charityNumber == "" {
      return None, searched;
    }
    key := Some(Key(charityNumber, 0));
    if charityNumber == "" && charityName != "" {
      searched := [charityName];
      var found := FindCharityByName(charityName, search);
      if found.None? || found.value.regNo == "" {
        key := None;
      } else {
        key := found;
      }
    }
  }

  /** The cache a pass leaves holds, for each charity fetched so far, its enrichment. */
  ghost predicate CacheHolds(cache: map<Key, Row>, fetched: seq<Key>, api: RegisterApi)
  {
    (forall k :: k in cache <==> k in fetched) && forall k :: k in cache ==> cache[k] == Enrichment(k, api)
  }

  /**
   * The fetch half of one loop pass: the cached enrichment of `key` when there is one, or the
   * three endpoints' answers, which are then cached and `key` recorded as fetched.
   */
  method Cached(key: Key, api: RegisterApi, cache: map<Key, Row>, fetched: seq<Key>)
    returns (enrichment: Row, cache': map<Key, Row>, fetched': seq<Key>)
    requires CacheHolds(cache, fetched, api)
    ensures enrichment == Enrichment(key, api)
    ensures CacheHolds(cache', fetched', api)
    ensures fetched' == if key in fetched then fetched else fetched + [key]
  {
    if key in cache {
      return cache[key], cache, fetched;
    }
    var overview := Fetch(key, api.overview);
    var governance := Fetch(key, api.governance);
    var area := Fetch(key, api.area);
    enrichment := ExtractEnrichmentFields(overview, governance, area);
    enrichment := enrichment["cc_registered_number" := key.regNo];
    enrichment := enrichment["cc_suffix" := IntText(key.suffix)];
    cache' := cache[key := enrichment];
    fetched' := fetched + [key];
  }

  lemma RowKeysSnoc(records: seq<Row>, i: nat, search: string -> Option<seq<SearchHit>>)
    requires i < |records|
    ensures RowKeys(records[..i + 1], search) == RowKeys(records[..i], search) +
      (if RowKey(records[i], search).Some? then [RowKey(records[i], search).value] else [])
    ensures Searches(records[..i + 1]) == Searches(records[..i]) + SearchedFor(records[i])
  {
    assert records[..i + 1][..i] == records[..i];
  }

  /** The first `i` rows are as the loop leaves them, the rest as they were read. */
  ghost predicate RowsDone(records: seq<Row>, api: RegisterApi, i: nat, rows: seq<Row>)
  {
    && i <= |records| == |rows|
    && (forall j :: 0 <= j < i ==> rows[j] == EnrichedRow(records[j], api))
    && (forall j :: i <= j < |records| ==> rows[j] == records[j])
  }

  /** The counters, the searches, the fetches and the cache after the first `i` passes. */
  ghost predicate TalliesDone(records: seq<Row>, api: RegisterApi, i: nat, enrichedCount: nat, skippedCount: nat,
                              searches: seq<string>, fetched: seq<Key>, cache: map<Key, Row>)
    requires i <= |records|
  {
    && enrichedCount == |RowKeys(records[..i], api.search)|
    && enrichedCount + skippedCount == i
    && searches == Searches(records[..i])
    && fetched == Dedup(RowKeys(records[..i], api.search))
    && CacheHolds(cache, fetched, api)
  }

  /** What the loop has done after its first `i` passes. */
  ghost predicate Progress(records: seq<Row>, api: RegisterApi, i: nat, rows: seq<Row>, enrichedCount: nat,
                           skippedCount: nat, searches: seq<string>, fetched: seq<Key>, cache: map<Key, Row>)
  {
    RowsDone(records, api, i, rows) && TalliesDone(records, api, i, enrichedCount, skippedCount, searches, fetched, cache)
  }

  /** A pass over a row without a charity only counts it as skipped. */
  lemma SkipStep(records: seq<Row>, api: RegisterApi, i: nat, rows: seq<Row>, enrichedCount: nat,
                 skippedCount: nat, searches: seq<string>, fetched: seq<Key>, cache: map<Key, Row>)
    requires Progress(records, api, i, rows, enrichedCount, skippedCount, searches, fetched, cache)
    requires i < |records| && RowKey(records[i], api.search).None?
    ensures Progress(records, api, i + 1, rows, enrichedCount, skippedCount + 1,
                     searches + SearchedFor(records[i]), fetched, cache)
  {
    SkipRow(records, api, i, rows);
    SkipTallies(records, api, i, enrichedCount, skippedCount, searches, fetched, cache);
  }

  lemma SkipRow(records: seq<Row>, api: RegisterApi, i: nat, rows: seq<Row>)
    requires RowsDone(records, api, i, rows)
    requires i < |records| && RowKey(records[i], api.search).None?
    ensures RowsDone(records, api, i + 1, rows)
  {
    SkippedRowUnchanged(records[i], api);
  }

  lemma SkipTallies(records: seq<Row>, api: RegisterApi, i: nat, enrichedCount: nat, skippedCount: nat,
                    searches: seq<string>, fetched: seq<Key>, cache: map<Key, Row>)
    requires i < |records| && RowKey(records[i], api.search).None?
    requires TalliesDone(records, api, i, enrichedCount, skippedCount, searches, fetched, cache)
    ensures TalliesDone(records, api, i + 1, enrichedCount, skippedCount + 1, searches + SearchedFor(records[i]),
                        fetched, cache)
  {
    RowKeysSnoc(records, i, api.search);
    assert RowKeys(records[..i + 1], api.search) == RowKeys(records[..i], api.search);
  }

  /** A pass over a row with a charity updates that row and counts it as enriched. */
  lemma EnrichStep(records: seq<Row>, api: RegisterApi, i: nat, rows: seq<Row>, enrichedCount: nat,
                   skippedCount: nat, searches: seq<string>, fetched: seq<Key>, cache: map<Key, Row>,
                   enrichment: Row, fetched': seq<Key>, cache': map<Key, Row>)
    requires Progress(records, api, i, rows, enrichedCount, skippedCount, searches, fetched, cache)
    requires i < |records| && RowKey(records[i], api.search).Some?
    requires enrichment == Enrichment(RowKey(records[i], api.search).value, api)
    requires CacheHolds(cache', fetched', api)
    requires fetched' == if RowKey(records[i], api.search).value in fetched then fetched
                         else fetched + [RowKey(records[i], api.search).value]
    ensures Progress(records, api, i + 1, rows[i := records[i] + enrichment], enrichedCount + 1, skippedCount,
                     searches + SearchedFor(records[i]), fetched', cache')
  {
    EnrichRow(records, api, i, rows, enrichment);
    EnrichTallies(records, api, i, enrichedCount, skippedCount, searches, fetched, cache, fetched', cache');
  }

  lemma EnrichRow(records: seq<Row>, api: RegisterApi, i: nat, rows: seq<Row>, enrichment: Row)
    requires RowsDone(records, api, i, rows)
    requires i < |records| && RowKey(records[i], api.search).Some?
    requires enrichment == Enrichment(RowKey(records[i], api.search).value, api)
    ensures RowsDone(records, api, i + 1, rows[i := records[i] + enrichment])
  {
    var rows' := rows[i := records[i] + enrichment];
    EnrichedRowIs(records[i], api, enrichment);
    forall j | 0 <= j < i + 1
      ensures rows'[j] == EnrichedRow(records[j], api)
    {
      if j < i {
        assert rows'[j] == rows[j];
      }
    }
  }

  lemma EnrichedRowIs(row: Row, api: RegisterApi, enrichment: Row)
    requires RowKey(row, api.search).Some? && enrichment == Enrichment(RowKey(row, api.search).value, api)
    ensures EnrichedRow(row, api) == row + enrichment
  {
  }

  lemma EnrichTallies(records: seq<Row>, api: RegisterApi, i: nat, enrichedCount: nat, skippedCount: nat,
                      searches: seq<string>, fetched: seq<Key>, cache: map<Key, Row>,
                      fetched': seq<Key>, cache': map<Key, Row>)
    requires i < |records| && RowKey(records[i], api.search).Some?
    requires TalliesDone(records, api, i, enrichedCount, skippedCount, searches, fetched, cache)
    requires CacheHolds(cache', fetched', api)
    requires fetched' == if RowKey(records[i], api.search).value in fetched then fetched
                         else fetched + [RowKey(records[i], api.search).value]
    ensures TalliesDone(records, api, i + 1, enrichedCount + 1, skippedCount, searches + SearchedFor(records[i]),
                        fetched', cache')
  {
    var key := RowKey(records[i], api.search).value;
    RowKeysSnoc(records, i, api.search);
    assert RowKeys(records[..i + 1], api.search) == RowKeys(records[..i], api.search) + [key];
    DedupSnoc(RowKeys(records[..i], api.search), key);
  }

  /**
   * The row loop of `enrich_csv`. It returns the rows as `row.update` leaves them, the two
   * counters, the names it searched for and the charities it fetched, in request order.
   * Every row is enriched with the answers for its charity or left as it was; each charity is
   * fetched once, however many rows name it, and only names of rows without a number are searched.
   */
  method EnrichRows(records: seq<Row>, api: RegisterApi)
    returns (rows: seq<Row>, enrichedCount: nat, skippedCount: nat, searches: seq<string>, fetched: seq<Key>)
    ensures |rows| == |records|
    ensures forall i :: 0 <= i < |records| ==> rows[i] == EnrichedRow(records[i], api)
    ensures enrichedCount == |RowKeys(records, api.search)|
    ensures enrichedCount + skippedCount == |records|
    ensures searches == Searches(records)
    ensures fetched == Dedup(RowKeys(records, api.search))
  {
    rows := records;
    enrichedCount, skippedCount := 0, 0;
    searches, fetched := [], [];
    var cache: map<Key, Row> := map[];
    for i := 0 to |records|
      invariant Progress(records, api, i, rows, enrichedCount, skippedCount, searches, fetched, cache)
    {
      var row := rows[i];
      var key, searched := LookUp(CharityName(row), CharityNumber(row), api.search);
      assert key == RowKey(records[i], api.search);
      if key.None? {
        SkipStep(records, api, i, rows, enrichedCount, skippedCount, searches, fetched, cache);
        searches := searches + searched;
        skippedCount := skippedCount + 1;
        continue;
      }
      var enrichment, cache', fetched' := Cached(key.value, api, cache, fetched);
      EnrichStep(records, api, i, rows, enrichedCount, skippedCount, searches, fetched, cache,
                 enrichment, fetched', cache');
      rows := rows[i := row + enrichment];
      enrichedCount := enrichedCount + 1;
      searches := searches + searched;
      cache, fetched := cache', fetched';
    }
    assert records[..|records|] == records;
  }

  /** Two rows naming the same charity receive the same six fields. */
  lemma SameCharitySameEnrichment(a: Row, b: Row, api: RegisterApi)
    requires RowKey(a, api.search).Some? && RowKey(a, api.search) == RowKey(b, api.search)
    ensures forall f :: f in NEW_FIELDS ==> EnrichedRow(a, api)[f] == EnrichedRow(b, api)[f]
  {
  }

  /** A skipped row comes out exactly as it went in. */
  lemma SkippedRowUnchanged(row: Row, api: RegisterApi)
    requires RowKey(row, api.search).None?
    ensures EnrichedRow(row, api) == row
  {
  }

  /**
   * An enriched row gains the six fields of its charity and keeps every other field, so its
   * fields are its old ones and the six.
   */
  lemma EnrichedRowFields(row: Row, api: RegisterApi)
    requires RowKey(row, api.search).Some?
    ensures forall f :: f in row && f !in NEW_FIELD_SET ==> f in EnrichedRow(row, api) && EnrichedRow(row, api)[f] == row[f]
    ensures forall f :: f in NEW_FIELD_SET ==>
      f in EnrichedRow(row, api) && EnrichedRow(row, api)[f] == Enrichment(RowKey(row, api.search).value, api)[f]
    ensures EnrichedRow(row, api).Keys == row.Keys + NEW_FIELD_SET
  {
    var e := Enrichment(RowKey(row, api.search).value, api);
    assert EnrichedRow(row, api) == row + e;
    assert e.Keys == NEW_FIELD_SET;
  }

  /** A row with a number of its own is keyed by it with suffix 0, whatever the search would answer. */
  lemma NumberedRowIgnoresSearch(row: Row, s1: string -> Option<seq<SearchHit>>, s2: string -> Option<seq<SearchHit>>)
    requires CharityNumber(row) != ""
    ensures RowKey(row, s1) == RowKey(row, s2) == Some(Key(CharityNumber(row), 0))
  {
  }

  /** Every name searched for is the name of a row that has no number. */
  lemma {:induction false} SearchesComeFromUnnumberedRows(records: seq<Row>)
    ensures forall n :: n in Searches(records) ==> exists i :: 0 <= i < |records| && SearchedAs(records[i], n)
    decreases |records|
  {
    if |records| > 0 {
      var init := records[..|records| - 1];
      SearchesComeFromUnnumberedRows(init);
      forall n | n in Searches(records)
        ensures exists i :: 0 <= i < |records| && SearchedAs(records[i], n)
      {
        if n in Searches(init) {
          var i :| 0 <= i < |init| && SearchedAs(init[i], n);
          assert records[i] == init[i];
        } else {
          assert SearchedAs(records[|records| - 1], n);
        }
      }
    }
  }

  /**
   * Every enriched row's fields are columns of the extended schema, so `DictWriter` accepts
   * the rows when every input row's fields were columns of the original schema.
   */
  lemma EnrichedRowsFitSchema(fieldnames: seq<string>, row: Row, api: RegisterApi)
    requires forall f :: f in row ==> f in fieldnames
    ensures forall f :: f in EnrichedRow(row, api) ==> f in Extended(fieldnames, NEW_FIELDS)
  {
    if RowKey(row, api.search).Some? {
      EnrichedRowFields(row, api);
    } else {
      SkippedRowUnchanged(row, api);
    }
  }

  /** `enrich_csv`: nothing is written when the input table is missing. */
  method EnrichCsv(input: Option<(seq<string>, seq<Row>)>, api: RegisterApi)
    returns (output: Option<(seq<string>, seq<Row>)>, enrichedCount: nat, skippedCount: nat)
    ensures input.None? <==> output.None?
    ensures output.Some? ==> output.value.0 == Extended(input.value.0, NEW_FIELDS)
    ensures output.Some? ==> |output.value.1| == |input.value.1|
    ensures output.Some? ==> forall i :: 0 <= i < |input.value.1| ==>
      output.value.1[i] == EnrichedRow(input.value.1[i], api)
    ensures output.Some? ==> enrichedCount + skippedCount == |input.value.1|
  {
    if input.None? {
      return None, 0, 0;
    }
    var fieldnames := ExtendFields(input.value.0);
    var rows, searches, fetched;
    rows, enrichedCount, skippedCount, searches, fetched := EnrichRows(input.value.1, api);
    output := Some((fieldnames, rows));
  }
}
