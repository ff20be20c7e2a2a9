/**
 * The de-duplication pass over the persisted table: records are grouped by `source_url` in
 * order of first appearance, and each group is replaced by its first record whose
 * `published_date` is not a placeholder (or by its first record when all dates are
 * placeholders).
 */
module RemoveDuplicates {
  import opened Wrappers
  import opened Text
  import opened Collections

  type Row = map<string, string>

  /** `record.get('source_url', '')` */
  function Url(r: Row): string
  {
    Get(r, "source_url", "")
  }

  /** The URL of each record, in table order. */
  function Urls(records: seq<Row>): (urls: seq<string>)
    ensures |urls| == |records|
    ensures forall i :: 0 <= i < |records| ==> urls[i] == Url(records[i])
  {
    seq(|records|, i requires 0 <= i < |records| => Url(records[i]))
  }

  /** Dates the scrapers use when they found none: `2025-01-01`, `2025-12-31`, `1970-01-01`. */
  predicate IsPlaceholder(date: string)
  {
    date == "2025-01-01" || date == "2025-12-31" || date == "1970-01-01"
  }

  function PublishedDate(r: Row): string
  {
    Get(r, "published_date", "")
  }

  /** The records carrying URL `u`, in table order. */
  function WithUrl(records: seq<Row>, u: string): seq<Row>
    decreases |records|
  {
    if |records| == 0 then []
    else
      var last := records[|records| - 1];
      WithUrl(records[..|records| - 1], u) + (if Url(last) == u then [last] else [])
  }

  /** A URL's group holds input records carrying that URL, and only those. */
  lemma {:induction false} WithUrlMembers(records: seq<Row>, u: string)
    ensures forall r :: r in WithUrl(records, u) ==> r in records && Url(r) == u
    decreases |records|
  {
    if |records| > 0 {
      WithUrlMembers(records[..|records| - 1], u);
    }
  }

  lemma WithUrlSnoc(records: seq<Row>, r: Row, u: string)
    ensures WithUrl(records + [r], u) == WithUrl(records, u) + (if Url(r) == u then [r] else [])
  {
    assert (records + [r])[..|records|] == records;
  }

  /** A URL's group has as many records as the URL has occurrences. */
  lemma {:induction false} WithUrlSize(records: seq<Row>, u: string)
    ensures |WithUrl(records, u)| == Count(Urls(records), u)
    decreases |records|
  {
    if |records| > 0 {
      var init := records[..|records| - 1];
      WithUrlSize(init, u);
      assert Urls(records) == Urls(init) + [Url(records[|records| - 1])];
      CountSnoc(Urls(init), Url(records[|records| - 1]), u);
    }
  }

  /** The first record whose date is not a placeholder, if any. */
  function FirstDated(group: seq<Row>): (r: Option<Row>)
    ensures r.None? ==> forall k :: 0 <= k < |group| ==> IsPlaceholder(PublishedDate(group[k]))
    ensures r.Some? ==> r.value in group && !IsPlaceholder(PublishedDate(r.value))
  {
    if |group| == 0 then None
    else if !IsPlaceholder(PublishedDate(group[0])) then Some(group[0])
    else
      assert forall k :: 1 <= k < |group| ==> group[k] == group[1..][k - 1];
      FirstDated(group[1..])
  }

  /** The record found is the first one with a real date: every record before it has a placeholder. */
  lemma {:induction false} FirstDatedIsFirst(group: seq<Row>, k: nat)
    requires k < |group| && !IsPlaceholder(PublishedDate(group[k]))
    requires forall m :: 0 <= m < k ==> IsPlaceholder(PublishedDate(group[m]))
    ensures FirstDated(group) == Some(group[k])
    decreases k
  {
    if k > 0 {
      assert IsPlaceholder(PublishedDate(group[0]));
      FirstDatedIsFirst(group[1..], k - 1);
    }
  }

  /** The record a group keeps: the first one with a real date, else the first one. */
  function Best(group: seq<Row>): (r: Row)
    requires |group| > 0
    ensures r in group
    ensures |group| == 1 ==> r == group[0]
  {
    match FirstDated(group)
    case Some(r) => r
    case None => group[0]
  }

  /** The table after the pass: one kept record per URL, in order of first appearance. */
  function Deduplicated(records: seq<Row>): (out: seq<Row>)
  {
    var order := Dedup(Urls(records));
    seq(|order|, i requires 0 <= i < |order| =>
      assert order[i] in Urls(records);
      assert |WithUrl(records, order[i])| > 0 by { WithUrlSize(records, order[i]); }
      Best(WithUrl(records, order[i])))
  }

  /**
   * The kept records' URLs are the distinct URLs of the table, in order of first appearance
   * (so exactly one record per URL), and every kept record is an unchanged input record.
   */
  lemma DeduplicatedShape(records: seq<Row>)
    ensures Urls(Deduplicated(records)) == Dedup(Urls(records))
    ensures forall r :: r in Deduplicated(records) ==> r in records
  {
    var order := Dedup(Urls(records));
    var out := Deduplicated(records);
    forall i | 0 <= i < |order|
      ensures out[i] in records && Url(out[i]) == order[i]
    {
      WithUrlMembers(records, order[i]);
    }
  }

  /** The group scan: the first record with a real date, else the group's first record. */
  method PickBest(group: seq<Row>) returns (best: Row)
    requires |group| > 1
    ensures best == Best(group)
  {
    var found: Option<Row> := None;
    var i := 0;
    while i < |group|
      invariant 0 <= i <= |group|
      invariant found == FirstDated(group[..i])
      invariant found.Some? ==> !IsPlaceholder(PublishedDate(found.value))
    {
      var record := group[i];
      FirstDatedSnoc(group[..i], record);
      assert group[..i + 1] == group[..i] + [record];
      var pubDate := Get(record, "published_date", "");
      if !IsPlaceholder(pubDate) {
        if found.None? {
          found := Some(record);
        } else if IsPlaceholder(Get(found.value, "published_date", "")) {
          found := Some(record);
        }
      }
      i := i + 1;
    }
    assert group[..i] == group;
    best := if found.Some? then found.value else group[0];
  }

  lemma {:induction false} FirstDatedSnoc(group: seq<Row>, r: Row)
    ensures FirstDated(group + [r]) ==
      if FirstDated(group).Some? then FirstDated(group)
      else if IsPlaceholder(PublishedDate(r)) then None else Some(r)
    decreases |group|
  {
    if |group| == 0 {
      assert [] + [r] == [r];
      assert [r][1..] == [];
    } else {
      assert (group + [r])[1..] == group[1..] + [r];
      FirstDatedSnoc(group[1..], r);
    }
  }

  /** The dictionary `url_groups` built over `records`, one append at a time. */
  function GroupMap(records: seq<Row>): map<string, seq<Row>>
    decreases |records|
  {
    if |records| == 0 then map[]
    else
      var m := GroupMap(records[..|records| - 1]);
      var last := records[|records| - 1];
      m[Url(last) := (if Url(last) in m then m[Url(last)] else []) + [last]]
  }

  /** `url_groups` has a key for each URL of the table, holding that URL's records in order. */
  lemma {:induction false} GroupMapHoldsGroups(records: seq<Row>)
    ensures forall u :: u in GroupMap(records) <==> u in Urls(records)
    ensures forall u :: u in GroupMap(records) ==> GroupMap(records)[u] == WithUrl(records, u)
    decreases |records|
  {
    if |records| > 0 {
      var init := records[..|records| - 1];
      var last := records[|records| - 1];
      GroupMapHoldsGroups(init);
      assert records == init + [last];
      assert Urls(records) == Urls(init) + [Url(last)];
      forall u | u in GroupMap(records)
        ensures GroupMap(records)[u] == WithUrl(records, u)
      {
        WithUrlSnoc(init, last, u);
        if u == Url(last) && u !in GroupMap(init) {
          WithUrlSize(init, u);
        }
      }
    }
  }

  /** One more record: its URL is new to the order exactly when it is new to `url_groups`. */
  lemma GroupStep(records: seq<Row>, r: Row)
    ensures Dedup(Urls(records + [r])) ==
      if Url(r) in GroupMap(records) then Dedup(Urls(records)) else Dedup(Urls(records)) + [Url(r)]
    ensures GroupMap(records + [r]) ==
      GroupMap(records)[Url(r) := (if Url(r) in GroupMap(records) then GroupMap(records)[Url(r)] else []) + [r]]
  {
    assert (records + [r])[..|records|] == records;
    assert Urls(records + [r]) == Urls(records) + [Url(r)];
    DedupSnoc(Urls(records), Url(r));
    GroupMapHoldsGroups(records);
  }

  /** One record into `url_groups`: a new URL opens an empty group and joins the order. */
  method AddToGroups(order: seq<string>, groups: map<string, seq<Row>>, record: Row)
    returns (order': seq<string>, groups': map<string, seq<Row>>)
    ensures order' == if Url(record) in groups then order else order + [Url(record)]
    ensures groups' == groups[Url(record) := (if Url(record) in groups then groups[Url(record)] else []) + [record]]
  {
    var url := Get(record, "source_url", "");
    order', groups' := order, groups;
    if url !in groups' {
      groups' := groups'[url := []];
      order' := order' + [url];
    }
    groups' := groups'[url := groups'[url] + [record]];
  }

  /** The grouping loop: URLs in order of first appearance, and `url_groups`. */
  method GroupByUrl(records: seq<Row>) returns (order: seq<string>, groups: map<string, seq<Row>>)
    ensures order == Dedup(Urls(records))
    ensures groups == GroupMap(records)
  {
    order := [];
    groups := map[];
    var i := 0;
    while i < |records|
      invariant 0 <= i <= |records|
      invariant order == Dedup(Urls(records[..i]))
      invariant groups == GroupMap(records[..i])
    {
      assert records[..i + 1] == records[..i] + [records[i]];
      GroupStep(records[..i], records[i]);
      order, groups := AddToGroups(order, groups, records[i]);
      i := i + 1;
    }
    assert records[..i] == records;
  }

  /** The sizes of the URL groups add up to the table size. */
  lemma GroupSizesTotal(records: seq<Row>, order: seq<string>)
    requires order == Dedup(Urls(records))
    ensures GroupSizes(records, order) == |records|
  {
    GroupSizesAreCounts(records, order);
    TallyTotal(Urls(records));
  }

  function GroupSizes(records: seq<Row>, order: seq<string>): nat
  {
    if |order| == 0 then 0 else |WithUrl(records, order[0])| + GroupSizes(records, order[1..])
  }

  lemma {:induction false} GroupSizesAreCounts(records: seq<Row>, order: seq<string>)
    ensures GroupSizes(records, order) == SumCounts(order, Urls(records))
    decreases |order|
  {
    if |order| > 0 {
      WithUrlSize(records, order[0]);
      GroupSizesAreCounts(records, order[1..]);
    }
  }

  lemma {:induction false} GroupSizesSnoc(records: seq<Row>, order: seq<string>, u: string)
    ensures GroupSizes(records, order + [u]) == GroupSizes(records, order) + |WithUrl(records, u)|
    decreases |order|
  {
    if |order| == 0 {
      assert ([] + [u])[1..] == [];
    } else {
      assert (order + [u])[1..] == order[1..] + [u];
      GroupSizesSnoc(records, order[1..], u);
    }
  }

  /** The `i`-th kept record is the best of the `i`-th URL's group, which is not empty. */
  lemma DeduplicatedAt(records: seq<Row>, i: nat)
    requires i < |Dedup(Urls(records))|
    ensures var u := Dedup(Urls(records))[i];
      |Deduplicated(records)| == |Dedup(Urls(records))| && u in GroupMap(records) &&
      |WithUrl(records, u)| > 0 && GroupMap(records)[u] == WithUrl(records, u) &&
      Deduplicated(records)[i] == Best(WithUrl(records, u))
  {
    var u := Dedup(Urls(records))[i];
    WithUrlSize(records, u);
    GroupMapHoldsGroups(records);
  }

  lemma DeduplicatedLength(records: seq<Row>)
    ensures |Deduplicated(records)| == |Dedup(Urls(records))|
  {
  }

  lemma PrefixSnoc(s: seq<Row>, i: nat)
    requires i < |s|
    ensures s[..i + 1] == s[..i] + [s[i]]
  {
  }

  /** One step of the selection loop: the kept records and the group sizes grow by one URL. */
  lemma DedupLoopStep(records: seq<Row>, order: seq<string>, i: nat)
    requires order == Dedup(Urls(records)) && i < |order|
    ensures |Deduplicated(records)| == |order|
    ensures Deduplicated(records)[..i + 1] == Deduplicated(records)[..i] + [Deduplicated(records)[i]]
    ensures GroupSizes(records, order[..i + 1]) == GroupSizes(records, order[..i]) + |WithUrl(records, order[i])|
  {
    DeduplicatedLength(records);
    PrefixSnoc(Deduplicated(records), i);
    assert order[..i + 1] == order[..i] + [order[i]];
    GroupSizesSnoc(records, order[..i], order[i]);
  }

  /**
   * The body of the selection loop for the `i`-th URL: the record kept for it, and how many of
   * its records are removed.
   */
  method KeepOne(records: seq<Row>, order: seq<string>, urlGroups: map<string, seq<Row>>, i: nat)
    returns (kept: Row, removed: nat)
    requires order == Dedup(Urls(records)) && urlGroups == GroupMap(records) && i < |order|
    ensures kept == Deduplicated(records)[i]
    ensures removed + 1 == |WithUrl(records, order[i])|
  {
    DeduplicatedAt(records, i);
    var group := urlGroups[order[i]];
    if |group| == 1 {
      kept, removed := group[0], 0;
    } else {
      kept := PickBest(group);
      removed := |group| - 1;
    }
  }

  /**
   * `remove_duplicates`: keep one record per URL and count the removed ones, which are
   * exactly as many as the table shrank by.
   */
  method RemoveDuplicates(records: seq<Row>) returns (deduplicated: seq<Row>, removedCount: nat)
    ensures deduplicated == Deduplicated(records)
    ensures removedCount == |records| - |deduplicated|
  {
    var order, urlGroups := GroupByUrl(records);
    deduplicated := [];
    removedCount := 0;
    var i := 0;
    while i < |order|
      invariant 0 <= i <= |order| && |Deduplicated(records)| == |order|
      invariant deduplicated == Deduplicated(records)[..i]
      invariant removedCount + i == GroupSizes(records, order[..i])
    {
      DedupLoopStep(records, order, i);
      var kept, removed := KeepOne(records, order, urlGroups, i);
      deduplicated := deduplicated + [kept];
      removedCount := removedCount + removed;
      i := i + 1;
    }
    assert order[..i] == order;
    GroupSizesTotal(records, order);
  }

  /** Without repetitions, de-duplication changes nothing. */
  lemma {:induction false} DedupOfDistinct(s: seq<string>)
    requires Distinct(s)
    ensures Dedup(s) == s
    decreases |s|
  {
    if |s| > 0 {
      var init := s[..|s| - 1];
      assert Distinct(init);
      DedupOfDistinct(init);
      assert s[|s| - 1] !in init;
    }
  }

  /** In a table with distinct URLs every group is the single record with that URL. */
  lemma {:induction false} SingletonGroups(records: seq<Row>, i: nat)
    requires Distinct(Urls(records)) && i < |records|
    ensures WithUrl(records, Url(records[i])) == [records[i]]
    decreases |records|
  {
    var n := |records| - 1;
    var init := records[..n];
    assert Urls(init) == Urls(records)[..n];
    if i == n {
      assert Url(records[i]) !in Urls(init);
      WithUrlSize(init, Url(records[i]));
    } else {
      SingletonGroups(init, i);
      assert Url(records[n]) != Url(records[i]);
    }
  }

  /** Running the pass on its own output changes nothing. */
  lemma DeduplicatedIdempotent(records: seq<Row>)
    ensures Deduplicated(Deduplicated(records)) == Deduplicated(records)
  {
    var out := Deduplicated(records);
    DeduplicatedShape(records);
    DedupOfDistinct(Urls(out));
    forall i | 0 <= i < |out|
      ensures Deduplicated(out)[i] == out[i]
    {
      SingletonGroups(out, i);
    }
  }
}
