/**
 * Sequence helpers shared by the table passes: distinctness, first-occurrence de-duplication
 * (the `seen`/`unique` idiom), filtering, and occurrence counts (`collections.Counter`).
 */
module Collections {

  ghost predicate Distinct<T>(s: seq<T>)
  {
    forall i, j :: 0 <= i < j < |s| ==> s[i] != s[j]
  }

  /** The elements of `s` at their first occurrence, in order. */
  function Dedup<T(==,!new)>(s: seq<T>): (r: seq<T>)
    ensures Distinct(r)
    ensures forall x :: x in r <==> x in s
    ensures |r| <= |s|
    decreases |s|
  {
    if |s| == 0 then []
    else
      var d := Dedup(s[..|s| - 1]);
      if s[|s| - 1] in d then d else d + [s[|s| - 1]]
  }

  lemma DedupSnoc<T(!new)>(s: seq<T>, x: T)
    ensures Dedup(s + [x]) == if x in Dedup(s) then Dedup(s) else Dedup(s) + [x]
  {
    assert (s + [x])[..|s|] == s;
  }

  /** Deduplicating a prefix gives a prefix of the deduplicated whole. */
  lemma {:induction false} DedupPrefix<T(!new)>(s: seq<T>, k: nat)
    requires k <= |s|
    ensures |Dedup(s[..k])| <= |Dedup(s)| && Dedup(s[..k]) == Dedup(s)[..|Dedup(s[..k])|]
    decreases |s| - k
  {
    if k < |s| {
      DedupPrefix(s, k + 1);
      assert s[..k + 1][..k] == s[..k];
    } else {
      assert s[..k] == s;
    }
  }

  lemma AppendAssoc<T>(a: seq<T>, b: seq<T>, c: seq<T>)
    ensures a + (b + c) == (a + b) + c
  {
  }

  lemma TailOfAppend<T>(a: seq<T>, b: seq<T>)
    requires |a| > 0
    ensures (a + b)[0] == a[0] && (a + b)[1..] == a[1..] + b
  {
  }

  /** Number of occurrences of `k` in `s`. */
  function Count<T(==)>(s: seq<T>, k: T): (n: nat)
    ensures n <= |s|
    ensures n > 0 <==> k in s
    decreases |s|
  {
    if |s| == 0 then 0
    else
      assert s == s[..|s| - 1] + [s[|s| - 1]];
      Count(s[..|s| - 1], k) + (if s[|s| - 1] == k then 1 else 0)
  }

  lemma CountSnoc<T>(s: seq<T>, x: T, k: T)
    ensures Count(s + [x], k) == Count(s, k) + (if x == k then 1 else 0)
  {
    assert (s + [x])[..|s|] == s;
  }

  /** `Counter(s)`: each element seen, with how often it occurs. */
  function Tally<T(==,!new)>(s: seq<T>): (m: map<T, nat>)
    ensures forall k :: k in m <==> k in s
    ensures forall k :: k in m ==> m[k] == Count(s, k) && m[k] > 0
  {
    map k | k in s :: Count(s, k)
  }

  /** Counting one more element bumps its tally by one, from zero when it is new. */
  lemma TallySnoc<T(!new)>(s: seq<T>, x: T)
    ensures Tally(s + [x]) == Tally(s)[x := (if x in Tally(s) then Tally(s)[x] else 0) + 1]
  {
    forall k | k in s + [x]
      ensures Count(s + [x], k) == Count(s, k) + (if x == k then 1 else 0)
    {
      CountSnoc(s, x, k);
    }
  }

  /** The total of the counts of the keys `ks` in `s`. */
  function SumCounts<T(==)>(ks: seq<T>, s: seq<T>): nat
  {
    if |ks| == 0 then 0 else Count(s, ks[0]) + SumCounts(ks[1..], s)
  }

  /** Occurrences of `x` in a sequence without repetitions: one if present. */
  lemma {:induction false} CountDistinct<T>(ks: seq<T>, x: T)
    requires Distinct(ks)
    ensures Count(ks, x) == if x in ks then 1 else 0
    decreases |ks|
  {
    if |ks| > 0 {
      var init := ks[..|ks| - 1];
      assert Distinct(init);
      CountDistinct(init, x);
      assert ks == init + [ks[|ks| - 1]];
      CountSnoc(init, ks[|ks| - 1], x);
    }
  }

  lemma {:induction false} SumCountsSnoc<T>(ks: seq<T>, s: seq<T>, x: T)
    ensures SumCounts(ks, s + [x]) == SumCounts(ks, s) + Count(ks, x)
    decreases |ks|
  {
    if |ks| > 0 {
      SumCountsSnoc(ks[1..], s, x);
      CountSnoc(s, x, ks[0]);
      assert ks == [ks[0]] + ks[1..];
      CountCommute(ks[0], ks[1..], x);
    }
  }

  lemma {:induction false} CountCommute<T>(y: T, s: seq<T>, k: T)
    ensures Count([y] + s, k) == (if y == k then 1 else 0) + Count(s, k)
    decreases |s|
  {
    if |s| > 0 {
      var init := s[..|s| - 1];
      var last := s[|s| - 1];
      assert s == init + [last];
      assert [y] + s == ([y] + init) + [last];
      CountSnoc([y] + init, last, k);
      CountSnoc(init, last, k);
      CountCommute(y, init, k);
    } else {
      assert [y] + s == [] + [y];
      CountSnoc([], y, k);
    }
  }

  /**
   * The counts of all distinct keys add up to the number of counted items: a tally neither
   * loses nor invents an item.
   */
  lemma {:induction false} SumCountsTotal<T>(ks: seq<T>, s: seq<T>)
    requires Distinct(ks)
    requires forall i :: 0 <= i < |s| ==> s[i] in ks
    ensures SumCounts(ks, s) == |s|
    decreases |s|
  {
    if |s| == 0 {
      SumCountsZero(ks);
    } else {
      var init := s[..|s| - 1];
      var x := s[|s| - 1];
      assert s == init + [x];
      SumCountsTotal(ks, init);
      SumCountsSnoc(ks, init, x);
      CountDistinct(ks, x);
    }
  }

  lemma {:induction false} SumCountsZero<T>(ks: seq<T>)
    ensures SumCounts(ks, []) == 0
    decreases |ks|
  {
    if |ks| > 0 {
      SumCountsZero(ks[1..]);
    }
  }

  /** The tally of `s` accounts for every item exactly once. */
  lemma TallyTotal<T(!new)>(s: seq<T>)
    ensures SumCounts(Dedup(s), s) == |s|
  {
    SumCountsTotal(Dedup(s), s);
  }
}
