/**
 * The slug the guidance adapters derive record ids from:
 * `re.sub(r"[^a-z0-9]+", "-", title.lower()).strip("-")[:60]`.
 */
module Slug {
  import opened Text

  predicate IsSlugChar(c: char) { IsLower(c) || IsDigit(c) }

  /** Drops the run of non-slug characters at the start of `s`. */
  function DropOthers(s: string): (r: string)
    ensures |r| <= |s|
    decreases |s|
  {
    if |s| > 0 && !IsSlugChar(s[0]) then DropOthers(s[1..]) else s
  }

  /** What is left is a suffix of `s` that is empty or starts with a slug character. */
  lemma {:induction false} DropOthersSuffix(s: string)
    ensures var r := DropOthers(s);
      r == s[|s| - |r|..] && (|r| == 0 || IsSlugChar(r[0]))
    decreases |s|
  {
    if |s| > 0 && !IsSlugChar(s[0]) {
      DropOthersSuffix(s[1..]);
      var r := DropOthers(s[1..]);
      assert s[1..][|s| - 1 - |r|..] == s[|s| - |r|..];
    }
  }

  /** Dropping stops at or before a final slug character, so that character stays last. */
  lemma {:induction false} DropOthersKeepsLast(s: string)
    requires |s| > 0 && IsSlugChar(s[|s| - 1])
    ensures |DropOthers(s)| > 0 && DropOthers(s)[|DropOthers(s)| - 1] == s[|s| - 1]
    decreases |s|
  {
    if !IsSlugChar(s[0]) {
      assert s[1..][|s| - 2] == s[|s| - 1];
      DropOthersKeepsLast(s[1..]);
    }
  }

  /** `re.sub(r"[^a-z0-9]+", "-", s)`: every maximal run of other characters becomes one `'-'`. */
  function CollapseRuns(s: string): (r: string)
    ensures |r| <= |s|
    decreases |s|
  {
    if |s| == 0 then ""
    else if IsSlugChar(s[0]) then [s[0]] + CollapseRuns(s[1..])
    else "-" + CollapseRuns(DropOthers(s[1..]))
  }

  /** Collapsing leaves only slug characters and single `'-'`s. */
  lemma {:induction false} CollapseIsClean(s: string)
    ensures Clean(CollapseRuns(s))
    decreases |s|
  {
    if |s| > 0 {
      var t := if IsSlugChar(s[0]) then s[1..] else DropOthers(s[1..]);
      var rest := CollapseRuns(t);
      CollapseIsClean(t);
      var r := CollapseRuns(s);
      if IsSlugChar(s[0]) {
        assert r == [s[0]] + rest;
      } else {
        assert r == "-" + rest;
        DropOthersSuffix(s[1..]);
        if |rest| > 0 {
          assert IsSlugChar(t[0]) && rest[0] == t[0];
        }
      }
      forall i | 0 <= i < |r|
        ensures IsSlugChar(r[i]) || r[i] == '-'
      {
        if i > 0 {
          assert r[i] == rest[i - 1];
        }
      }
      forall i | 0 <= i < |r| - 1
        ensures !(r[i] == '-' && r[i + 1] == '-')
      {
        if i > 0 {
          assert r[i] == rest[i - 1] && r[i + 1] == rest[i];
        }
      }
    }
  }

  /**
   * Collapsing keeps a text non-empty, and keeps its first and last character when those are
   * slug characters.
   */
  lemma {:induction false} CollapseEnds(s: string)
    requires |s| > 0
    ensures |CollapseRuns(s)| > 0
    ensures IsSlugChar(s[0]) ==> CollapseRuns(s)[0] == s[0]
    ensures IsSlugChar(s[|s| - 1]) ==> CollapseRuns(s)[|CollapseRuns(s)| - 1] == s[|s| - 1]
    decreases |s|
  {
    var r := CollapseRuns(s);
    var t := if IsSlugChar(s[0]) then s[1..] else DropOthers(s[1..]);
    var rest := CollapseRuns(t);
    if IsSlugChar(s[0]) {
      assert r == [s[0]] + rest;
    } else {
      assert r == "-" + rest;
    }
    if IsSlugChar(s[|s| - 1]) && |s| > 1 {
      assert s[1..][|s| - 2] == s[|s| - 1];
      if !IsSlugChar(s[0]) {
        DropOthersKeepsLast(s[1..]);
      }
      assert |t| > 0 && t[|t| - 1] == s[|s| - 1];
      CollapseEnds(t);
      assert r[|r| - 1] == rest[|rest| - 1];
    }
  }

  /** The slug of a title. */
  function Slug(title: string): string
  {
    Take(StripChar(CollapseRuns(Lower(title)), '-'), 60)
  }

  /** Only `[a-z0-9-]` and never two `'-'` in a row. */
  predicate Clean(s: string)
  {
    (forall i :: 0 <= i < |s| ==> IsSlugChar(s[i]) || s[i] == '-') &&
    (forall i :: 0 <= i < |s| - 1 ==> !(s[i] == '-' && s[i + 1] == '-'))
  }

  /** Only `[a-z0-9-]`, no leading `'-'` and never two `'-'` in a row. */
  predicate SlugShaped(s: string)
  {
    Clean(s) && (|s| == 0 || s[0] != '-')
  }

  lemma CleanSlice(s: string, a: nat, b: nat)
    requires a <= b <= |s| && Clean(s)
    ensures Clean(s[a..b])
  {
    var t := s[a..b];
    forall i | 0 <= i < |t| - 1
      ensures !(t[i] == '-' && t[i + 1] == '-')
    {
      assert t[i] == s[a + i] && t[i + 1] == s[a + i + 1];
    }
  }

  /** A slug has only `[a-z0-9-]`, no leading `'-'`, no `'--'`, and at most 60 characters. */
  lemma SlugIsShaped(title: string)
    ensures SlugShaped(Slug(title)) && |Slug(title)| <= 60
  {
    var c := CollapseRuns(Lower(title));
    CollapseIsClean(Lower(title));
    var l := LStripChar(c, '-');
    CleanSlice(c, |c| - |l|, |c|);
    var st := RStripChar(l, '-');
    CleanSlice(l, 0, |st|);
    assert st == StripChar(c, '-');
    var r := Take(st, 60);
    CleanSlice(st, 0, |r|);
    assert |r| > 0 ==> r[0] == l[0];
  }

  /**
   * `f"{prefix}{slug}" if slug else f"{prefix}{int(datetime.now().timestamp())}"`, with the
   * clock's reading given as `stamp`.
   */
  function SlugId(prefix: string, title: string, stamp: string): (id: string)
    ensures Slug(title) != "" ==> id == prefix + Slug(title)
    ensures Slug(title) == "" ==> id == prefix + stamp
  {
    prefix + Or(Slug(title), stamp)
  }

  /** Dropping stops inside `a` when `a` holds a slug character. */
  lemma {:induction false} DropOthersAppend(a: string, b: string)
    requires exists i :: 0 <= i < |a| && IsSlugChar(a[i])
    ensures DropOthers(a + b) == DropOthers(a) + b
    decreases |a|
  {
    if !IsSlugChar(a[0]) {
      assert (a + b)[1..] == a[1..] + b;
      var i :| 0 <= i < |a| && IsSlugChar(a[i]);
      assert IsSlugChar(a[1..][i - 1]);
      DropOthersAppend(a[1..], b);
    }
  }

  /** A text ending in a slug character collapses on its own, whatever follows it. */
  lemma {:induction false} CollapseAppend(q: string, r: string)
    requires |q| > 0 && IsSlugChar(q[|q| - 1])
    ensures CollapseRuns(q + r) == CollapseRuns(q) + CollapseRuns(r)
    decreases |q|
  {
    var s := q + r;
    assert s[0] == q[0];
    assert s[1..] == q[1..] + r;
    if IsSlugChar(q[0]) {
      if |q| == 1 {
        assert q[1..] + r == r;
        assert CollapseRuns(q) == [q[0]];
      } else {
        CollapseAppend(q[1..], r);
        var a, b := CollapseRuns(q[1..]), CollapseRuns(r);
        assert [q[0]] + (a + b) == ([q[0]] + a) + b;
      }
    } else {
      assert IsSlugChar(q[1..][|q| - 2]);
      DropOthersAppend(q[1..], r);
      var d := DropOthers(q[1..]);
      DropOthersKeepsLast(q[1..]);
      CollapseAppend(d, r);
      var a, b := CollapseRuns(d), CollapseRuns(r);
      assert "-" + (a + b) == ("-" + a) + b;
    }
  }

  /** Stripping `'-'` and cutting at 60 keep a prefix that neither starts nor ends with `'-'`. */
  lemma StripTakeKeepsPrefix(c: string, p: string)
    requires 0 < |p| <= |c| && |p| <= 60 && c[..|p|] == p && p[0] != '-' && p[|p| - 1] != '-'
    ensures |p| <= |Take(StripChar(c, '-'), 60)| && Take(StripChar(c, '-'), 60)[..|p|] == p
  {
    assert c[0] == p[0];
    assert LStripChar(c, '-') == c;
    var st := RStripChar(c, '-');
    assert c[|p| - 1] == p[|p| - 1];
    assert |st| >= |p|;
    assert st[..|p|] == p;
  }

  /**
   * The slug of a title whose lower-cased text starts with `q` starts with `q` collapsed,
   * when `q` begins and ends with a slug character and has at most 60 characters.
   */
  lemma SlugStartsWith(title: string, q: string)
    requires |q| > 0 && IsSlugChar(q[0]) && IsSlugChar(q[|q| - 1]) && |q| <= 60
    requires |q| <= |title| && Lower(title)[..|q|] == q
    ensures |CollapseRuns(q)| <= |Slug(title)| && Slug(title)[..|CollapseRuns(q)|] == CollapseRuns(q)
  {
    var s := Lower(title);
    assert s == q + s[|q|..];
    CollapseAppend(q, s[|q|..]);
    CollapseEnds(q);
    var cq := CollapseRuns(q);
    assert CollapseRuns(s)[..|cq|] == cq;
    StripTakeKeepsPrefix(CollapseRuns(s), cq);
  }

  /** Every character of `s` is a slug character. */
  predicate AllSlug(s: string)
  {
    forall i :: 0 <= i < |s| ==> IsSlugChar(s[i])
  }

  /** No character of `s` is a slug character. */
  predicate NoSlug(s: string)
  {
    forall i :: 0 <= i < |s| ==> !IsSlugChar(s[i])
  }

  /** A word of slug characters is left as it is. */
  lemma {:induction false} CollapseWord(w: string)
    requires AllSlug(w)
    ensures CollapseRuns(w) == w
    decreases |w|
  {
    if |w| > 0 {
      assert AllSlug(w[1..]) by {
        assert forall i :: 0 <= i < |w| - 1 ==> w[1..][i] == w[i + 1];
      }
      CollapseWord(w[1..]);
      assert w == [w[0]] + w[1..];
    }
  }

  /** A run of other characters in front of text starting with a slug character becomes one `'-'`. */
  lemma CollapseSeparated(sep: string, v: string)
    requires |sep| > 0 && NoSlug(sep) && |v| > 0 && IsSlugChar(v[0])
    ensures CollapseRuns(sep + v) == "-" + CollapseRuns(v)
  {
    var s := sep + v;
    assert s[0] == sep[0] && !IsSlugChar(s[0]);
    assert s[1..] == sep[1..] + v;
    DropOthersAll(sep[1..], v);
    assert DropOthers(s[1..]) == v;
  }

  /** Dropping a run of other characters in front of a word leaves the word. */
  lemma {:induction false} DropOthersAll(sep: string, v: string)
    requires NoSlug(sep) && |v| > 0 && IsSlugChar(v[0])
    ensures DropOthers(sep + v) == v
    decreases |sep|
  {
    if |sep| == 0 {
      assert sep + v == v;
    } else {
      assert (sep + v)[1..] == sep[1..] + v;
      assert NoSlug(sep[1..]) by {
        assert forall i :: 0 <= i < |sep| - 1 ==> sep[1..][i] == sep[i + 1];
      }
      DropOthersAll(sep[1..], v);
    }
  }

  /** Lower-casing a title keeps the lower-cased text of its first characters in front. */
  lemma LowerPrefix(title: string, head: string)
    requires |head| <= |title| && title[..|head|] == head
    ensures Lower(title)[..|head|] == Lower(head)
  {
  }

  /** Words joined by the separators between them: `words[0] + seps[0] + words[1] + ...`. */
  function Spaced(words: seq<string>, seps: seq<string>): string
    requires |words| == |seps| + 1
  {
    if |seps| == 0 then words[0] else words[0] + (seps[0] + Spaced(words[1..], seps[1..]))
  }

  /** Words joined by `'-'`. */
  function Dashed(words: seq<string>): string
    requires |words| > 0
  {
    if |words| == 1 then words[0] else words[0] + ("-" + Dashed(words[1..]))
  }

  /** Every word is a non-empty run of slug characters and every separator a non-empty run of others. */
  predicate WordsAndSeparators(words: seq<string>, seps: seq<string>)
  {
    |words| == |seps| + 1 && |words[0]| > 0 && AllSlug(words[0]) &&
    (|seps| > 0 ==> |seps[0]| > 0 && NoSlug(seps[0]) && WordsAndSeparators(words[1..], seps[1..]))
  }

  /** Words separated by runs of other characters collapse to the words joined by `'-'`. */
  lemma {:induction false} CollapseSpaced(words: seq<string>, seps: seq<string>)
    requires WordsAndSeparators(words, seps)
    ensures |Spaced(words, seps)| > 0 && IsSlugChar(Spaced(words, seps)[0])
    ensures IsSlugChar(Spaced(words, seps)[|Spaced(words, seps)| - 1])
    ensures CollapseRuns(Spaced(words, seps)) == Dashed(words)
    decreases |seps|
  {
    var w := words[0];
    CollapseWord(w);
    if |seps| > 0 {
      var rest := Spaced(words[1..], seps[1..]);
      CollapseSpaced(words[1..], seps[1..]);
      CollapseSeparated(seps[0], rest);
      CollapseAppend(w, seps[0] + rest);
      assert Spaced(words, seps)[|Spaced(words, seps)| - 1] == rest[|rest| - 1];
    }
  }

  /** A single word is a list of words with no separators. */
  lemma OneWord(w: string)
    requires |w| > 0 && AllSlug(w)
    ensures WordsAndSeparators([w], [])
  {
  }

  /** A word and a separator put in front of a list of words and separators. */
  lemma MoreWords(w: string, sep: string, words: seq<string>, seps: seq<string>)
    requires |w| > 0 && AllSlug(w) && |sep| > 0 && NoSlug(sep)
    requires WordsAndSeparators(words, seps)
    ensures WordsAndSeparators([w] + words, [sep] + seps)
  {
    assert ([w] + words)[1..] == words && ([sep] + seps)[1..] == seps;
  }

  /** The slug of `title` starts with `c`. */
  predicate SlugBegins(title: string, c: string)
  {
    |c| <= |Slug(title)| && Slug(title)[..|c|] == c
  }

  /**
   * The slug of a title that starts with `head`, whose lower-cased text is words separated by
   * runs of other characters, starts with those words joined by `'-'`.
   */
  lemma SlugBeginsWithWords(title: string, head: string, words: seq<string>, seps: seq<string>)
    requires 0 < |head| <= |title| && |head| <= 60 && title[..|head|] == head
    requires WordsAndSeparators(words, seps) && Lower(head) == Spaced(words, seps)
    ensures SlugBegins(title, Dashed(words))
  {
    CollapseSpaced(words, seps);
    LowerPrefix(title, head);
    SlugStartsWith(title, Lower(head));
  }

  /** Two titles whose slugs start with texts that differ at position `k` have different slugs. */
  lemma SlugsDiffer(t1: string, t2: string, c1: string, c2: string, k: nat)
    requires SlugBegins(t1, c1) && SlugBegins(t2, c2)
    requires k < |c1| && k < |c2| && c1[k] != c2[k]
    ensures Slug(t1) != Slug(t2)
  {
    assert Slug(t1)[k] == c1[k] && Slug(t2)[k] == c2[k];
  }
}
