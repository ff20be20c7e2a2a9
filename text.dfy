/**
 * ASCII models of the Python `str` operations the scrapers and table passes rely on:
 * case mapping, `in`, `startswith`/`endswith`, `strip`, slicing, `join`, `split` and
 * the code-point ordering behind `<` on strings.
 */
module Text {

  predicate IsDigit(c: char) { '0' <= c <= '9' }
  predicate IsUpper(c: char) { 'A' <= c <= 'Z' }
  predicate IsLower(c: char) { 'a' <= c <= 'z' }
  predicate IsLetter(c: char) { IsUpper(c) || IsLower(c) }

  /** `str.isalnum()` on ASCII. */
  predicate IsAlnum(c: char) { IsLetter(c) || IsDigit(c) }

  /** The regex class `\w` on ASCII. */
  predicate IsWordChar(c: char) { IsAlnum(c) || c == '_' }

  /** `str.isspace()`, which is also the regex class `\s`, on ASCII. */
  predicate IsSpace(c: char)
  {
    c == ' ' || ('\t' <= c <= '\r') || ('\U{1c}' <= c <= '\U{1f}')
  }

  function DigitValue(c: char): nat
    requires IsDigit(c)
  {
    c as int - '0' as int
  }

  function LowerChar(c: char): char
  {
    if IsUpper(c) then (c as int + 32) as char else c
  }

  function UpperChar(c: char): char
  {
    if IsLower(c) then (c as int - 32) as char else c
  }

  /** `s.lower()` */
  function Lower(s: string): (r: string)
    ensures |r| == |s|
    ensures forall i :: 0 <= i < |s| ==> r[i] == LowerChar(s[i])
  {
    seq(|s|, i requires 0 <= i < |s| => LowerChar(s[i]))
  }

  /** `s.upper()` */
  function Upper(s: string): (r: string)
    ensures |r| == |s|
    ensures forall i :: 0 <= i < |s| ==> r[i] == UpperChar(s[i])
  {
    seq(|s|, i requires 0 <= i < |s| => UpperChar(s[i]))
  }

  lemma LowerAppend(a: string, b: string)
    ensures Lower(a + b) == Lower(a) + Lower(b)
  {
  }

  predicate StartsWith(s: string, p: string)
  {
    |p| <= |s| && s[..|p|] == p
  }

  predicate EndsWith(s: string, p: string)
  {
    |p| <= |s| && s[|s| - |p|..] == p
  }

  predicate OccursAt(s: string, p: string, i: int)
  {
    0 <= i && i + |p| <= |s| && s[i..i + |p|] == p
  }

  /** Python's `p in s` for strings. */
  predicate Contains(s: string, p: string)
  {
    exists i | 0 <= i <= |s| - |p| :: OccursAt(s, p, i)
  }

  lemma ContainsAt(s: string, p: string, i: int)
    requires OccursAt(s, p, i)
    ensures Contains(s, p)
  {
  }

  lemma ContainsLonger(s: string, p: string, q: string)
    requires Contains(s, q) && StartsWith(q, p)
    ensures Contains(s, p)
  {
    var i :| 0 <= i <= |s| - |q| && OccursAt(s, q, i);
    assert s[i..i + |p|] == q[..|p|];
    assert OccursAt(s, p, i);
  }

  /** `s[:n]` */
  function Take<T>(s: seq<T>, n: nat): (r: seq<T>)
    ensures |r| == if n <= |s| then n else |s|
    ensures r == s[..|r|]
  {
    if n <= |s| then s[..n] else s
  }

  /** `s.lstrip()` */
  function LStrip(s: string): (r: string)
    ensures |r| <= |s|
    ensures r == [] || !IsSpace(r[0])
    decreases |s|
  {
    if |s| > 0 && IsSpace(s[0]) then LStrip(s[1..]) else s
  }

  /** `lstrip` drops a prefix of white space: what remains is a suffix of `s`. */
  lemma {:induction false} LStripIsSuffix(s: string)
    ensures LStrip(s) == s[|s| - |LStrip(s)|..]
    ensures forall i :: 0 <= i < |s| - |LStrip(s)| ==> IsSpace(s[i])
    decreases |s|
  {
    if |s| > 0 && IsSpace(s[0]) {
      LStripIsSuffix(s[1..]);
      assert s[1..][|s| - 1 - |LStrip(s)|..] == s[|s| - |LStrip(s)|..];
    }
  }

  /** `s.rstrip()` */
  function RStrip(s: string): (r: string)
    ensures |r| <= |s| && r == s[..|r|]
    ensures r == [] || !IsSpace(r[|r| - 1])
    decreases |s|
  {
    if |s| > 0 && IsSpace(s[|s| - 1]) then RStrip(s[..|s| - 1]) else s
  }

  /** `s.strip()` */
  function Strip(s: string): string
  {
    RStrip(LStrip(s))
  }

  /** `s.strip(c)` for a single character `c`. */
  function StripChar(s: string, c: char): string
  {
    RStripChar(LStripChar(s, c), c)
  }

  function LStripChar(s: string, c: char): (r: string)
    ensures |r| <= |s| && r == s[|s| - |r|..]
    ensures r == [] || r[0] != c
    ensures forall i :: 0 <= i < |s| - |r| ==> s[i] == c
    decreases |s|
  {
    if |s| > 0 && s[0] == c then LStripChar(s[1..], c) else s
  }

  function RStripChar(s: string, c: char): (r: string)
    ensures |r| <= |s| && r == s[..|r|]
    ensures r == [] || r[|r| - 1] != c
    ensures forall i :: |r| <= i < |s| ==> s[i] == c
    decreases |s|
  {
    if |s| > 0 && s[|s| - 1] == c then RStripChar(s[..|s| - 1], c) else s
  }

  /** `s.replace(c, '')` */
  function RemoveChar(s: string, c: char): (r: string)
    ensures c !in r
    ensures |r| <= |s|
    ensures forall x :: x in r ==> x in s
  {
    if |s| == 0 then "" else (if s[0] == c then "" else [s[0]]) + RemoveChar(s[1..], c)
  }

  lemma {:induction false} RemoveCharAppend(a: string, b: string, c: char)
    ensures RemoveChar(a + b, c) == RemoveChar(a, c) + RemoveChar(b, c)
    decreases |a|
  {
    if |a| > 0 {
      assert (a + b)[0] == a[0] && (a + b)[1..] == a[1..] + b;
      RemoveCharAppend(a[1..], b, c);
      var h := if a[0] == c then "" else [a[0]];
      assert RemoveChar(a + b, c) == h + (RemoveChar(a[1..], c) + RemoveChar(b, c));
      assert RemoveChar(a, c) == h + RemoveChar(a[1..], c);
    } else {
      assert a + b == b;
    }
  }

  /** Removing a character a text does not hold leaves it as it is. */
  lemma {:induction false} RemoveCharAbsent(s: string, c: char)
    requires c !in s
    ensures RemoveChar(s, c) == s
    decreases |s|
  {
    if |s| > 0 {
      assert s[0] in s;
      assert c !in s[1..] by { assert forall x :: x in s[1..] ==> x in s; }
      RemoveCharAbsent(s[1..], c);
      assert s == [s[0]] + s[1..];
    }
  }

  /** `sep.join(parts)` */
  function Join(parts: seq<string>, sep: string): string
  {
    if |parts| == 0 then ""
    else if |parts| == 1 then parts[0]
    else parts[0] + sep + Join(parts[1..], sep)
  }

  /** `s.split(sep)` for a non-empty separator: leftmost, non-overlapping occurrences. */
  function SplitOn(s: string, sep: string): (r: seq<string>)
    requires |sep| > 0
    ensures |r| >= 1
    decreases |s|
  {
    if |s| == 0 then [""]
    else if StartsWith(s, sep) then [""] + SplitOn(s[|sep|..], sep)
    else
      var rest := SplitOn(s[1..], sep);
      [[s[0]] + rest[0]] + rest[1..]
  }

  /** The first piece of a split on one character does not contain that character. */
  lemma {:induction false} SplitOnFirstPiece(s: string, c: char)
    ensures c !in SplitOn(s, [c])[0]
    decreases |s|
  {
    if |s| > 0 && !StartsWith(s, [c]) {
      SplitOnFirstPiece(s[1..], c);
      assert s[0] != c;
    }
  }

  /** Length of the run of non-whitespace characters at the start of `s`. */
  function WordLength(s: string): (n: nat)
    ensures n <= |s|
    ensures forall i :: 0 <= i < n ==> !IsSpace(s[i])
    ensures n == |s| || IsSpace(s[n])
  {
    if |s| == 0 || IsSpace(s[0]) then 0 else 1 + WordLength(s[1..])
  }

  /**
   * `s.split()` with no argument: the maximal runs of non-whitespace characters. Blank text
   * has no words (`WordsOfBlank`), a text without white space is one word (`WordsOfWord`), and
   * a white-space character separates the words before it from those after it (`WordsSplit`).
   */
  function Words(s: string): (r: seq<string>)
    ensures forall w :: w in r ==> |w| > 0
    decreases |s|
  {
    if |s| == 0 then []
    else if IsSpace(s[0]) then Words(s[1..])
    else
      var n := WordLength(s);
      [s[..n]] + Words(s[n..])
  }

  /** Text made of white space only has no words. */
  lemma {:induction false} WordsOfBlank(s: string)
    requires forall k :: 0 <= k < |s| ==> IsSpace(s[k])
    ensures Words(s) == []
    decreases |s|
  {
    if |s| > 0 {
      WordsOfBlank(s[1..]);
    }
  }

  /** Non-empty text without white space is a single word. */
  lemma WordsOfWord(s: string)
    requires |s| > 0 && forall k :: 0 <= k < |s| ==> !IsSpace(s[k])
    ensures Words(s) == [s]
  {
    var n := WordLength(s);
    assert n == |s|;
    assert s[..n] == s && s[n..] == [];
  }

  /** A word followed by white space or nothing: the run at the start is that word. */
  lemma {:induction false} WordLengthOf(w: string, rest: string)
    requires forall k :: 0 <= k < |w| ==> !IsSpace(w[k])
    requires |rest| == 0 || IsSpace(rest[0])
    ensures WordLength(w + rest) == |w|
    decreases |w|
  {
    if |w| > 0 {
      assert (w + rest)[1..] == w[1..] + rest;
      WordLengthOf(w[1..], rest);
    } else {
      assert w + rest == rest;
    }
  }

  /** The words of a word followed by white space or nothing: that word, then the rest's words. */
  lemma WordsWordThen(w: string, rest: string)
    requires |w| > 0 && forall k :: 0 <= k < |w| ==> !IsSpace(w[k])
    requires |rest| == 0 || IsSpace(rest[0])
    ensures Words(w + rest) == [w] + Words(rest)
  {
    var s := w + rest;
    WordLengthOf(w, rest);
    assert s[..|w|] == w && s[|w|..] == rest;
    assert s[0] == w[0];
  }

  /** One step of `Words`. */
  lemma WordsUnfold(s: string)
    requires |s| > 0
    ensures IsSpace(s[0]) ==> Words(s) == Words(s[1..])
    ensures !IsSpace(s[0]) ==> Words(s) == [s[..WordLength(s)]] + Words(s[WordLength(s)..])
  {
  }

  /** A white-space character splits the words: those of `a`, then those of `b`. */
  lemma {:induction false} WordsSplit(a: string, c: char, b: string)
    requires IsSpace(c)
    ensures Words(a + [c] + b) == Words(a) + Words(b)
    decreases |a|
  {
    if |a| == 0 {
      var s := a + [c] + b;
      assert s[1..] == b;
      WordsUnfold(s);
    } else if IsSpace(a[0]) {
      WordsSplit(a[1..], c, b);
      WordsSplitSpace(a, c, b);
    } else {
      var m := WordLength(a);
      WordsSplit(a[m..], c, b);
      WordsSplitWord(a[..m], a[m..], c, b);
      assert a[..m] + a[m..] == a;
    }
  }

  /** `WordsSplit` for an `a` that starts with white space, given the rest of `a`. */
  lemma WordsSplitSpace(a: string, c: char, b: string)
    requires |a| > 0 && IsSpace(a[0])
    requires Words(a[1..] + [c] + b) == Words(a[1..]) + Words(b)
    ensures Words(a + [c] + b) == Words(a) + Words(b)
  {
    var s := a + [c] + b;
    assert s[0] == a[0] && s[1..] == a[1..] + [c] + b;
    WordsUnfold(s);
    WordsUnfold(a);
  }

  /** `WordsSplit` for a word `w` followed by white space or nothing, given the split of `r`. */
  lemma WordsSplitWord(w: string, r: string, c: char, b: string)
    requires IsSpace(c) && |w| > 0 && forall k :: 0 <= k < |w| ==> !IsSpace(w[k])
    requires |r| == 0 || IsSpace(r[0])
    requires Words(r + [c] + b) == Words(r) + Words(b)
    ensures Words(w + r + [c] + b) == Words(w + r) + Words(b)
  {
    SpaceFirst(r, c, b);
    WordsWordThen(w, r + [c] + b);
    Regroup(w + r, [c], b);
    Regroup(w, r, [c] + b);
    Regroup(r, [c], b);
    Regroup([w], Words(r), Words(b));
    WordsWordThen(w, r);
  }

  /** `r + [c] + b` starts with white space when `r` does or is empty and `c` is white space. */
  lemma SpaceFirst(r: string, c: char, b: string)
    requires IsSpace(c) && (|r| == 0 || IsSpace(r[0]))
    ensures IsSpace((r + [c] + b)[0])
  {
  }

  /** Concatenation regrouped (kept apart so that the proofs using it stay small). */
  lemma Regroup<T>(x: seq<T>, y: seq<T>, z: seq<T>)
    ensures x + y + z == x + (y + z)
  {
  }

  /** Text whose every character belongs to the class. */
  predicate AllIn(s: string, inClass: char -> bool)
  {
    forall c :: c in s ==> inClass(c)
  }

  /**
   * The pieces of `s` between the characters outside a class, empty pieces included: a text
   * made of the class is one piece (`RunsOfClass`), and any other character splits (`RunsSplit`). The
   * non-empty pieces are the maximal runs of the class.
   */
  function Runs(s: string, inClass: char -> bool): (r: seq<string>)
    ensures |r| >= 1
    ensures forall k :: 0 <= k < |r| ==> AllIn(r[k], inClass)
    decreases |s|
  {
    if |s| == 0 then [""]
    else
      var rest := Runs(s[1..], inClass);
      if inClass(s[0]) then [[s[0]] + rest[0]] + rest[1..] else [""] + rest
  }

  /** A text made of the class is one piece. */
  lemma {:induction false} RunsOfClass(s: string, inClass: char -> bool)
    requires AllIn(s, inClass)
    ensures Runs(s, inClass) == [s]
    decreases |s|
  {
    if |s| > 0 {
      assert s[0] in s;
      assert AllIn(s[1..], inClass) by {
        assert forall c :: c in s[1..] ==> c in s;
      }
      RunsOfClass(s[1..], inClass);
      assert s == [s[0]] + s[1..];
    }
  }

  /** One step of `Runs`: the first character either extends the first piece or starts a new one. */
  lemma RunsCons(x: char, t: string, inClass: char -> bool)
    ensures Runs([x] + t, inClass) ==
      if inClass(x) then [[x] + Runs(t, inClass)[0]] + Runs(t, inClass)[1..] else [""] + Runs(t, inClass)
  {
    assert ([x] + t)[0] == x && ([x] + t)[1..] == t;
  }

  /** Extending the first piece of `p + q` extends the first piece of `p`. */
  lemma ExtendFirst(x: char, p: seq<string>, q: seq<string>)
    requires |p| >= 1
    ensures [[x] + (p + q)[0]] + (p + q)[1..] == ([[x] + p[0]] + p[1..]) + q
  {
    assert (p + q)[1..] == p[1..] + q;
  }

  /** A character outside the class splits the pieces: those of `a`, then those of `b`. */
  lemma {:induction false} RunsSplit(a: string, c: char, b: string, inClass: char -> bool)
    requires !inClass(c)
    ensures Runs(a + [c] + b, inClass) == Runs(a, inClass) + Runs(b, inClass)
    decreases |a|
  {
    if |a| == 0 {
      assert a + [c] + b == [c] + b;
      RunsCons(c, b, inClass);
    } else {
      RunsSplit(a[1..], c, b, inClass);
      RunsSplitStep(a[0], a[1..], c, b, inClass);
      assert [a[0]] + a[1..] == a;
    }
  }

  /** `RunsSplit` for `[x] + t`, given the split of `t`. */
  lemma RunsSplitStep(x: char, t: string, c: char, b: string, inClass: char -> bool)
    requires Runs(t + [c] + b, inClass) == Runs(t, inClass) + Runs(b, inClass)
    ensures Runs([x] + t + [c] + b, inClass) == Runs([x] + t, inClass) + Runs(b, inClass)
  {
    var rt, rb := Runs(t, inClass), Runs(b, inClass);
    calc {
      Runs([x] + t + [c] + b, inClass);
      { assert [x] + t + [c] + b == [x] + (t + [c] + b); }
      Runs([x] + (t + [c] + b), inClass);
      { RunsCons(x, t + [c] + b, inClass); }
      if inClass(x) then [[x] + (rt + rb)[0]] + (rt + rb)[1..] else [""] + (rt + rb);
      { if inClass(x) { ExtendFirst(x, rt, rb); } }
      (if inClass(x) then [[x] + rt[0]] + rt[1..] else [""] + rt) + rb;
      { RunsCons(x, t, inClass); }
      Runs([x] + t, inClass) + rb;
    }
  }

  /** Python's `a < b` on strings: lexicographic by code point, a proper prefix first. */
  predicate StrLess(a: string, b: string)
    decreases |a|
  {
    if |a| == 0 then |b| > 0
    else if |b| == 0 then false
    else if a[0] != b[0] then a[0] < b[0]
    else StrLess(a[1..], b[1..])
  }

  lemma {:induction false} StrLessIrreflexive(a: string)
    ensures !StrLess(a, a)
    decreases |a|
  {
    if |a| > 0 {
      StrLessIrreflexive(a[1..]);
    }
  }

  lemma {:induction false} StrLessTransitive(a: string, b: string, c: string)
    requires StrLess(a, b) && StrLess(b, c)
    ensures StrLess(a, c)
    decreases |a|
  {
    if |a| > 0 && |b| > 0 && |c| > 0 && a[0] == b[0] && b[0] == c[0] {
      StrLessTransitive(a[1..], b[1..], c[1..]);
    }
  }

  lemma {:induction false} StrLessTotal(a: string, b: string)
    ensures a == b || StrLess(a, b) || StrLess(b, a)
    decreases |a|
  {
    if |a| > 0 && |b| > 0 && a[0] == b[0] {
      StrLessTotal(a[1..], b[1..]);
      if a[1..] == b[1..] {
        assert a == [a[0]] + a[1..] && b == [b[0]] + b[1..];
      }
    }
  }

  /** Comparing two texts whose first parts have the same length compares those parts first. */
  lemma {:induction false} StrLessAppend(a1: string, a2: string, b1: string, b2: string)
    requires |a1| == |b1|
    ensures StrLess(a1 + a2, b1 + b2) <==> StrLess(a1, b1) || (a1 == b1 && StrLess(a2, b2))
    decreases |a1|
  {
    if |a1| > 0 {
      assert (a1 + a2)[1..] == a1[1..] + a2;
      assert (b1 + b2)[1..] == b1[1..] + b2;
      assert a1 == [a1[0]] + a1[1..] && b1 == [b1[0]] + b1[1..];
      StrLessAppend(a1[1..], a2, b1[1..], b2);
    } else {
      assert a1 + a2 == a2 && b1 + b2 == b2;
    }
  }

  lemma StrLessAsymmetric(a: string, b: string)
    requires StrLess(a, b)
    ensures !StrLess(b, a)
  {
    if StrLess(b, a) {
      StrLessTransitive(a, b, a);
      StrLessIrreflexive(a);
    }
  }

  /** `d.get(k, default)` on a string-valued dictionary. */
  function Get(m: map<string, string>, k: string, default: string): string
  {
    if k in m then m[k] else default
  }

  /** `a or b` on strings: the empty string is falsy. */
  function Or(a: string, b: string): string
  {
    if a != "" then a else b
  }
}
