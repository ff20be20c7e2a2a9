/**
 * The keyword lists of the guidance adapters: the distinct words of at least four
 * lower-case letters, in first-seen order, cut off at a cap (20 or 25).
 */
module Keywords {
  import opened Text
  import opened Collections

  /** Text made of lower-case ASCII letters only. */
  predicate AllLower(t: string)
  {
    AllIn(t, IsLower)
  }

  /** Lower-casing leaves lower-case text as it is. */
  lemma LowerOfLower(t: string)
    requires AllLower(t)
    ensures Lower(t) == t
  {
    forall i | 0 <= i < |t| ensures Lower(t)[i] == t[i] {
      assert t[i] in t;
    }
  }

  function LongPieces(ps: seq<string>): (r: seq<string>)
    ensures forall t :: t in r ==> t in ps && |t| >= 4
  {
    if |ps| == 0 then []
    else (if |ps[0]| >= 4 then [ps[0]] else []) + LongPieces(ps[1..])
  }

  lemma {:induction false} LongPiecesAppend(p: seq<string>, q: seq<string>)
    ensures LongPieces(p + q) == LongPieces(p) + LongPieces(q)
    decreases |p|
  {
    if |p| > 0 {
      assert (p + q)[1..] == p[1..] + q;
      LongPiecesAppend(p[1..], q);
    } else {
      assert p + q == q;
    }
  }

  /**
   * `re.findall(r"[a-z]{4,}", s)`. Scanning reaches each maximal run of lower-case letters
   * at its first letter, where the greedy repetition takes the whole run; a run shorter than
   * four letters fails at each of its positions. So the matches are exactly the maximal
   * runs of at least four letters, in order.
   */
  function Tokens(s: string): (r: seq<string>)
    ensures forall t :: t in r ==> |t| >= 4 && AllLower(t)
    ensures AllLower(s) ==> r == if |s| >= 4 then [s] else []
  {
    assert AllLower(s) ==> LongPieces(Runs(s, IsLower)) == if |s| >= 4 then [s] else [] by {
      if AllLower(s) {
        RunsOfClass(s, IsLower);
        assert LongPieces([s]) == (if |s| >= 4 then [s] else []) + LongPieces([]);
      }
    }
    LongPieces(Runs(s, IsLower))
  }

  /**
   * Any character other than a lower-case letter ends a run: the tokens of `a`, then those of
   * `b`. With the single-run case of `Tokens`, this gives the tokens of every text.
   */
  lemma TokensSplit(a: string, c: char, b: string)
    requires !IsLower(c)
    ensures Tokens(a + [c] + b) == Tokens(a) + Tokens(b)
  {
    RunsSplit(a, c, b, IsLower);
    LongPiecesAppend(Runs(a, IsLower), Runs(b, IsLower));
  }

  /**
   * The first `cap` distinct tokens of the lower-cased text: at most `cap` distinct words of
   * four or more lower-case letters, in first-seen order, and all of them when the text has
   * no more than `cap` distinct words.
   */
  function KeywordsOf(text: string, cap: nat): (r: seq<string>)
    ensures |r| <= cap && Distinct(r)
    ensures forall t :: t in r ==> t in Tokens(Lower(text)) && |t| >= 4 && AllLower(t)
    ensures |r| <= |Dedup(Tokens(Lower(text)))| && r == Dedup(Tokens(Lower(text)))[..|r|]
    ensures |Dedup(Tokens(Lower(text)))| <= cap ==> forall t :: t in Tokens(Lower(text)) ==> t in r
  {
    Take(Dedup(Tokens(Lower(text))), cap)
  }

  /** One more token: kept when not among the distinct tokens before it. */
  lemma DedupStep(tokens: seq<string>, i: nat)
    requires i < |tokens|
    ensures Dedup(tokens[..i + 1]) ==
      if tokens[i] in Dedup(tokens[..i]) then Dedup(tokens[..i]) else Dedup(tokens[..i]) + [tokens[i]]
  {
    assert tokens[..i + 1] == tokens[..i] + [tokens[i]];
    DedupSnoc(tokens[..i], tokens[i]);
  }

  /** Once a prefix holds `cap` distinct tokens, they are the first `cap` distinct tokens of all. */
  lemma CapReached(tokens: seq<string>, i: nat, cap: nat)
    requires i <= |tokens| && |Dedup(tokens[..i])| == cap
    ensures Dedup(tokens[..i]) == Take(Dedup(tokens), cap)
  {
    DedupPrefix(tokens, i);
  }

  /** The body of the `seen`/`unique` loop: a token not seen before is kept and remembered. */
  method KeepIfUnseen(token: string, seen: set<string>, unique: seq<string>)
    returns (seen': set<string>, unique': seq<string>)
    requires forall t :: t in seen <==> t in unique
    ensures unique' == if token in unique then unique else unique + [token]
    ensures forall t :: t in seen' <==> t in unique'
  {
    seen', unique' := seen, unique;
    if token !in seen {
      unique' := unique + [token];
      seen' := seen + {token};
    }
  }

  /**
   * The `seen`/`unique` loop of `_build_keywords`: walks the tokens, keeps each one not seen
   * before, and stops once `cap` keywords are collected.
   */
  method FirstDistinct(tokens: seq<string>, cap: nat) returns (unique: seq<string>)
    requires cap >= 1
    ensures unique == Take(Dedup(tokens), cap)
  {
    unique := [];
    var seen: set<string> := {};
    var i := 0;
    while i < |tokens|
      invariant 0 <= i <= |tokens|
      invariant unique == Dedup(tokens[..i])
      invariant forall t :: t in seen <==> t in unique
      invariant |unique| < cap
    {
      DedupStep(tokens, i);
      seen, unique := KeepIfUnseen(tokens[i], seen, unique);
      i := i + 1;
      if |unique| >= cap {
        CapReached(tokens, i, cap);
        return;
      }
    }
    assert tokens[..i] == tokens;
  }

  /** `_build_keywords(text)`: the keywords of the lower-cased text. */
  method BuildKeywords(text: string, cap: nat) returns (unique: seq<string>)
    requires cap >= 1
    ensures unique == KeywordsOf(text, cap)
  {
    unique := FirstDistinct(Tokens(Lower(text)), cap);
  }
}
