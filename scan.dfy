/**
 * Leftmost-match search for the "linear" regular expressions the scrapers use, such as
 * `published[: ]+(\d{1,2} [A-Za-z]+ 20\d{2})` or `(\d{1,2} \w+ \d{4})`.
 *
 * Each of those patterns is a chain of literals and greedy repetitions of one character
 * class, and every repetition is followed by an atom whose first character lies outside
 * that class. Handing characters back to a repetition therefore never lets the rest of
 * the pattern match, so matching each repetition greedily without backtracking accepts
 * exactly what Python's backtracking `re.search` accepts at a given position. The same holds
 * for an optional choice of literals (`(?:number|no\.?|registration)?`, `:?`): the
 * alternatives are tried in the regex's order, and skipping the choice leaves a letter
 * or colon that the rest of the pattern cannot start with.
 */
module Scan {
  import opened Wrappers
  import opened Text

  datatype CharClass =
    | Digit       // \d
    | Letter      // [A-Za-z]
    | Word        // \w
    | Space       // \s
    | ColonSpace  // [: ]
    | NonDigit    // [^\d]

  predicate InClass(c: char, k: CharClass)
  {
    match k
    case Digit => IsDigit(c)
    case Letter => IsLetter(c)
    case Word => IsWordChar(c)
    case Space => IsSpace(c)
    case ColonSpace => c == ':' || c == ' '
    case NonDigit => !IsDigit(c)
  }

  /**
   * A literal, a greedy repetition of a class between `lo` and `hi` times (`None`: unbounded),
   * or an optional choice among literals, the first one present being taken.
   */
  datatype Atom = Lit(text: string) | Run(cls: CharClass, lo: nat, hi: Option<nat>) | Opt(alts: seq<string>)

  /** A pattern `pre(group)`: a search reports the text of the capture group. */
  datatype Pattern = Pattern(pre: seq<Atom>, group: seq<Atom>)

  /** How many characters a greedy repetition takes at `i`: as many of the class as `hi` allows. */
  function RunLen(s: string, i: nat, k: CharClass, hi: Option<nat>): (n: nat)
    requires i <= |s|
    ensures i + n <= |s|
    ensures forall j :: i <= j < i + n ==> InClass(s[j], k)
    ensures hi.Some? ==> n <= hi.value
    ensures i + n == |s| || !InClass(s[i + n], k) || (hi.Some? && n == hi.value)
    decreases |s| - i
  {
    if i == |s| || !InClass(s[i], k) || (hi.Some? && hi.value == 0) then 0
    else 1 + RunLen(s, i + 1, k, if hi.Some? then Some(hi.value - 1) else None)
  }

  /** How many characters an optional choice takes at the start of `s`: the first alternative present, or none. */
  function OptLen(s: string, alts: seq<string>): (n: nat)
    ensures n <= |s|
    ensures n > 0 ==> exists k :: 0 <= k < |alts| && alts[k] == s[..n]
  {
    if |alts| == 0 then 0
    else if |alts[0]| > 0 && StartsWith(s, alts[0]) then |alts[0]|
    else OptLen(s, alts[1..])
  }

  /** The end of the match of `atoms` starting at `i`, if they match there. */
  function MatchAtoms(atoms: seq<Atom>, s: string, i: nat): (r: Option<nat>)
    requires i <= |s|
    ensures r.Some? ==> i <= r.value <= |s|
    decreases |atoms|
  {
    if |atoms| == 0 then Some(i)
    else
      match atoms[0]
      case Lit(t) =>
        if StartsWith(s[i..], t) then MatchAtoms(atoms[1..], s, i + |t|) else None
      case Run(k, lo, hi) =>
        var n := RunLen(s, i, k, hi);
        if n >= lo then MatchAtoms(atoms[1..], s, i + n) else None
      case Opt(alts) =>
        MatchAtoms(atoms[1..], s, i + OptLen(s[i..], alts))
  }

  /** The span of the capture group when the pattern matches at `i`. */
  datatype Span = Span(start: nat, end: nat)

  function MatchAt(p: Pattern, s: string, i: nat): (r: Option<Span>)
    requires i <= |s|
    ensures r.Some? ==> i <= r.value.start <= r.value.end <= |s|
  {
    match MatchAtoms(p.pre, s, i)
    case None => None
    case Some(g) =>
      match MatchAtoms(p.group, s, g)
      case None => None
      case Some(e) => Some(Span(g, e))
  }

  /** `re.search` from position `i` on: the match at the leftmost position that has one. */
  function SearchFrom(p: Pattern, s: string, i: nat): (r: Option<Span>)
    requires i <= |s|
    ensures r.Some? ==>
      exists k :: i <= k <= |s| && MatchAt(p, s, k) == r &&
        forall j :: i <= j < k ==> MatchAt(p, s, j).None?
    ensures r.None? ==> forall j :: i <= j <= |s| ==> MatchAt(p, s, j).None?
    decreases |s| - i
  {
    var here := MatchAt(p, s, i);
    if here.Some? then here
    else if i == |s| then None
    else SearchFrom(p, s, i + 1)
  }

  /** The capture group of `re.search(p, s)`, or `None` when nothing matches. */
  function Search(p: Pattern, s: string): (r: Option<string>)
    ensures r.None? <==> forall j :: 0 <= j <= |s| ==> MatchAt(p, s, j).None?
    ensures r.Some? ==>
      exists k :: 0 <= k <= |s| && MatchAt(p, s, k).Some? &&
        r.value == s[MatchAt(p, s, k).value.start..MatchAt(p, s, k).value.end] &&
        forall j :: 0 <= j < k ==> MatchAt(p, s, j).None?
  {
    match SearchFrom(p, s, 0)
    case None => None
    case Some(sp) => Some(s[sp.start..sp.end])
  }

  /** `\d{1,2} [A-Za-z]+ 20\d{2}`: a day, one space, a word of letters, one space, a 20xx year. */
  const DAY_MONTH_20YY: seq<Atom> :=
    [Run(Digit, 1, Some(2)), Lit(" "), Run(Letter, 1, None), Lit(" "), Lit("20"), Run(Digit, 2, Some(2))]

  /** `(\d{1,2}\s+[A-Za-z]+\s+20\d{2})`, the loose form used on whole-page text. */
  const DAY_MONTH_20YY_LOOSE: Pattern :=
    Pattern([], [Run(Digit, 1, Some(2)), Run(Space, 1, None), Run(Letter, 1, None), Run(Space, 1, None),
                 Lit("20"), Run(Digit, 2, Some(2))])

  /** `(\d{1,2} [A-Za-z]+ 20\d{2})` */
  const DAY_MONTH_20YY_ANYWHERE: Pattern := Pattern([], DAY_MONTH_20YY)

  /** `(\d{1,2} \w+ \d{4})` */
  const DAY_WORD_YEAR: Pattern :=
    Pattern([], [Run(Digit, 1, Some(2)), Lit(" "), Run(Word, 1, None), Lit(" "), Run(Digit, 4, Some(4))])

  /**
   * `tag[: ]+(\d{1,2} [A-Za-z]+ 20\d{2})` when `oneOrMore`, else `tag[: ]*(...)`.
   * The scrapers apply these to lower-cased text with a lower-case tag, so the
   * `re.IGNORECASE` flag they pass changes nothing.
   */
  function Labelled(tag: string, oneOrMore: bool): Pattern
  {
    Pattern([Lit(tag), Run(ColonSpace, if oneOrMore then 1 else 0, None)], DAY_MONTH_20YY)
  }

  /** `(?:charity\s+(?:number|no\.?|registration)?\s*:?\s*)(\d{6,7})`, on lower-cased text. */
  const CHARITY_NUMBER_LABELLED: Pattern :=
    Pattern([Lit("charity"), Run(Space, 1, None), Opt(["number", "no.", "no", "registration"]),
             Run(Space, 0, None), Opt([":"]), Run(Space, 0, None)],
            [Run(Digit, 6, Some(7))])

  /** `registered[^\d]*(\d{7})`, on lower-cased text. */
  const CHARITY_NUMBER_REGISTERED: Pattern :=
    Pattern([Lit("registered"), Run(NonDigit, 0, None)], [Run(Digit, 7, Some(7))])

  /** A group made of one bounded repetition captures between `lo` and `hi` characters of its class. */
  lemma RunGroupAt(p: Pattern, s: string, k: nat)
    requires k <= |s| && MatchAt(p, s, k).Some?
    requires |p.group| == 1 && p.group[0].Run? && p.group[0].hi.Some?
    ensures var sp := MatchAt(p, s, k).value;
      p.group[0].lo <= sp.end - sp.start <= p.group[0].hi.value &&
      forall j :: sp.start <= j < sp.end ==> InClass(s[j], p.group[0].cls)
  {
    var g := MatchAtoms(p.pre, s, k).value;
    var n := RunLen(s, g, p.group[0].cls, p.group[0].hi);
    assert MatchAtoms(p.group, s, g) == Some(g + n);
  }

  /** So what a search with such a group reports is a run of that class of the bounded length. */
  lemma RunGroupFound(p: Pattern, s: string)
    requires Search(p, s).Some?
    requires |p.group| == 1 && p.group[0].Run? && p.group[0].hi.Some?
    ensures p.group[0].lo <= |Search(p, s).value| <= p.group[0].hi.value
    ensures forall c :: c in Search(p, s).value ==> InClass(c, p.group[0].cls)
  {
    var k :| 0 <= k <= |s| && MatchAt(p, s, k).Some? &&
      Search(p, s).value == s[MatchAt(p, s, k).value.start..MatchAt(p, s, k).value.end];
    RunGroupAt(p, s, k);
  }
}
