/**
 * A model of `datetime.strptime(s, fmt).strftime('%Y-%m-%d')` for the handful of formats
 * the adapters try.
 *
 * `strptime` compiles the format into a case-insensitive regular expression in which
 * `%d` is `3[01]|[12]\d|0[1-9]|[1-9]| [1-9]`, `%m` is `1[0-2]|0[1-9]|[1-9]`, `%Y` is
 * `\d\d\d\d`, `%B`/`%b` are the English month names/abbreviations, and each blank of the
 * format is `\s+`. The whole input must be consumed, and the resulting calendar date must
 * exist (day within its month, leap years by the Gregorian rule, year at least 1).
 * In every format used here a directive is followed by a separator that cannot start
 * with a character the directive consumes, so taking the longest alternative first
 * without backtracking accepts exactly the inputs the regular expression accepts.
 */
module Dates {
  import opened Wrappers
  import opened Text

  datatype Directive =
    | Day          // %d
    | MonthNumber  // %m
    | MonthName    // %B
    | MonthAbbr    // %b
    | Year         // %Y
    | Blank        // a space in the format: one or more whitespace characters
    | Sep(c: char) // a literal separator such as '/' or '-'

  type Format = seq<Directive>

  /** '%d %B %Y' */
  const DAY_MONTHNAME_YEAR: Format := [Day, Blank, MonthName, Blank, Year]
  /** '%d %b %Y' */
  const DAY_MONTHABBR_YEAR: Format := [Day, Blank, MonthAbbr, Blank, Year]
  /** '%B %Y' */
  const MONTHNAME_YEAR: Format := [MonthName, Blank, Year]
  /** '%d/%m/%Y' */
  const DAY_MONTH_YEAR_SLASHED: Format := [Day, Sep('/'), MonthNumber, Sep('/'), Year]
  /** '%Y-%m-%d' */
  const YEAR_MONTH_DAY: Format := [Year, Sep('-'), MonthNumber, Sep('-'), Day]
  /** '%d-%m-%Y' */
  const DAY_MONTH_YEAR_DASHED: Format := [Day, Sep('-'), MonthNumber, Sep('-'), Year]

  const MONTH_NAMES: seq<string> :=
    ["january", "february", "march", "april", "may", "june",
     "july", "august", "september", "october", "november", "december"]

  const MONTH_ABBRS: seq<string> :=
    ["jan", "feb", "mar", "apr", "may", "jun", "jul", "aug", "sep", "oct", "nov", "dec"]

  datatype Date = Date(year: nat, month: nat, day: nat)

  predicate IsLeap(y: nat)
  {
    y % 4 == 0 && (y % 100 != 0 || y % 400 == 0)
  }

  function DaysInMonth(y: nat, m: nat): nat
  {
    if m == 2 then (if IsLeap(y) then 29 else 28)
    else if m == 4 || m == 6 || m == 9 || m == 11 then 30
    else 31
  }

  /** A date `datetime` accepts and `strftime('%Y')` writes with four digits. */
  predicate ValidDate(d: Date)
  {
    1 <= d.year <= 9999 && 1 <= d.month <= 12 && 1 <= d.day <= DaysInMonth(d.year, d.month)
  }

  /** A token matched by one directive: its numeric value and how many characters it took. */
  datatype Tok = Tok(value: nat, len: nat)

  function DayTok(s: string, i: nat): (r: Option<Tok>)
    requires i <= |s|
    ensures r.Some? ==> 1 <= r.value.len <= 2 && i + r.value.len <= |s| && 1 <= r.value.value <= 31
  {
    if i + 1 < |s| && s[i] == ' ' && '1' <= s[i + 1] <= '9' then Some(Tok(DigitValue(s[i + 1]), 2))
    else if i + 1 < |s| && s[i] == '3' && (s[i + 1] == '0' || s[i + 1] == '1') then
      Some(Tok(30 + DigitValue(s[i + 1]), 2))
    else if i + 1 < |s| && (s[i] == '1' || s[i] == '2') && IsDigit(s[i + 1]) then
      Some(Tok(10 * DigitValue(s[i]) + DigitValue(s[i + 1]), 2))
    else if i + 1 < |s| && s[i] == '0' && '1' <= s[i + 1] <= '9' then Some(Tok(DigitValue(s[i + 1]), 2))
    else if i < |s| && '1' <= s[i] <= '9' then Some(Tok(DigitValue(s[i]), 1))
    else None
  }

  function MonthNumberTok(s: string, i: nat): (r: Option<Tok>)
    requires i <= |s|
    ensures r.Some? ==> 1 <= r.value.len <= 2 && i + r.value.len <= |s| && 1 <= r.value.value <= 12
  {
    if i + 1 < |s| && s[i] == '1' && '0' <= s[i + 1] <= '2' then Some(Tok(10 + DigitValue(s[i + 1]), 2))
    else if i + 1 < |s| && s[i] == '0' && '1' <= s[i + 1] <= '9' then Some(Tok(DigitValue(s[i + 1]), 2))
    else if i < |s| && '1' <= s[i] <= '9' then Some(Tok(DigitValue(s[i]), 1))
    else None
  }

  function YearTok(s: string, i: nat): (r: Option<Tok>)
    requires i <= |s|
    ensures r.Some? ==> r.value.len == 4 && i + 4 <= |s| && r.value.value <= 9999
  {
    if i + 4 <= |s| && IsDigit(s[i]) && IsDigit(s[i + 1]) && IsDigit(s[i + 2]) && IsDigit(s[i + 3]) then
      Some(Tok(1000 * DigitValue(s[i]) + 100 * DigitValue(s[i + 1]) + 10 * DigitValue(s[i + 2])
               + DigitValue(s[i + 3]), 4))
    else None
  }

  /** The (lower-case) `name` starts `s[i..]`, ignoring case. */
  predicate NameStarts(s: string, i: nat, name: string)
  {
    i + |name| <= |s| && forall j :: 0 <= j < |name| ==> LowerChar(s[i + j]) == name[j]
  }

  /** The month whose (lower-case) name starts `s[i..]`, ignoring case; its value is 1 to 12. */
  function NameTok(s: string, i: nat, names: seq<string>, k: nat): (r: Option<Tok>)
    requires i <= |s| && k <= |names| <= 12
    ensures r.Some? ==> k < r.value.value <= |names| && i + r.value.len <= |s|
    decreases |names| - k
  {
    if k == |names| then None
    else if NameStarts(s, i, names[k]) then Some(Tok(k + 1, |names[k]|))
    else NameTok(s, i, names, k + 1)
  }

  function SpaceRun(s: string, i: nat): (n: nat)
    requires i <= |s|
    ensures i + n <= |s|
    decreases |s| - i
  {
    if i < |s| && IsSpace(s[i]) then 1 + SpaceRun(s, i + 1) else 0
  }

  /** What directive `d` matches at position `i` (values of non-numeric directives are 0). */
  function DirectiveTok(d: Directive, s: string, i: nat): (r: Option<Tok>)
    requires i <= |s|
    ensures r.Some? ==> i + r.value.len <= |s|
  {
    match d
    case Day => DayTok(s, i)
    case MonthNumber => MonthNumberTok(s, i)
    case MonthName => NameTok(s, i, MONTH_NAMES, 0)
    case MonthAbbr => NameTok(s, i, MONTH_ABBRS, 0)
    case Year => YearTok(s, i)
    case Blank => var n := SpaceRun(s, i); if n >= 1 then Some(Tok(0, n)) else None
    case Sep(c) => if i < |s| && s[i] == c then Some(Tok(0, 1)) else None
  }

  function Assign(d: Directive, v: nat, acc: Date): Date
  {
    match d
    case Day => acc.(day := v)
    case MonthNumber => acc.(month := v)
    case MonthName => acc.(month := v)
    case MonthAbbr => acc.(month := v)
    case Year => acc.(year := v)
    case _ => acc
  }

  /** Matches the rest of the format from position `i`; the whole input must be consumed. */
  function MatchFormat(f: Format, s: string, i: nat, acc: Date): Option<Date>
    requires i <= |s|
    decreases |f|
  {
    if |f| == 0 then (if i == |s| then Some(acc) else None)
    else
      match DirectiveTok(f[0], s, i)
      case None => None
      case Some(t) => MatchFormat(f[1..], s, i + t.len, Assign(f[0], t.value, acc))
  }

  /** `datetime.strptime(s, f)`: the date, or `None` where Python raises `ValueError`. */
  function Strptime(s: string, f: Format): (r: Option<Date>)
    ensures r.Some? ==> ValidDate(r.value)
  {
    match MatchFormat(f, s, 0, Date(1900, 1, 1))
    case Some(d) => if ValidDate(d) then Some(d) else None
    case None => None
  }

  function DigitChar(n: nat): (c: char)
    requires n < 10
    ensures IsDigit(c) && DigitValue(c) == n
  {
    ('0' as int + n) as char
  }

  /** `n` written with four digits, zero-padded (`%Y`). */
  function FourDigits(n: nat): string
  {
    [DigitChar(n / 1000 % 10), DigitChar(n / 100 % 10), DigitChar(n / 10 % 10), DigitChar(n % 10)]
  }

  /** `n` written with two digits, zero-padded (`%m`, `%d`). */
  function TwoDigits(n: nat): string
  {
    [DigitChar(n / 10 % 10), DigitChar(n % 10)]
  }

  /** Zero-padded four-digit texts sort as the numbers they write, below 10000. */
  lemma FourDigitsOrder(a: nat, b: nat)
    requires a < 10000 && b < 10000
    ensures StrLess(FourDigits(a), FourDigits(b)) <==> a < b
    ensures FourDigits(a) == FourDigits(b) <==> a == b
  {
    FourDigitsSplit(a);
    FourDigitsSplit(b);
    StrLessAppend(TwoDigits(a / 100), TwoDigits(a % 100), TwoDigits(b / 100), TwoDigits(b % 100));
    TwoDigitsOrder(a / 100, b / 100);
    TwoDigitsOrder(a % 100, b % 100);
    if FourDigits(a) == FourDigits(b) {
      assert TwoDigits(a / 100) == FourDigits(a)[..2] && TwoDigits(b / 100) == FourDigits(b)[..2];
      assert TwoDigits(a % 100) == FourDigits(a)[2..] && TwoDigits(b % 100) == FourDigits(b)[2..];
    }
  }

  /** The four digits of `n` are the two of its hundreds followed by the two of its rest. */
  lemma FourDigitsSplit(n: nat)
    requires n < 10000
    ensures FourDigits(n) == TwoDigits(n / 100) + TwoDigits(n % 100)
  {
    HundredsTens(n);
    RestTens(n);
    RestUnits(n);
  }

  lemma HundredsTens(n: nat)
    ensures n / 100 / 10 == n / 1000
  {
  }

  lemma RestTens(n: nat)
    ensures n % 100 / 10 == n / 10 % 10
  {
  }

  lemma RestUnits(n: nat)
    ensures n % 100 % 10 == n % 10
  {
  }

  lemma TensUnits(n: nat)
    requires n < 100
    ensures n / 10 % 10 == n / 10 && n == 10 * (n / 10) + n % 10
  {
  }

  lemma DigitCharOrder(x: nat, y: nat)
    requires x < 10 && y < 10
    ensures DigitChar(x) < DigitChar(y) <==> x < y
    ensures DigitChar(x) == DigitChar(y) <==> x == y
  {
  }

  /** Zero-padded two-digit texts sort as the numbers they write, below 100. */
  lemma TwoDigitsOrder(a: nat, b: nat)
    requires a < 100 && b < 100
    ensures StrLess(TwoDigits(a), TwoDigits(b)) <==> a < b
    ensures TwoDigits(a) == TwoDigits(b) <==> a == b
  {
    var ta, tb := TwoDigits(a), TwoDigits(b);
    assert ta == [ta[0]] + [ta[1]] && tb == [tb[0]] + [tb[1]];
    StrLessAppend([ta[0]], [ta[1]], [tb[0]], [tb[1]]);
    SingleLess(ta[0], tb[0]);
    SingleLess(ta[1], tb[1]);
    TensUnits(a);
    TensUnits(b);
    DigitCharOrder(a / 10, b / 10);
    DigitCharOrder(a % 10, b % 10);
  }

  lemma SingleLess(x: char, y: char)
    ensures StrLess([x], [y]) <==> x < y
  {
    assert [x][1..] == [] && [y][1..] == [];
  }

  /** `strftime('%Y-%m-%d')` */
  function Iso(d: Date): string
  {
    FourDigits(d.year) + "-" + TwoDigits(d.month) + "-" + TwoDigits(d.day)
  }

  /** Text of the shape `\d{4}-\d{2}-\d{2}`. */
  predicate IsIsoShaped(t: string)
  {
    |t| == 10 && IsDigit(t[0]) && IsDigit(t[1]) && IsDigit(t[2]) && IsDigit(t[3]) && t[4] == '-' &&
    IsDigit(t[5]) && IsDigit(t[6]) && t[7] == '-' && IsDigit(t[8]) && IsDigit(t[9])
  }

  /** `re.match(r'\d{4}-\d{2}-\d{2}', t)`: the text starts with an ISO-shaped date. */
  predicate StartsIsoShaped(t: string)
  {
    |t| >= 10 && IsIsoShaped(t[..10])
  }

  lemma IsoIsShaped(d: Date)
    ensures IsIsoShaped(Iso(d))
  {
  }

  /** `fmts[k]` is the first of `fmts` that reads `s`, and `v` is what it reads, written `YYYY-MM-DD`. */
  predicate ReadByFirst(s: string, fmts: seq<Format>, k: int, v: string)
  {
    0 <= k < |fmts| && Strptime(s, fmts[k]).Some? && v == Iso(Strptime(s, fmts[k]).value) &&
    forall j :: 0 <= j < k ==> Strptime(s, fmts[j]).None?
  }

  /**
   * Tries each format in turn, like the adapters' `for fmt in (...): try: return
   * datetime.strptime(...).strftime('%Y-%m-%d') except ValueError: continue`.
   */
  function ParseFirst(s: string, fmts: seq<Format>): (r: Option<string>)
    ensures r.None? <==> forall k :: 0 <= k < |fmts| ==> Strptime(s, fmts[k]).None?
    ensures r.Some? ==> exists k :: ReadByFirst(s, fmts, k, r.value)
    ensures r.Some? ==> IsIsoShaped(r.value)
    decreases |fmts|
  {
    if |fmts| == 0 then None
    else
      match Strptime(s, fmts[0])
      case Some(d) =>
        IsoIsShaped(d);
        assert ReadByFirst(s, fmts, 0, Iso(d));
        Some(Iso(d))
      case None =>
        var rest := ParseFirst(s, fmts[1..]);
        assert forall k :: 1 <= k < |fmts| ==> fmts[k] == fmts[1..][k - 1];
        assert rest.Some? ==> exists k :: ReadByFirst(s, fmts, k, rest.value) by {
          if rest.Some? {
            var k :| ReadByFirst(s, fmts[1..], k, rest.value);
            assert ReadByFirst(s, fmts, k + 1, rest.value);
          }
        }
        rest
  }

  /** A `YYYY-MM-DD` text starts with one. */
  lemma IsoShapedStarts(t: string)
    requires IsIsoShaped(t)
    ensures StartsIsoShaped(t)
  {
    assert t[..10] == t;
  }

  /** The formats `_parse_human_date` tries: `%d %B %Y`, then `%d %b %Y`. */
  const HUMAN_FORMATS: seq<Format> := [DAY_MONTHNAME_YEAR, DAY_MONTHABBR_YEAR]

  /**
   * `_parse_human_date`: the stripped text read as `%d %B %Y`, or failing that as
   * `%d %b %Y`, written `YYYY-MM-DD`; nothing when neither format fits.
   */
  function ParseHuman(value: string): (r: Option<string>)
    ensures r.None? <==>
      Strptime(Strip(value), DAY_MONTHNAME_YEAR).None? && Strptime(Strip(value), DAY_MONTHABBR_YEAR).None?
    ensures Strptime(Strip(value), DAY_MONTHNAME_YEAR).Some? ==>
      r == Some(Iso(Strptime(Strip(value), DAY_MONTHNAME_YEAR).value))
    ensures Strptime(Strip(value), DAY_MONTHNAME_YEAR).None? && Strptime(Strip(value), DAY_MONTHABBR_YEAR).Some? ==>
      r == Some(Iso(Strptime(Strip(value), DAY_MONTHABBR_YEAR).value))
    ensures r.Some? ==> IsIsoShaped(r.value)
  {
    ParseFirstTwo(Strip(value), DAY_MONTHNAME_YEAR, DAY_MONTHABBR_YEAR);
    ParseFirst(Strip(value), HUMAN_FORMATS)
  }

  /** `ParseFirst` with two formats, written out. */
  lemma ParseFirstTwo(s: string, f: Format, g: Format)
    ensures ParseFirst(s, [f, g]) ==
      if Strptime(s, f).Some? then Some(Iso(Strptime(s, f).value))
      else if Strptime(s, g).Some? then Some(Iso(Strptime(s, g).value))
      else None
  {
    assert [f, g][1..] == [g];
    assert [g][1..] == [];
  }

  /** A number below 10000 is its four decimal digits put back together. */
  lemma DecimalFour(n: nat)
    requires n < 10000
    ensures 1000 * (n / 1000 % 10) + 100 * (n / 100 % 10) + 10 * (n / 10 % 10) + n % 10 == n
  {
    DivTen(n);
    var m1 := n / 10;
    var m2 := m1 / 10;
    var m3 := m2 / 10;
    assert n == 10 * m1 + n % 10;
    assert m1 == 10 * m2 + m1 % 10;
    assert m2 == 10 * m3 + m2 % 10;
    assert m3 < 10;
  }

  /** Dividing by ten twice is dividing by a hundred. */
  lemma DivTen(x: nat)
    ensures x / 10 / 10 == x / 100 && x / 100 / 10 == x / 1000
  {
  }

  /** The digits of a year below 10000, written with `%Y`, read back as that year. */
  lemma YearTokAt(s: string, i: nat, y: nat)
    requires y <= 9999 && i + 4 <= |s| && s[i..i + 4] == FourDigits(y)
    ensures YearTok(s, i) == Some(Tok(y, 4))
  {
    DecimalFour(y);
    assert s[i] == FourDigits(y)[0] && s[i + 1] == FourDigits(y)[1];
    assert s[i + 2] == FourDigits(y)[2] && s[i + 3] == FourDigits(y)[3];
  }

  /** A month number written with two digits is read back by `%m`. */
  lemma MonthTokAt(s: string, i: nat, m: nat)
    requires 1 <= m <= 12 && i + 2 <= |s| && s[i..i + 2] == TwoDigits(m)
    ensures MonthNumberTok(s, i) == Some(Tok(m, 2))
  {
    assert s[i] == DigitChar(m / 10 % 10) && s[i + 1] == DigitChar(m % 10);
    if m >= 10 {
      assert s[i] == '1';
    } else {
      assert s[i] == '0';
    }
  }

  /** A day written with two digits is read back by `%d`. */
  lemma DayTokAt(s: string, i: nat, day: nat)
    requires 1 <= day <= 31 && i + 2 <= |s| && s[i..i + 2] == TwoDigits(day)
    ensures DayTok(s, i) == Some(Tok(day, 2))
  {
    assert s[i] == DigitChar(day / 10 % 10) && s[i + 1] == DigitChar(day % 10);
    if day >= 30 {
      assert s[i] == '3';
    } else if day >= 20 {
      assert s[i] == '2';
    } else if day >= 10 {
      assert s[i] == '1';
    } else {
      assert s[i] == '0';
    }
  }

  /** The month a three-letter abbreviation stands for, counted from 0; -1 for any other text. */
  function AbbrPosition(t: string): int
  {
    if t == "jan" then 0 else if t == "feb" then 1 else if t == "mar" then 2 else if t == "apr" then 3
    else if t == "may" then 4 else if t == "jun" then 5 else if t == "jul" then 6 else if t == "aug" then 7
    else if t == "sep" then 8 else if t == "oct" then 9 else if t == "nov" then 10 else if t == "dec" then 11
    else -1
  }

  /** Each month's name begins with its three-letter abbreviation. */
  lemma AbbrIsPrefix(a: nat)
    requires a < 12
    ensures |MONTH_ABBRS[a]| == 3 && |MONTH_NAMES[a]| >= 3 && MONTH_NAMES[a][..3] == MONTH_ABBRS[a]
  {
  }

  /** The abbreviations tell the months apart. */
  lemma AbbrPositionOf(a: nat)
    requires a < 12
    ensures AbbrPosition(MONTH_ABBRS[a]) == a
  {
  }

  /** Month names are written in lower case. */
  lemma MonthNameLower(a: nat)
    requires a < 12
    ensures forall j :: 0 <= j < |MONTH_NAMES[a]| ==> IsLower(MONTH_NAMES[a][j])
  {
  }

  /** Two names that both start `s[i..]` agree on their first three characters. */
  lemma PrefixesAgree(s: string, i: nat, p: string, q: string)
    ensures NameStarts(s, i, p) && NameStarts(s, i, q) && |p| >= 3 && |q| >= 3 ==> p[..3] == q[..3]
  {
    if NameStarts(s, i, p) && NameStarts(s, i, q) && |p| >= 3 && |q| >= 3 {
      assert p[0] == q[0] && p[1] == q[1] && p[2] == q[2];
    }
  }

  /** Where the name of month `m` starts the text, no other month's name does. */
  lemma OtherNameAbsent(s: string, i: nat, names: seq<string>, k: nat, m: nat)
    requires names == MONTH_NAMES || names == MONTH_ABBRS
    requires k < 12 && 1 <= m <= 12 && k != m - 1
    requires NameStarts(s, i, names[m - 1])
    ensures !NameStarts(s, i, names[k])
  {
    AbbrIsPrefix(k);
    AbbrIsPrefix(m - 1);
    AbbrPositionOf(k);
    AbbrPositionOf(m - 1);
    assert names[k][..3] == MONTH_ABBRS[k] && names[m - 1][..3] == MONTH_ABBRS[m - 1];
    PrefixesAgree(s, i, names[k], names[m - 1]);
  }

  /**
   * A text starting with the name (or abbreviation) of month `m` is read as month `m` by
   * `%B` (or `%b`): no other month's name starts it.
   */
  lemma {:induction false} NameTokAt(s: string, i: nat, names: seq<string>, k: nat, m: nat)
    requires names == MONTH_NAMES || names == MONTH_ABBRS
    requires k < m <= 12 && i <= |s|
    requires NameStarts(s, i, names[m - 1])
    ensures NameTok(s, i, names, k) == Some(Tok(m, |names[m - 1]|))
    decreases m - k
  {
    if k < m - 1 {
      OtherNameAbsent(s, i, names, k, m);
      NameTokAt(s, i, names, k + 1, m);
    }
  }

  /** A month's name (or abbreviation), in lower case, at position `i` of `s`. */
  lemma NameAt(s: string, i: nat, names: seq<string>, m: nat)
    requires names == MONTH_NAMES || names == MONTH_ABBRS
    requires 1 <= m <= 12 && i + |names[m - 1]| <= |s| && s[i..i + |names[m - 1]|] == names[m - 1]
    ensures NameTok(s, i, names, 0) == Some(Tok(m, |names[m - 1]|))
    ensures |names[m - 1]| >= 3 && IsLower(s[i])
  {
    var name := names[m - 1];
    AbbrIsPrefix(m - 1);
    MonthNameLower(m - 1);
    forall j | 0 <= j < |name| ensures LowerChar(s[i + j]) == name[j] {
      assert s[i + j] == name[j] == MONTH_NAMES[m - 1][j];
    }
    assert NameStarts(s, i, name);
    assert s[i] == name[0] == MONTH_NAMES[m - 1][0];
    NameTokAt(s, i, names, 0, m);
  }

  /** `strftime('%d/%m/%Y')` or `strftime('%d-%m-%Y')`, with the separator given. */
  function NumericText(d: Date, sep: char): string
  {
    TwoDigits(d.day) + [sep] + TwoDigits(d.month) + [sep] + FourDigits(d.year)
  }

  /** `strftime('%d %B %Y')` or `strftime('%d %b %Y')`, month names in lower case. */
  function NamedText(d: Date, names: seq<string>): string
    requires 1 <= d.month <= |names|
  {
    TwoDigits(d.day) + " " + names[d.month - 1] + " " + FourDigits(d.year)
  }

  /** `strftime('%B %Y')`, the month name in lower case. */
  function MonthYearText(d: Date): string
    requires 1 <= d.month <= 12
  {
    MONTH_NAMES[d.month - 1] + " " + FourDigits(d.year)
  }

  const EPOCH: Date := Date(1900, 1, 1)

  /*
   * The round trips below walk a format one directive at a time. Every step names the format index
   * after it (`k1`) and the input position after it (`j`), so that consecutive steps meet on the
   * same terms.
   */

  /** Directive `f[k]` matched at `i`; the rest of the format is matched after it. */
  lemma Step(f: Format, k: nat, k1: nat, s: string, i: nat, j: nat, acc: Date, t: Tok)
    requires k < |f| && k1 == k + 1 && i <= |s| && j == i + t.len && DirectiveTok(f[k], s, i) == Some(t)
    ensures MatchFormat(f[k..], s, i, acc) == MatchFormat(f[k1..], s, j, Assign(f[k], t.value, acc))
  {
    assert f[k..][0] == f[k] && f[k..][1..] == f[k1..];
  }

  /** `%d` over a two-digit day. */
  lemma DayStep(f: Format, k: nat, k1: nat, s: string, i: nat, j: nat, acc: Date, day: nat)
    requires k < |f| && k1 == k + 1 && f[k] == Day && 1 <= day <= 31
    requires j == i + 2 && j <= |s| && s[i..j] == TwoDigits(day)
    ensures MatchFormat(f[k..], s, i, acc) == MatchFormat(f[k1..], s, j, acc.(day := day))
  {
    DayTokAt(s, i, day);
    Step(f, k, k1, s, i, j, acc, Tok(day, 2));
  }

  /** `%m` over a two-digit month. */
  lemma MonthNumberStep(f: Format, k: nat, k1: nat, s: string, i: nat, j: nat, acc: Date, m: nat)
    requires k < |f| && k1 == k + 1 && f[k] == MonthNumber && 1 <= m <= 12
    requires j == i + 2 && j <= |s| && s[i..j] == TwoDigits(m)
    ensures MatchFormat(f[k..], s, i, acc) == MatchFormat(f[k1..], s, j, acc.(month := m))
  {
    MonthTokAt(s, i, m);
    Step(f, k, k1, s, i, j, acc, Tok(m, 2));
  }

  /** `%Y` over a four-digit year. */
  lemma YearStep(f: Format, k: nat, k1: nat, s: string, i: nat, j: nat, acc: Date, y: nat)
    requires k < |f| && k1 == k + 1 && f[k] == Year && y <= 9999
    requires j == i + 4 && j <= |s| && s[i..j] == FourDigits(y)
    ensures MatchFormat(f[k..], s, i, acc) == MatchFormat(f[k1..], s, j, acc.(year := y))
  {
    YearTokAt(s, i, y);
    Step(f, k, k1, s, i, j, acc, Tok(y, 4));
  }

  /** A separator over its own character. */
  lemma SepStep(f: Format, k: nat, k1: nat, s: string, i: nat, j: nat, acc: Date, c: char)
    requires k < |f| && k1 == k + 1 && f[k] == Sep(c) && j == i + 1 && i < |s| && s[i] == c
    ensures MatchFormat(f[k..], s, i, acc) == MatchFormat(f[k1..], s, j, acc)
  {
    Step(f, k, k1, s, i, j, acc, Tok(0, 1));
  }

  /** A blank over exactly one space. */
  lemma BlankStep(f: Format, k: nat, k1: nat, s: string, i: nat, j: nat, acc: Date)
    requires k < |f| && k1 == k + 1 && f[k] == Blank && j == i + 1 && j < |s| && s[i] == ' ' && !IsSpace(s[j])
    ensures MatchFormat(f[k..], s, i, acc) == MatchFormat(f[k1..], s, j, acc)
  {
    assert SpaceRun(s, j) == 0;
    Step(f, k, k1, s, i, j, acc, Tok(0, 1));
  }

  /** `%B` reads the month-name table and `%b` the abbreviation table. */
  lemma NameDirective(d: Directive, s: string, i: nat, names: seq<string>)
    requires (names == MONTH_NAMES && d == MonthName) || (names == MONTH_ABBRS && d == MonthAbbr)
    requires i <= |s|
    ensures DirectiveTok(d, s, i) == NameTok(s, i, names, 0)
  {
  }

  /** `%B` (or `%b`) reads month `m` from its lower-case name (or abbreviation), which starts with a letter. */
  lemma NameTokenAt(d: Directive, s: string, i: nat, names: seq<string>, m: nat, n: nat)
    requires (names == MONTH_NAMES && d == MonthName) || (names == MONTH_ABBRS && d == MonthAbbr)
    requires 1 <= m <= 12 && n == |names[m - 1]| && i + n <= |s| && s[i..i + n] == names[m - 1]
    ensures DirectiveTok(d, s, i) == Some(Tok(m, n)) && IsLower(s[i])
  {
    NameAt(s, i, names, m);
    NameDirective(d, s, i, names);
  }

  /** A month-name directive sets the month. */
  lemma AssignMonth(d: Directive, v: nat, acc: Date)
    requires d == MonthName || d == MonthAbbr
    ensures Assign(d, v, acc) == acc.(month := v)
  {
  }

  /** The end of the format matches only at the end of the input. */
  lemma EndStep(f: Format, k: nat, s: string, i: nat, acc: Date)
    requires k == |f| && i <= |s|
    ensures MatchFormat(f[k..], s, i, acc) == if i == |s| then Some(acc) else None
  {
    assert f[k..] == [];
  }

  /** Where the parts of the `%Y-%m-%d` text of a date lie, with anything after it. */
  lemma IsoTextAt(d: Date, rest: string)
    ensures var s := Iso(d) + rest;
      |s| == 10 + |rest| && s[0..4] == FourDigits(d.year) && s[4] == '-' && s[5..7] == TwoDigits(d.month) &&
      s[7] == '-' && s[8..10] == TwoDigits(d.day)
  {
    var s := Iso(d) + rest;
    assert s[0..4] == FourDigits(d.year);
    assert s[5..7] == TwoDigits(d.month);
    assert s[8..10] == TwoDigits(d.day);
  }

  /** A `%Y-%m-%d` format reads the text of a date, followed by `rest`, from its start. */
  lemma IsoMatch(d: Date, f: Format, rest: string)
    requires ValidDate(d)
    requires |f| == 5 && f[0] == Year && f[1] == Sep('-') && f[2] == MonthNumber && f[3] == Sep('-') && f[4] == Day
    ensures MatchFormat(f, Iso(d) + rest, 0, EPOCH) == if rest == "" then Some(d) else None
  {
    var s := Iso(d) + rest;
    IsoTextAt(d, rest);
    var d1 := EPOCH.(year := d.year);
    var d2 := d1.(month := d.month);
    assert f[0..] == f;
    YearStep(f, 0, 1, s, 0, 4, EPOCH, d.year);
    SepStep(f, 1, 2, s, 4, 5, d1, '-');
    MonthNumberStep(f, 2, 3, s, 5, 7, d1, d.month);
    SepStep(f, 3, 4, s, 7, 8, d2, '-');
    DayStep(f, 4, 5, s, 8, 10, d2, d.day);
    EndStep(f, 5, s, 10, d2.(day := d.day));
    assert d2.(day := d.day) == d;
  }

  /** Where the parts of the `%d/%m/%Y` (or `%d-%m-%Y`) text of a date lie. */
  lemma NumericTextAt(d: Date, sep: char, rest: string)
    ensures var s := NumericText(d, sep) + rest;
      |s| == 10 + |rest| && s[0..2] == TwoDigits(d.day) && s[2] == sep && s[3..5] == TwoDigits(d.month) &&
      s[5] == sep && s[6..10] == FourDigits(d.year)
  {
    var s := NumericText(d, sep) + rest;
    assert s[0..2] == TwoDigits(d.day);
    assert s[3..5] == TwoDigits(d.month);
    assert s[6..10] == FourDigits(d.year);
  }

  /** A `%d/%m/%Y` (or `%d-%m-%Y`) format reads the text of a date, followed by `rest`, from its start. */
  lemma NumericMatch(d: Date, sep: char, f: Format, rest: string)
    requires ValidDate(d)
    requires |f| == 5 && f[0] == Day && f[1] == Sep(sep) && f[2] == MonthNumber && f[3] == Sep(sep) && f[4] == Year
    ensures MatchFormat(f, NumericText(d, sep) + rest, 0, EPOCH) == if rest == "" then Some(d) else None
  {
    var s := NumericText(d, sep) + rest;
    NumericTextAt(d, sep, rest);
    var d1 := EPOCH.(day := d.day);
    var d2 := d1.(month := d.month);
    assert f[0..] == f;
    DayStep(f, 0, 1, s, 0, 2, EPOCH, d.day);
    SepStep(f, 1, 2, s, 2, 3, d1, sep);
    MonthNumberStep(f, 2, 3, s, 3, 5, d1, d.month);
    SepStep(f, 3, 4, s, 5, 6, d2, sep);
    YearStep(f, 4, 5, s, 6, 10, d2, d.year);
    EndStep(f, 5, s, 10, d2.(year := d.year));
    assert d2.(year := d.year) == d;
  }

  /** Where the parts of the `%d %B %Y` (or `%d %b %Y`) text of a date lie, the name taking `n` characters. */
  lemma NamedTextAt(d: Date, names: seq<string>, rest: string, n: nat)
    requires 1 <= d.month <= |names| && n == |names[d.month - 1]|
    ensures var s := NamedText(d, names) + rest;
      |s| == 3 + n + 1 + 4 + |rest| && s[0..2] == TwoDigits(d.day) && s[2] == ' ' && s[3..3 + n] == names[d.month - 1] &&
      s[3 + n] == ' ' && !IsSpace(s[3 + n + 1]) && s[3 + n + 1..3 + n + 1 + 4] == FourDigits(d.year)
  {
    var s := NamedText(d, names) + rest;
    assert s[0..2] == TwoDigits(d.day);
    assert s[3..3 + n] == names[d.month - 1];
    assert s[3 + n + 1..3 + n + 1 + 4] == FourDigits(d.year);
    assert s[3 + n + 1] == FourDigits(d.year)[0];
  }

  /** The steps of a `%d %B %Y` (or `%d %b %Y`) format, whichever month directive reads the `n`-letter name. */
  lemma NamedSteps(d: Date, f: Format, s: string, n: nat)
    requires ValidDate(d)
    requires |f| == 5 && f[0] == Day && f[1] == Blank && f[3] == Blank && f[4] == Year
    requires |s| >= 3 + n + 1 + 4 && s[0..2] == TwoDigits(d.day) && s[2] == ' ' && !IsSpace(s[3])
    requires s[3 + n] == ' ' && !IsSpace(s[3 + n + 1]) && s[3 + n + 1..3 + n + 1 + 4] == FourDigits(d.year)
    requires DirectiveTok(f[2], s, 3) == Some(Tok(d.month, n))
    requires Assign(f[2], d.month, EPOCH.(day := d.day)) == EPOCH.(day := d.day).(month := d.month)
    ensures MatchFormat(f, s, 0, EPOCH) == if |s| == 3 + n + 1 + 4 then Some(d) else None
  {
    var d1 := EPOCH.(day := d.day);
    var d2 := d1.(month := d.month);
    assert f[0..] == f;
    DayStep(f, 0, 1, s, 0, 2, EPOCH, d.day);
    BlankStep(f, 1, 2, s, 2, 3, d1);
    Step(f, 2, 3, s, 3, 3 + n, d1, Tok(d.month, n));
    BlankStep(f, 3, 4, s, 3 + n, 3 + n + 1, d2);
    YearStep(f, 4, 5, s, 3 + n + 1, 3 + n + 1 + 4, d2, d.year);
    EndStep(f, 5, s, 3 + n + 1 + 4, d2.(year := d.year));
    assert d2.(year := d.year) == d;
  }

  /** A `%d %B %Y` (or `%d %b %Y`) format reads the text of a date, followed by `rest`, from its start. */
  lemma NamedMatch(d: Date, names: seq<string>, f: Format, rest: string)
    requires ValidDate(d)
    requires |f| == 5 && f[0] == Day && f[1] == Blank && f[3] == Blank && f[4] == Year
    requires (names == MONTH_NAMES && f[2] == MonthName) || (names == MONTH_ABBRS && f[2] == MonthAbbr)
    ensures MatchFormat(f, NamedText(d, names) + rest, 0, EPOCH) == if rest == "" then Some(d) else None
  {
    var n := |names[d.month - 1]|;
    var s := NamedText(d, names) + rest;
    NamedTextAt(d, names, rest, n);
    NameTokenAt(f[2], s, 3, names, d.month, n);
    AssignMonth(f[2], d.month, EPOCH.(day := d.day));
    NamedSteps(d, f, s, n);
  }

  /** Where the parts of the `%B %Y` text of a date lie, the name taking `n` characters. */
  lemma MonthYearTextAt(d: Date, rest: string, n: nat)
    requires 1 <= d.month <= 12 && n == |MONTH_NAMES[d.month - 1]|
    ensures var s := MonthYearText(d) + rest;
      |s| == n + 1 + 4 + |rest| && s[0..0 + n] == MONTH_NAMES[d.month - 1] && s[n] == ' ' &&
      !IsSpace(s[n + 1]) && s[n + 1..n + 1 + 4] == FourDigits(d.year)
  {
    var s := MonthYearText(d) + rest;
    assert s[0..0 + n] == MONTH_NAMES[d.month - 1];
    assert s[n + 1..n + 1 + 4] == FourDigits(d.year);
    assert s[n + 1] == FourDigits(d.year)[0];
  }

  /** A `%B %Y` format reads the text of a date, followed by `rest`, from its start: the day is lost. */
  lemma MonthYearMatch(d: Date, f: Format, rest: string)
    requires ValidDate(d)
    requires |f| == 3 && f[0] == MonthName && f[1] == Blank && f[2] == Year
    ensures MatchFormat(f, MonthYearText(d) + rest, 0, EPOCH) ==
      if rest == "" then Some(Date(d.year, d.month, 1)) else None
  {
    var n := |MONTH_NAMES[d.month - 1]|;
    var s := MonthYearText(d) + rest;
    MonthYearTextAt(d, rest, n);
    NameTokenAt(f[0], s, 0, MONTH_NAMES, d.month, n);
    var d1 := EPOCH.(month := d.month);
    AssignMonth(f[0], d.month, EPOCH);
    assert f[0..] == f;
    Step(f, 0, 1, s, 0, n, EPOCH, Tok(d.month, n));
    BlankStep(f, 1, 2, s, n, n + 1, d1);
    YearStep(f, 2, 3, s, n + 1, n + 1 + 4, d1, d.year);
    EndStep(f, 3, s, n + 1 + 4, d1.(year := d.year));
    assert d1.(year := d.year) == Date(d.year, d.month, 1);
  }

  /** The formats of the adapters, written out directive by directive. */
  lemma FormatsSpelledOut()
    ensures var f := YEAR_MONTH_DAY;
      |f| == 5 && f[0] == Year && f[1] == Sep('-') && f[2] == MonthNumber && f[3] == Sep('-') && f[4] == Day
    ensures var f := DAY_MONTH_YEAR_SLASHED;
      |f| == 5 && f[0] == Day && f[1] == Sep('/') && f[2] == MonthNumber && f[3] == Sep('/') && f[4] == Year
    ensures var f := DAY_MONTH_YEAR_DASHED;
      |f| == 5 && f[0] == Day && f[1] == Sep('-') && f[2] == MonthNumber && f[3] == Sep('-') && f[4] == Year
    ensures var f := DAY_MONTHNAME_YEAR;
      |f| == 5 && f[0] == Day && f[1] == Blank && f[2] == MonthName && f[3] == Blank && f[4] == Year
    ensures var f := DAY_MONTHABBR_YEAR;
      |f| == 5 && f[0] == Day && f[1] == Blank && f[2] == MonthAbbr && f[3] == Blank && f[4] == Year
    ensures var f := MONTHNAME_YEAR;
      |f| == 3 && f[0] == MonthName && f[1] == Blank && f[2] == Year
  {
  }

  /** Every format of the adapters, over the text of a date followed by `rest`. */
  lemma FormatsMatch(d: Date, rest: string)
    requires ValidDate(d)
    ensures MatchFormat(YEAR_MONTH_DAY, Iso(d) + rest, 0, EPOCH) == if rest == "" then Some(d) else None
    ensures MatchFormat(DAY_MONTH_YEAR_SLASHED, NumericText(d, '/') + rest, 0, EPOCH) ==
      if rest == "" then Some(d) else None
    ensures MatchFormat(DAY_MONTH_YEAR_DASHED, NumericText(d, '-') + rest, 0, EPOCH) ==
      if rest == "" then Some(d) else None
    ensures MatchFormat(DAY_MONTHNAME_YEAR, NamedText(d, MONTH_NAMES) + rest, 0, EPOCH) ==
      if rest == "" then Some(d) else None
    ensures MatchFormat(DAY_MONTHABBR_YEAR, NamedText(d, MONTH_ABBRS) + rest, 0, EPOCH) ==
      if rest == "" then Some(d) else None
    ensures MatchFormat(MONTHNAME_YEAR, MonthYearText(d) + rest, 0, EPOCH) ==
      if rest == "" then Some(Date(d.year, d.month, 1)) else None
  {
    FormatsSpelledOut();
    IsoMatch(d, YEAR_MONTH_DAY, rest);
    NumericMatch(d, '/', DAY_MONTH_YEAR_SLASHED, rest);
    NumericMatch(d, '-', DAY_MONTH_YEAR_DASHED, rest);
    NamedMatch(d, MONTH_NAMES, DAY_MONTHNAME_YEAR, rest);
    NamedMatch(d, MONTH_ABBRS, DAY_MONTHABBR_YEAR, rest);
    MonthYearMatch(d, MONTHNAME_YEAR, rest);
  }

  /** A text the format reads to a valid date, with nothing after it, is what `strptime` returns. */
  lemma ReadWhole(s: string, f: Format, d: Date)
    requires ValidDate(d) && MatchFormat(f, s + "", 0, EPOCH) == Some(d)
    ensures Strptime(s, f) == Some(d)
  {
    assert s + "" == s;
  }

  /**
   * Reading a valid date back from the text `strftime` writes for it gives the same date,
   * with every format the adapters use (`%B %Y` gives the first of the month).
   */
  lemma StrptimeRoundTrip(d: Date)
    requires ValidDate(d)
    ensures Strptime(Iso(d), YEAR_MONTH_DAY) == Some(d)
    ensures Strptime(NumericText(d, '/'), DAY_MONTH_YEAR_SLASHED) == Some(d)
    ensures Strptime(NumericText(d, '-'), DAY_MONTH_YEAR_DASHED) == Some(d)
    ensures Strptime(NamedText(d, MONTH_NAMES), DAY_MONTHNAME_YEAR) == Some(d)
    ensures Strptime(NamedText(d, MONTH_ABBRS), DAY_MONTHABBR_YEAR) == Some(d)
    ensures Strptime(MonthYearText(d), MONTHNAME_YEAR) == Some(Date(d.year, d.month, 1))
  {
    FormatsMatch(d, "");
    ReadWhole(Iso(d), YEAR_MONTH_DAY, d);
    ReadWhole(NumericText(d, '/'), DAY_MONTH_YEAR_SLASHED, d);
    ReadWhole(NumericText(d, '-'), DAY_MONTH_YEAR_DASHED, d);
    ReadWhole(NamedText(d, MONTH_NAMES), DAY_MONTHNAME_YEAR, d);
    ReadWhole(NamedText(d, MONTH_ABBRS), DAY_MONTHABBR_YEAR, d);
    ReadWhole(MonthYearText(d), MONTHNAME_YEAR, Date(d.year, d.month, 1));
  }

  /** `strptime` reads the whole input: the same texts followed by anything more are rejected. */
  lemma TrailingTextFails(d: Date, rest: string)
    requires ValidDate(d) && rest != ""
    ensures Strptime(Iso(d) + rest, YEAR_MONTH_DAY).None?
    ensures Strptime(NumericText(d, '/') + rest, DAY_MONTH_YEAR_SLASHED).None?
    ensures Strptime(NumericText(d, '-') + rest, DAY_MONTH_YEAR_DASHED).None?
    ensures Strptime(NamedText(d, MONTH_NAMES) + rest, DAY_MONTHNAME_YEAR).None?
    ensures Strptime(NamedText(d, MONTH_ABBRS) + rest, DAY_MONTHABBR_YEAR).None?
    ensures Strptime(MonthYearText(d) + rest, MONTHNAME_YEAR).None?
  {
    FormatsMatch(d, rest);
  }

  /** `published[:10].replace('-', '')`: the digits of a `YYYY-MM-DD` date, as record ids use them. */
  function DatePart(published: string): (r: string)
    ensures '-' !in r && |r| <= 10
  {
    RemoveChar(Take(published, 10), '-')
  }

  /** A `YYYY-MM-DD` date gives eight digits. */
  lemma DatePartOfIso(published: string)
    requires StartsIsoShaped(published)
    ensures |DatePart(published)| == 8 && forall c :: c in DatePart(published) ==> IsDigit(c)
  {
    var t := published[..10];
    assert Take(published, 10) == t;
    DashesRemoved(t);
    var r := [t[0], t[1], t[2], t[3], t[5], t[6], t[8], t[9]];
    assert forall c :: c in r ==> IsDigit(c);
  }

  /** A run of digits followed by a dash loses only the dash. */
  lemma DashDropped(y: string)
    requires '-' !in y
    ensures RemoveChar(y + ['-'], '-') == y
  {
    RemoveCharAbsent(y, '-');
    RemoveCharAppend(y, ['-'], '-');
    assert RemoveChar(['-'], '-') == [] by { assert RemoveChar([], '-') == []; }
  }

  /** Removing the dashes of `YYYY-MM-DD` leaves its eight digits. */
  lemma DashesRemoved(t: string)
    requires IsIsoShaped(t)
    ensures RemoveChar(t, '-') == [t[0], t[1], t[2], t[3], t[5], t[6], t[8], t[9]]
  {
    var y, m, d := [t[0], t[1], t[2], t[3]], [t[5], t[6]], [t[8], t[9]];
    assert t == (y + ['-']) + (m + ['-']) + d;
    assert '-' !in y && '-' !in m && '-' !in d;
    DashDropped(y);
    DashDropped(m);
    RemoveCharAbsent(d, '-');
    RemoveCharAppend(y + ['-'], m + ['-'], '-');
    RemoveCharAppend((y + ['-']) + (m + ['-']), d, '-');
  }
}
