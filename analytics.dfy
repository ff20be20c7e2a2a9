/**
 * The analytics build over the policies table: income banding, keyword extraction, the
 * counting loop over the rows and the ordering of the output lists. Parsing a float and
 * `datetime.fromisoformat` are functions handed in by the caller.
 */
module Analytics {
  import opened Wrappers
  import opened Text
  import opened Collections
  import Keywords
  import Dates
  import opened AdapterBase

  // ---------------------------------------------------------------------------------------------
  // parse_income_band
  // ---------------------------------------------------------------------------------------------

  /** What `float()` makes of a string it accepts: a finite number, an infinity or NaN. */
  datatype Float = Finite(x: real) | Infinity(negative: bool) | NaN

  const BANDS: seq<string> := ["Under £10k", "£10k-£100k", "£100k-£500k", "£500k-£1m", "£1m-£5m", "Over £5m"]

  /** The upper bounds of the first five bands. */
  const LIMITS: seq<real> := [10000.0, 100000.0, 500000.0, 1000000.0, 5000000.0]

  /**
   * The position of a value's band: the first band whose upper bound exceeds it, the last when
   * none does. Every comparison with NaN is false, so NaN falls through to the last band.
   */
  function BandIndex(v: Float): (k: nat)
    ensures k < |BANDS|
    ensures v.Finite? ==> (k == 0 || LIMITS[k - 1] <= v.x) && (k == 5 || v.x < LIMITS[k])
    ensures v.Infinity? ==> k == if v.negative then 0 else 5
    ensures v.NaN? ==> k == 5
  {
    match v
    case NaN => 5
    case Infinity(negative) => if negative then 0 else 5
    case Finite(x) =>
      if x < 10000.0 then 0
      else if x < 100000.0 then 1
      else if x < 500000.0 then 2
      else if x < 1000000.0 then 3
      else if x < 5000000.0 then 4
      else 5
  }

  /** The bands follow the income: a larger income never falls in an earlier band. */
  lemma BandMonotone(x: real, y: real)
    requires x <= y
    ensures BandIndex(Finite(x)) <= BandIndex(Finite(y))
  {
  }

  /**
   * `parse_income_band`: `Unknown` for an empty string or one `float()` rejects, otherwise the
   * band of the parsed value.
   */
  function ParseIncomeBand(income: string, parse: string -> Option<Float>): (band: string)
    ensures income == "" || parse(income).None? ==> band == "Unknown"
    ensures income != "" && parse(income).Some? ==> band == BANDS[BandIndex(parse(income).value)]
    ensures band == "Unknown" || band in BANDS
  {
    if income == "" then "Unknown"
    else
      match parse(income)
      case None => "Unknown"
      case Some(v) => BANDS[BandIndex(v)]
  }

  // ---------------------------------------------------------------------------------------------
  // extract_keywords
  // ---------------------------------------------------------------------------------------------

  const STOPWORDS: set<string> := {
    "charity", "commission", "inquiry", "report", "the", "and", "for",
    "with", "from", "that", "this", "have", "been", "were", "their",
    "about", "into", "which", "other", "some", "what", "when", "where",
    "will", "would", "could", "should", "also", "more", "than", "such"}

  /** The non-empty runs made of lower-case letters only: exactly those, in order, with repeats. */
  function LetterRuns(runs: seq<string>): (r: seq<string>)
    ensures forall w :: w in r <==> w in runs && w != "" && Keywords.AllLower(w)
    ensures |r| <= |runs|
  {
    if |runs| == 0 then []
    else
      assert forall w :: w in runs <==> w == runs[0] || w in runs[1..] by {
        assert runs == [runs[0]] + runs[1..];
      }
      (if runs[0] != "" && Keywords.AllLower(runs[0]) then [runs[0]] else []) + LetterRuns(runs[1..])
  }

  /**
   * `re.findall(r'\b[a-z]+\b', s)`. A match needs a word boundary on both sides of a run of
   * letters; a letter is itself a word character, so both boundaries fall at the ends of a
   * maximal run of word characters, and the match is that whole run, which must then hold
   * letters only. A run with a digit or an underscore in it yields nothing.
   */
  function LetterWords(s: string): seq<string>
  {
    LetterRuns(Runs(s, IsWordChar))
  }

  predicate Meaningful(w: string, minLength: int)
  {
    |w| >= minLength && w !in STOPWORDS
  }

  function MeaningfulOnly(words: seq<string>, minLength: int): (r: seq<string>)
    ensures forall w :: w in r ==> w in words && Meaningful(w, minLength)
  {
    if |words| == 0 then []
    else (if Meaningful(words[0], minLength) then [words[0]] else []) + MeaningfulOnly(words[1..], minLength)
  }

  /**
   * `extract_keywords`: the lower-cased words of the text, in order and with repeats, that are
   * at least `minLength` long and are not stopwords; nothing for an empty text.
   */
  function ExtractKeywords(text: string, minLength: int): (keywords: seq<string>)
    ensures text == "" ==> keywords == []
    ensures forall w :: w in keywords ==>
      w in LetterWords(Lower(text)) && w != "" && Keywords.AllLower(w) && |w| >= minLength && w !in STOPWORDS
  {
    if text == "" then [] else MeaningfulOnly(LetterWords(Lower(text)), minLength)
  }

  /** Every occurrence of a meaningful word is kept: its count is the same before and after. */
  lemma {:induction false} MeaningfulKeepsRepeats(words: seq<string>, minLength: int, w: string)
    requires Meaningful(w, minLength)
    ensures Count(MeaningfulOnly(words, minLength), w) == Count(words, w)
    decreases |words|
  {
    if |words| > 0 {
      MeaningfulKeepsRepeats(words[1..], minLength, w);
      assert words == [words[0]] + words[1..];
      CountCommute(words[0], words[1..], w);
      var head := if Meaningful(words[0], minLength) then [words[0]] else [];
      CountAppend(head, MeaningfulOnly(words[1..], minLength), w);
    }
  }

  lemma {:induction false} CountAppend<T>(a: seq<T>, b: seq<T>, k: T)
    ensures Count(a + b, k) == Count(a, k) + Count(b, k)
    decreases |b|
  {
    if |b| > 0 {
      var init := b[..|b| - 1];
      assert a + b == (a + init) + [b[|b| - 1]];
      assert b == init + [b[|b| - 1]];
      CountSnoc(a + init, b[|b| - 1], k);
      CountSnoc(init, b[|b| - 1], k);
      CountAppend(a, init, k);
    } else {
      assert a + b == a;
    }
  }

  lemma {:induction false} MeaningfulAppend(a: seq<string>, b: seq<string>, minLength: int)
    ensures MeaningfulOnly(a + b, minLength) == MeaningfulOnly(a, minLength) + MeaningfulOnly(b, minLength)
    decreases |a|
  {
    if |a| > 0 {
      assert (a + b)[1..] == a[1..] + b;
      MeaningfulAppend(a[1..], b, minLength);
    } else {
      assert a + b == b;
    }
  }

  lemma {:induction false} LetterRunsAppend(a: seq<string>, b: seq<string>)
    ensures LetterRuns(a + b) == LetterRuns(a) + LetterRuns(b)
    decreases |a|
  {
    if |a| > 0 {
      var head := if a[0] != "" && Keywords.AllLower(a[0]) then [a[0]] else [];
      TailOfAppend(a, b);
      LetterRunsStep(a + b);
      LetterRunsStep(a);
      LetterRunsAppend(a[1..], b);
      AppendAssoc(head, LetterRuns(a[1..]), LetterRuns(b));
    } else {
      assert a + b == b;
    }
  }

  lemma LetterRunsStep(runs: seq<string>)
    requires |runs| > 0
    ensures LetterRuns(runs) ==
      (if runs[0] != "" && Keywords.AllLower(runs[0]) then [runs[0]] else []) + LetterRuns(runs[1..])
  {
  }

  /**
   * `re.findall(r'\b[a-z]+\b', ...)` on one run of word characters: the run itself when it
   * is made of lower-case letters, nothing when it holds a digit, an underscore or a capital.
   */
  lemma LetterWordsOfRun(w: string)
    requires AllIn(w, IsWordChar)
    ensures LetterWords(w) == if w != "" && Keywords.AllLower(w) then [w] else []
  {
    RunsOfClass(w, IsWordChar);
    assert LetterRuns([w]) == (if w != "" && Keywords.AllLower(w) then [w] else []) + LetterRuns([]);
  }

  /** A character outside `\w` separates the letter words: those of `a`, then those of `b`. */
  lemma LetterWordsSplit(a: string, c: char, b: string)
    requires !IsWordChar(c)
    ensures LetterWords(a + [c] + b) == LetterWords(a) + LetterWords(b)
  {
    RunsSplit(a, c, b, IsWordChar);
    LetterRunsAppend(Runs(a, IsWordChar), Runs(b, IsWordChar));
  }

  lemma LowerSpaced(a: string, b: string)
    ensures Lower(a + " " + b) == Lower(a) + " " + Lower(b)
  {
    LowerAppend(a + " ", b);
    LowerAppend(a, " ");
  }

  /**
   * The keywords of `f"{title} {summary}"` are the title's followed by the summary's: the
   * joining space never merges or splits a word.
   */
  lemma KeywordsOfJoined(title: string, summary: string, minLength: int)
    ensures ExtractKeywords(title + " " + summary, minLength) ==
      ExtractKeywords(title, minLength) + ExtractKeywords(summary, minLength)
  {
    var t := Lower(title);
    var s := Lower(summary);
    LowerSpaced(title, summary);
    assert t + " " + s == t + [' '] + s;
    LetterWordsSplit(t, ' ', s);
    MeaningfulAppend(LetterWords(t), LetterWords(s), minLength);
    if title == "" {
      assert t == [];
      assert LetterWords(t) == [];
    }
    if summary == "" {
      assert s == [];
      assert LetterWords(s) == [];
    }
  }

  /**
   * Lower-case words joined by single spaces give back exactly the meaningful ones among them,
   * in order and with repeats: `extract_keywords` loses no word of the text and invents none.
   */
  lemma {:induction false} KeywordsOfWords(words: seq<string>, minLength: int)
    requires forall k :: 0 <= k < |words| ==> words[k] != "" && Keywords.AllLower(words[k])
    ensures ExtractKeywords(Join(words, " "), minLength) == MeaningfulOnly(words, minLength)
    decreases |words|
  {
    if |words| == 1 {
      KeywordsOfWord(words[0], minLength);
      assert MeaningfulOnly(words, minLength) == MeaningfulOnly([words[0]], minLength);
    } else if |words| > 1 {
      var w, rest := words[0], words[1..];
      var joined := Join(rest, " ");
      assert forall k :: 0 <= k < |rest| ==> rest[k] == words[k + 1];
      calc {
        ExtractKeywords(Join(words, " "), minLength);
        ExtractKeywords(w + " " + joined, minLength);
        { KeywordsOfJoined(w, joined, minLength); }
        ExtractKeywords(w, minLength) + ExtractKeywords(joined, minLength);
        { KeywordsOfWord(w, minLength); KeywordsOfWords(rest, minLength); }
        MeaningfulOnly([w], minLength) + MeaningfulOnly(rest, minLength);
        { MeaningfulAppend([w], rest, minLength); }
        MeaningfulOnly([w] + rest, minLength);
        { assert words == [w] + rest; }
        MeaningfulOnly(words, minLength);
      }
    }
  }

  /** A single lower-case word is its own keyword when meaningful. */
  lemma KeywordsOfWord(w: string, minLength: int)
    requires w != "" && Keywords.AllLower(w)
    ensures ExtractKeywords(w, minLength) == MeaningfulOnly([w], minLength)
  {
    Keywords.LowerOfLower(w);
    LetterWordsOfRun(w);
  }

  // ---------------------------------------------------------------------------------------------
  // The counting loop of build_analytics
  // ---------------------------------------------------------------------------------------------

  /** The parsers the loop relies on: `datetime.fromisoformat` and `float`; `None` is a rejection. */
  datatype Parsers = Parsers(fromIso: string -> Option<Dates.Date>, parseFloat: string -> Option<Float>)

  /** `strftime('%Y-%m')` */
  function MonthText(d: Dates.Date): string
  {
    Dates.FourDigits(d.year) + "-" + Dates.TwoDigits(d.month)
  }

  /**
   * For a valid date the month text is `YYYY-MM`: four digits, a dash, two digits. Two such
   * texts sort as their (year, month) pairs, so sorting the time-series keys sorts them by
   * month, and two dates share a text exactly when they share year and month.
   */
  lemma MonthTextOrder(a: Dates.Date, b: Dates.Date)
    requires Dates.ValidDate(a) && Dates.ValidDate(b)
    ensures |MonthText(a)| == 7 && MonthText(a)[4] == '-'
    ensures forall i :: 0 <= i < 7 && i != 4 ==> IsDigit(MonthText(a)[i])
    ensures StrLess(MonthText(a), MonthText(b)) <==>
      a.year < b.year || (a.year == b.year && a.month < b.month)
    ensures MonthText(a) == MonthText(b) <==> a.year == b.year && a.month == b.month
  {
    var ya, yb := Dates.FourDigits(a.year), Dates.FourDigits(b.year);
    var ma, mb := Dates.TwoDigits(a.month), Dates.TwoDigits(b.month);
    StrLessAppend(ya + "-", ma, yb + "-", mb);
    StrLessAppend(ya, "-", yb, "-");
    StrLessIrreflexive("-");
    if ya + "-" == yb + "-" {
      assert ya == (ya + "-")[..4] && yb == (yb + "-")[..4];
    }
    Dates.FourDigitsOrder(a.year, b.year);
    Dates.TwoDigitsOrder(a.month, b.month);
    if MonthText(a) == MonthText(b) {
      assert ya == MonthText(a)[..4] && yb == MonthText(b)[..4];
      assert ma == MonthText(a)[5..] && mb == MonthText(b)[5..];
    }
  }

  /** The month of a row's `published_date`, when it parses. */
  function Month(row: Row, p: Parsers): (m: Option<string>)
    ensures m.Some? <==> p.fromIso(Get(row, "published_date", "")).Some?
    ensures m.Some? ==> m.value == MonthText(p.fromIso(Get(row, "published_date", "")).value)
  {
    match p.fromIso(Get(row, "published_date", ""))
    case None => None
    case Some(d) => Some(MonthText(d))
  }

  /** The year of a row's `published_date`, when it parses. */
  function Year(row: Row, p: Parsers): (y: Option<nat>)
    ensures y.Some? <==> p.fromIso(Get(row, "published_date", "")).Some?
    ensures y.Some? ==> y.value == p.fromIso(Get(row, "published_date", "")).value.year
  {
    match p.fromIso(Get(row, "published_date", ""))
    case None => None
    case Some(d) => Some(d.year)
  }

  function DocumentTypeOf(row: Row): string { Get(row, "document_type", "unknown") }

  /** The single-key counters of the loop. */
  datatype Facet = Regulator | Domain | DocumentType | IncomeBand | Status | Region

  /**
   * The key a row adds to a single-key counter, if any: regulator, domain and document type
   * for every row (`unknown` when the column is missing); the income band, status and region
   * only when that enriched field is non-empty.
   */
  function Observe(f: Facet, row: Row, p: Parsers): (k: Option<string>)
    ensures f.Regulator? ==> k == Some(Get(row, "regulator", "unknown"))
    ensures f.Domain? ==> k == Some(Get(row, "domain", "unknown"))
    ensures f.DocumentType? ==> k == Some(DocumentTypeOf(row))
    ensures f.IncomeBand? ==> (k.Some? <==> Get(row, "cc_latest_income", "") != "")
    ensures f.IncomeBand? && k.Some? ==> k.value == ParseIncomeBand(row["cc_latest_income"], p.parseFloat)
    ensures f.Status? ==> (k.Some? <==> Get(row, "cc_status", "") != "")
    ensures f.Status? && k.Some? ==> k.value == row["cc_status"]
    ensures f.Region? ==> (k.Some? <==> Get(row, "cc_primary_region", "") != "")
    ensures f.Region? && k.Some? ==> k.value == row["cc_primary_region"]
  {
    match f
    case Regulator => Some(Get(row, "regulator", "unknown"))
    case Domain => Some(Get(row, "domain", "unknown"))
    case DocumentType => Some(DocumentTypeOf(row))
    case IncomeBand =>
      var income := Get(row, "cc_latest_income", "");
      if income != "" then Some(ParseIncomeBand(income, p.parseFloat)) else None
    case Status =>
      var status := Get(row, "cc_status", "");
      if status != "" then Some(status) else None
    case Region =>
      var region := Get(row, "cc_primary_region", "");
      if region != "" then Some(region) else None
  }

  /** The month-keyed counters. */
  datatype PairFacet = MonthDomain | MonthRegulator

  /** The `(month, domain)` or `(month, regulator)` key of a row whose date parses. */
  function ObservePair(f: PairFacet, row: Row, p: Parsers): (k: Option<(string, string)>)
    ensures k.Some? <==> p.fromIso(Get(row, "published_date", "")).Some?
    ensures k.Some? ==> k.value.0 == Month(row, p).value
  {
    match Month(row, p)
    case None => None
    case Some(m) => Some((m, if f.MonthDomain? then Get(row, "domain", "unknown") else Get(row, "regulator", "unknown")))
  }

  /** Every key the rows add to a single-key counter, in row order. */
  function Seen(rows: seq<Row>, f: Facet, p: Parsers): (s: seq<string>)
    ensures |s| <= |rows|
    ensures f.Regulator? || f.Domain? || f.DocumentType? ==> |s| == |rows|
    decreases |rows|
  {
    if |rows| == 0 then []
    else
      var k := Observe(f, rows[|rows| - 1], p);
      Seen(rows[..|rows| - 1], f, p) + (if k.Some? then [k.value] else [])
  }

  /** Every key the rows add to a month-keyed counter, in row order. */
  function SeenPairs(rows: seq<Row>, f: PairFacet, p: Parsers): (s: seq<(string, string)>)
    ensures |s| <= |rows|
    decreases |rows|
  {
    if |rows| == 0 then []
    else
      var k := ObservePair(f, rows[|rows| - 1], p);
      SeenPairs(rows[..|rows| - 1], f, p) + (if k.Some? then [k.value] else [])
  }

  /** Each keyword paired with a year. */
  function Tag(year: nat, keywords: seq<string>): (r: seq<(nat, string)>)
    ensures |r| == |keywords| && forall j :: 0 <= j < |r| ==> r[j] == (year, keywords[j])
  {
    seq(|keywords|, j requires 0 <= j < |keywords| => (year, keywords[j]))
  }

  /** A case row with a (non-zero) parsed year contributes the keywords of its title and summary. */
  predicate CountsKeywords(row: Row, p: Parsers)
  {
    Year(row, p).Some? && Year(row, p).value != 0 && DocumentTypeOf(row) == "case"
  }

  function RowKeywords(row: Row): seq<string>
  {
    ExtractKeywords(Get(row, "title", "") + " " + Get(row, "summary", ""), 4)
  }

  /** The `(year, keyword)` pairs a row adds: none unless it is a case with a parsed year. */
  function YearKeywords(row: Row, p: Parsers): (r: seq<(nat, string)>)
    ensures !CountsKeywords(row, p) ==> r == []
    ensures CountsKeywords(row, p) ==> r == Tag(Year(row, p).value, RowKeywords(row))
  {
    if CountsKeywords(row, p) then Tag(Year(row, p).value, RowKeywords(row)) else []
  }

  /** Every `(year, keyword)` pair the rows add, in row order. */
  function AllYearKeywords(rows: seq<Row>, p: Parsers): seq<(nat, string)>
    decreases |rows|
  {
    if |rows| == 0 then []
    else AllYearKeywords(rows[..|rows| - 1], p) + YearKeywords(rows[|rows| - 1], p)
  }

  /** `counter[k] += 1` */
  function Bump<K>(m: map<K, nat>, k: K): map<K, nat>
  {
    m[k := (if k in m then m[k] else 0) + 1]
  }

  /** A `Counter` built by `counter[k] += 1` for each element of `s` in turn. */
  function Counter<K>(s: seq<K>): map<K, nat>
    decreases |s|
  {
    if |s| == 0 then map[] else Bump(Counter(s[..|s| - 1]), s[|s| - 1])
  }

  lemma CounterSnoc<K>(s: seq<K>, x: K)
    ensures Counter(s + [x]) == Bump(Counter(s), x)
  {
    assert (s + [x])[..|s|] == s;
  }

  /** Counting element by element leaves each key seen mapped to its number of occurrences. */
  lemma {:induction false} CounterIsTally<K(!new)>(s: seq<K>)
    ensures Counter(s) == Tally(s)
    decreases |s|
  {
    if |s| > 0 {
      var init := s[..|s| - 1];
      assert s == init + [s[|s| - 1]];
      CounterIsTally(init);
      TallySnoc(init, s[|s| - 1]);
    }
  }

  /** The counters and totals after the loop; `by_year_keywords` is keyed by `(year, keyword)`. */
  datatype Tallies = Tallies(
    total: nat, cases: nat, guidance: nat,
    byMonthDomain: map<(string, string), nat>, byMonthRegulator: map<(string, string), nat>,
    byRegulator: map<string, nat>, byDomain: map<string, nat>, byDocumentType: map<string, nat>,
    byIncomeBand: map<string, nat>, byStatus: map<string, nat>, byRegion: map<string, nat>,
    byYearKeywords: map<(nat, string), nat>)

  /** Each counter is the tally of what the rows add to it, and the totals count rows. */
  function TalliesOf(rows: seq<Row>, p: Parsers): Tallies
  {
    var types := Seen(rows, DocumentType, p);
    Tallies(|rows|, Count(types, "case"), Count(types, "guidance"),
            Counter(SeenPairs(rows, MonthDomain, p)), Counter(SeenPairs(rows, MonthRegulator, p)),
            Counter(Seen(rows, Regulator, p)), Counter(Seen(rows, Domain, p)), Counter(types),
            Counter(Seen(rows, IncomeBand, p)), Counter(Seen(rows, Status, p)), Counter(Seen(rows, Region, p)),
            Counter(AllYearKeywords(rows, p)))
  }

  lemma SeenStep(rows: seq<Row>, i: nat, f: Facet, p: Parsers)
    requires i < |rows|
    ensures Seen(rows[..i + 1], f, p) ==
      Seen(rows[..i], f, p) + (if Observe(f, rows[i], p).Some? then [Observe(f, rows[i], p).value] else [])
  {
    assert rows[..i + 1][..i] == rows[..i];
  }

  /** One row adds its key, if any, to a single-key counter. */
  lemma CounterStep(rows: seq<Row>, i: nat, f: Facet, p: Parsers)
    requires i < |rows|
    ensures Counter(Seen(rows[..i + 1], f, p)) ==
      if Observe(f, rows[i], p).Some? then Bump(Counter(Seen(rows[..i], f, p)), Observe(f, rows[i], p).value)
      else Counter(Seen(rows[..i], f, p))
  {
    SeenStep(rows, i, f, p);
    if Observe(f, rows[i], p).Some? {
      CounterSnoc(Seen(rows[..i], f, p), Observe(f, rows[i], p).value);
    } else {
      assert Seen(rows[..i + 1], f, p) == Seen(rows[..i], f, p);
    }
  }

  /** One row adds its `(month, key)` pair, if its date parses, to a month-keyed counter. */
  lemma PairCounterStep(rows: seq<Row>, i: nat, f: PairFacet, p: Parsers)
    requires i < |rows|
    ensures Counter(SeenPairs(rows[..i + 1], f, p)) ==
      if ObservePair(f, rows[i], p).Some? then Bump(Counter(SeenPairs(rows[..i], f, p)), ObservePair(f, rows[i], p).value)
      else Counter(SeenPairs(rows[..i], f, p))
  {
    assert rows[..i + 1][..i] == rows[..i];
    if ObservePair(f, rows[i], p).Some? {
      CounterSnoc(SeenPairs(rows[..i], f, p), ObservePair(f, rows[i], p).value);
    } else {
      assert SeenPairs(rows[..i + 1], f, p) == SeenPairs(rows[..i], f, p);
    }
  }

  /** One row counts as a case, as guidance, or neither, by its document type. */
  lemma TypeCountStep(rows: seq<Row>, i: nat, p: Parsers, t: string)
    requires i < |rows|
    ensures Count(Seen(rows[..i + 1], DocumentType, p), t) ==
      Count(Seen(rows[..i], DocumentType, p), t) + (if DocumentTypeOf(rows[i]) == t then 1 else 0)
  {
    SeenStep(rows, i, DocumentType, p);
    CountSnoc(Seen(rows[..i], DocumentType, p), DocumentTypeOf(rows[i]), t);
  }

  lemma AllYearKeywordsStep(rows: seq<Row>, i: nat, p: Parsers)
    requires i < |rows|
    ensures AllYearKeywords(rows[..i + 1], p) == AllYearKeywords(rows[..i], p) + YearKeywords(rows[i], p)
  {
    assert rows[..i + 1][..i] == rows[..i];
  }

  /** One keyword of a case row adds its `(year, keyword)` pair. */
  lemma KeywordStep(done: seq<(nat, string)>, year: nat, keywords: seq<string>, j: nat)
    requires j < |keywords|
    ensures Counter(done + Tag(year, keywords[..j + 1])) == Bump(Counter(done + Tag(year, keywords[..j])), (year, keywords[j]))
  {
    assert done + Tag(year, keywords[..j + 1]) == (done + Tag(year, keywords[..j])) + [(year, keywords[j])];
    CounterSnoc(done + Tag(year, keywords[..j]), (year, keywords[j]));
  }

  /** `counter[key] += 1` for the key, if any, that row `i` adds to a single-key counter. */
  method CountFacet(counter: map<string, nat>, rows: seq<Row>, i: nat, f: Facet, p: Parsers)
    returns (counter': map<string, nat>)
    requires i < |rows| && counter == Counter(Seen(rows[..i], f, p))
    ensures counter' == Counter(Seen(rows[..i + 1], f, p))
  {
    CounterStep(rows, i, f, p);
    var key := Observe(f, rows[i], p);
    counter' := counter;
    if key.Some? {
      counter' := Bump(counter, key.value);
    }
  }

  /** `counter[(month, key)] += 1` when the date of row `i` parses. */
  method CountPair(counter: map<(string, string), nat>, rows: seq<Row>, i: nat, f: PairFacet, p: Parsers)
    returns (counter': map<(string, string), nat>)
    requires i < |rows| && counter == Counter(SeenPairs(rows[..i], f, p))
    ensures counter' == Counter(SeenPairs(rows[..i + 1], f, p))
  {
    PairCounterStep(rows, i, f, p);
    var key := ObservePair(f, rows[i], p);
    counter' := counter;
    if key.Some? {
      counter' := Bump(counter, key.value);
    }
  }

  /** `for kw in keywords: by_year_keywords[year][kw] += 1` */
  method CountKeywords(counter: map<(nat, string), nat>, year: nat, keywords: seq<string>, ghost done: seq<(nat, string)>)
    returns (counter': map<(nat, string), nat>)
    requires counter == Counter(done)
    ensures counter' == Counter(done + Tag(year, keywords))
  {
    counter' := counter;
    assert done + Tag(year, keywords[..0]) == done;
    for j := 0 to |keywords|
      invariant counter' == Counter(done + Tag(year, keywords[..j]))
    {
      KeywordStep(done, year, keywords, j);
      counter' := Bump(counter', (year, keywords[j]));
    }
    assert keywords[..|keywords|] == keywords;
  }

  /** The keywords of row `i`, each counted under its year, when it is a case with a parsed year. */
  method CountRowKeywords(counter: map<(nat, string), nat>, rows: seq<Row>, i: nat, p: Parsers)
    returns (counter': map<(nat, string), nat>)
    requires i < |rows| && counter == Counter(AllYearKeywords(rows[..i], p))
    ensures counter' == Counter(AllYearKeywords(rows[..i + 1], p))
  {
    AllYearKeywordsStep(rows, i, p);
    var row := rows[i];
    var date := p.fromIso(Get(row, "published_date", ""));
    if date.Some? && date.value.year != 0 && DocumentTypeOf(row) == "case" {
      assert YearKeywords(row, p) == Tag(date.value.year, RowKeywords(row));
      counter' := CountKeywords(counter, date.value.year, RowKeywords(row), AllYearKeywords(rows[..i], p));
    } else {
      assert AllYearKeywords(rows[..i], p) + YearKeywords(row, p) == AllYearKeywords(rows[..i], p);
      counter' := counter;
    }
  }

  /**
   * The aggregation loop of `build_analytics`: each row is counted once, by document type,
   * by month (when its date parses), by regulator, domain and type, by the enriched income
   * band, status and region (when present), and, for a case with a parsed year, by each
   * keyword of its title and summary.
   */
  method CountRows(rows: seq<Row>, p: Parsers) returns (t: Tallies)
    ensures t == TalliesOf(rows, p)
  {
    var total, cases, guidance := 0, 0, 0;
    var byMonthDomain: map<(string, string), nat> := map[];
    var byMonthRegulator: map<(string, string), nat> := map[];
    var byRegulator: map<string, nat> := map[];
    var byDomain: map<string, nat> := map[];
    var byDocumentType: map<string, nat> := map[];
    var byIncomeBand: map<string, nat> := map[];
    var byStatus: map<string, nat> := map[];
    var byRegion: map<string, nat> := map[];
    var byYearKeywords: map<(nat, string), nat> := map[];
    for i := 0 to |rows|
      invariant total == i
      invariant cases == Count(Seen(rows[..i], DocumentType, p), "case")
      invariant guidance == Count(Seen(rows[..i], DocumentType, p), "guidance")
      invariant byMonthDomain == Counter(SeenPairs(rows[..i], MonthDomain, p))
      invariant byMonthRegulator == Counter(SeenPairs(rows[..i], MonthRegulator, p))
      invariant byRegulator == Counter(Seen(rows[..i], Regulator, p))
      invariant byDomain == Counter(Seen(rows[..i], Domain, p))
      invariant byDocumentType == Counter(Seen(rows[..i], DocumentType, p))
      invariant byIncomeBand == Counter(Seen(rows[..i], IncomeBand, p))
      invariant byStatus == Counter(Seen(rows[..i], Status, p))
      invariant byRegion == Counter(Seen(rows[..i], Region, p))
      invariant byYearKeywords == Counter(AllYearKeywords(rows[..i], p))
    {
      total := total + 1;
      var docType := DocumentTypeOf(rows[i]);

      TypeCountStep(rows, i, p, "case");
      TypeCountStep(rows, i, p, "guidance");
      if docType == "case" {
        cases := cases + 1;
      } else if docType == "guidance" {
        guidance := guidance + 1;
      }

      byMonthDomain := CountPair(byMonthDomain, rows, i, MonthDomain, p);
      byMonthRegulator := CountPair(byMonthRegulator, rows, i, MonthRegulator, p);

      byRegulator := CountFacet(byRegulator, rows, i, Regulator, p);
      byDomain := CountFacet(byDomain, rows, i, Domain, p);
      byDocumentType := CountFacet(byDocumentType, rows, i, DocumentType, p);
      byIncomeBand := CountFacet(byIncomeBand, rows, i, IncomeBand, p);
      byStatus := CountFacet(byStatus, rows, i, Status, p);
      byRegion := CountFacet(byRegion, rows, i, Region, p);

      byYearKeywords := CountRowKeywords(byYearKeywords, rows, i, p);
    }
    assert rows[..|rows|] == rows;
    t := Tallies(total, cases, guidance, byMonthDomain, byMonthRegulator, byRegulator, byDomain, byDocumentType,
                 byIncomeBand, byStatus, byRegion, byYearKeywords);
  }

  // ---------------------------------------------------------------------------------------------
  // What the counters add up to
  // ---------------------------------------------------------------------------------------------

  /** The sum of a counter's values over the keys `ks` (a missing key counts zero). */
  function SumOver<K>(m: map<K, nat>, ks: seq<K>): nat
  {
    if |ks| == 0 then 0 else (if ks[0] in m then m[ks[0]] else 0) + SumOver(m, ks[1..])
  }

  /** A counter's keys are exactly the elements counted, each mapped to its number of occurrences. */
  lemma CounterKeys<K(!new)>(s: seq<K>)
    ensures forall k :: k in Counter(s) <==> k in s
    ensures forall k :: k in Counter(s) ==> Counter(s)[k] == Count(s, k)
  {
    CounterIsTally(s);
  }

  lemma {:induction false} SumOverTally<K(!new)>(s: seq<K>, ks: seq<K>)
    ensures SumOver(Tally(s), ks) == SumCounts(ks, s)
    decreases |ks|
  {
    if |ks| > 0 {
      SumOverTally(s, ks[1..]);
    }
  }

  /** Summed over its keys, a counter gives the number of elements counted. */
  lemma CounterAddsUp<K(!new)>(s: seq<K>)
    ensures SumOver(Counter(s), Dedup(s)) == |s|
  {
    CounterIsTally(s);
    SumOverTally(s, Dedup(s));
    TallyTotal(s);
  }

  /** Every row is counted once by regulator, once by domain and once by document type. */
  lemma EveryRowCountedOnce(rows: seq<Row>, p: Parsers)
    ensures SumOver(TalliesOf(rows, p).byRegulator, Dedup(Seen(rows, Regulator, p))) == |rows|
    ensures SumOver(TalliesOf(rows, p).byDomain, Dedup(Seen(rows, Domain, p))) == |rows|
    ensures SumOver(TalliesOf(rows, p).byDocumentType, Dedup(Seen(rows, DocumentType, p))) == |rows|
    ensures TalliesOf(rows, p).total == |rows|
  {
    CounterAddsUp(Seen(rows, Regulator, p));
    CounterAddsUp(Seen(rows, Domain, p));
    CounterAddsUp(Seen(rows, DocumentType, p));
  }

  lemma {:induction false} CountTwo<T>(s: seq<T>, a: T, b: T)
    requires a != b
    ensures Count(s, a) + Count(s, b) <= |s|
    decreases |s|
  {
    if |s| > 0 {
      CountTwo(s[..|s| - 1], a, b);
    }
  }

  /** Cases and guidance are disjoint subsets of the rows. */
  lemma CasesAndGuidanceWithinTotal(rows: seq<Row>, p: Parsers)
    ensures TalliesOf(rows, p).cases + TalliesOf(rows, p).guidance <= TalliesOf(rows, p).total
  {
    CountTwo(Seen(rows, DocumentType, p), "case", "guidance");
  }

  /**
   * The enriched counters only hold non-empty keys, and every income band is one of the six
   * bands or `Unknown`.
   */
  lemma {:induction false} SeenEnrichedKeys(rows: seq<Row>, f: Facet, p: Parsers)
    requires f.IncomeBand? || f.Status? || f.Region?
    ensures forall k :: k in Seen(rows, f, p) ==> k != "" && (f.IncomeBand? ==> k in BANDS || k == "Unknown")
    decreases |rows|
  {
    if |rows| > 0 {
      SeenEnrichedKeys(rows[..|rows| - 1], f, p);
    }
  }

  lemma EnrichedCounterKeys(rows: seq<Row>, p: Parsers)
    ensures forall k :: k in TalliesOf(rows, p).byIncomeBand ==> k in BANDS || k == "Unknown"
    ensures forall k :: k in TalliesOf(rows, p).byStatus ==> k != ""
    ensures forall k :: k in TalliesOf(rows, p).byRegion ==> k != ""
  {
    SeenEnrichedKeys(rows, IncomeBand, p);
    SeenEnrichedKeys(rows, Status, p);
    SeenEnrichedKeys(rows, Region, p);
    CounterKeys(Seen(rows, IncomeBand, p));
    CounterKeys(Seen(rows, Status, p));
    CounterKeys(Seen(rows, Region, p));
  }

  /** Both month-keyed counters see the same months, one per row whose date parses. */
  lemma {:induction false} MonthsAgree(rows: seq<Row>, p: Parsers)
    ensures |SeenPairs(rows, MonthDomain, p)| == |SeenPairs(rows, MonthRegulator, p)|
    ensures forall j :: 0 <= j < |SeenPairs(rows, MonthDomain, p)| ==>
      SeenPairs(rows, MonthDomain, p)[j].0 == SeenPairs(rows, MonthRegulator, p)[j].0
    decreases |rows|
  {
    if |rows| > 0 {
      MonthsAgree(rows[..|rows| - 1], p);
    }
  }

  /** The two time series count the same number of rows. */
  lemma MonthTotalsAgree(rows: seq<Row>, p: Parsers)
    ensures SumOver(TalliesOf(rows, p).byMonthDomain, Dedup(SeenPairs(rows, MonthDomain, p))) ==
            SumOver(TalliesOf(rows, p).byMonthRegulator, Dedup(SeenPairs(rows, MonthRegulator, p)))
  {
    MonthsAgree(rows, p);
    CounterAddsUp(SeenPairs(rows, MonthDomain, p));
    CounterAddsUp(SeenPairs(rows, MonthRegulator, p));
  }

  /** Keyword pairs carry a non-zero year and a lower-case word of at least four letters that is no stopword. */
  lemma {:induction false} YearKeywordsMeaningful(rows: seq<Row>, p: Parsers)
    ensures forall x :: x in AllYearKeywords(rows, p) ==>
      x.0 != 0 && Keywords.AllLower(x.1) && |x.1| >= 4 && x.1 !in STOPWORDS
    decreases |rows|
  {
    if |rows| > 0 {
      YearKeywordsMeaningful(rows[..|rows| - 1], p);
      var row := rows[|rows| - 1];
      if CountsKeywords(row, p) {
        var ks := RowKeywords(row);
        assert forall x :: x in YearKeywords(row, p) ==> x.0 == Year(row, p).value && x.1 in ks;
      }
    }
  }

  lemma KeywordCounterKeys(rows: seq<Row>, p: Parsers)
    ensures forall x :: x in TalliesOf(rows, p).byYearKeywords ==>
      x.0 != 0 && Keywords.AllLower(x.1) && |x.1| >= 4 && x.1 !in STOPWORDS
  {
    YearKeywordsMeaningful(rows, p);
    CounterKeys(AllYearKeywords(rows, p));
  }

  // ---------------------------------------------------------------------------------------------
  // Ordering the output: sorted() and Counter.most_common()
  // ---------------------------------------------------------------------------------------------

  /** `less` is irreflexive and transitive, as a sort key's `<` is. */
  ghost predicate StrictOrder<T(!new)>(less: (T, T) -> bool)
  {
    (forall a :: !less(a, a)) && (forall a, b, c :: less(a, b) && less(b, c) ==> less(a, c))
  }

  /** No element is strictly before an element earlier in the sequence. */
  predicate SortedBy<T>(s: seq<T>, less: (T, T) -> bool)
  {
    forall i, j :: 0 <= i < j < |s| ==> !less(s[j], s[i])
  }

  /** Where `x` is inserted: after every element it is not strictly before. */
  function InsertPos<T>(x: T, s: seq<T>, less: (T, T) -> bool): (k: nat)
    ensures k <= |s|
    ensures forall j :: 0 <= j < k ==> !less(x, s[j])
    ensures k < |s| ==> less(x, s[k])
  {
    if |s| == 0 || less(x, s[0]) then 0 else 1 + InsertPos(x, s[1..], less)
  }

  /** In a sorted sequence, nothing from the insertion point on is strictly before `x`. */
  lemma AfterInsertPos<T(!new)>(x: T, s: seq<T>, less: (T, T) -> bool)
    requires StrictOrder(less) && SortedBy(s, less)
    ensures forall j :: InsertPos(x, s, less) <= j < |s| ==> !less(s[j], x)
  {
    var k := InsertPos(x, s, less);
    forall j | k <= j < |s| ensures !less(s[j], x) {
      assert j == k || !less(s[j], s[k]);
    }
  }

  /** Putting `x` between the elements it is not before and those not before it keeps the order. */
  lemma InsertedSorted<T(!new)>(x: T, s: seq<T>, k: nat, less: (T, T) -> bool)
    requires StrictOrder(less) && SortedBy(s, less) && k <= |s|
    requires forall j :: 0 <= j < k ==> !less(x, s[j])
    requires forall j :: k <= j < |s| ==> !less(s[j], x)
    ensures SortedBy(s[..k] + [x] + s[k..], less)
  {
    var r := s[..k] + [x] + s[k..];
    forall i, j | 0 <= i < j < |r| ensures !less(r[j], r[i]) {
      if j < k {
        assert r[i] == s[i] && r[j] == s[j];
      } else if j == k {
        assert r[i] == s[i] && r[j] == x;
      } else if i == k {
        assert r[i] == x && r[j] == s[j - 1];
      } else if i < k {
        assert r[i] == s[i] && r[j] == s[j - 1];
      } else {
        assert r[i] == s[i - 1] && r[j] == s[j - 1];
      }
    }
  }

  /** Inserts `x` into a sorted sequence after every element it is not strictly before. */
  function InsertBy<T(!new)>(x: T, s: seq<T>, less: (T, T) -> bool): (r: seq<T>)
    requires StrictOrder(less) && SortedBy(s, less)
    ensures multiset(r) == multiset(s) + multiset{x} && |r| == |s| + 1
    ensures SortedBy(r, less)
  {
    var k := InsertPos(x, s, less);
    AfterInsertPos(x, s, less);
    InsertedSorted(x, s, k, less);
    assert s == s[..k] + s[k..];
    s[..k] + [x] + s[k..]
  }

  /**
   * A stable sort, as Python's `sorted` is: each element in turn is inserted after every
   * element it is not strictly before.
   */
  function SortBy<T(!new)>(s: seq<T>, less: (T, T) -> bool): (r: seq<T>)
    requires StrictOrder(less)
    ensures SortedBy(r, less) && multiset(r) == multiset(s) && |r| == |s|
    decreases |s|
  {
    if |s| == 0 then []
    else
      var init := s[..|s| - 1];
      assert s == init + [s[|s| - 1]];
      InsertBy(s[|s| - 1], SortBy(init, less), less)
  }

  /** Sorting a sequence without repetitions leaves none. */
  lemma InsertDistinct<T(!new)>(x: T, s: seq<T>, less: (T, T) -> bool)
    requires StrictOrder(less) && SortedBy(s, less) && Distinct(s) && x !in s
    ensures Distinct(InsertBy(x, s, less))
  {
    var k := InsertPos(x, s, less);
    var r := InsertBy(x, s, less);
    assert r == s[..k] + [x] + s[k..];
    forall i, j | 0 <= i < j < |r| ensures r[i] != r[j] {
      if i != k && j != k {
        var si := if i < k then i else i - 1;
        var sj := if j < k then j else j - 1;
        assert r[i] == s[si] && r[j] == s[sj];
      }
    }
  }

  lemma {:induction false} SortDistinct<T(!new)>(s: seq<T>, less: (T, T) -> bool)
    requires StrictOrder(less) && Distinct(s)
    ensures Distinct(SortBy(s, less))
    decreases |s|
  {
    if |s| > 0 {
      var init := s[..|s| - 1];
      SortDistinct(init, less);
      assert s[|s| - 1] !in multiset(SortBy(init, less));
      InsertDistinct(s[|s| - 1], SortBy(init, less), less);
    }
  }

  /** `less` orders any two different values. */
  ghost predicate Total<T(!new)>(less: (T, T) -> bool)
  {
    forall a, b :: a == b || less(a, b) || less(b, a)
  }

  /** Under a total order, sorting values without repetitions orders them strictly. */
  lemma SortStrictly<T(!new)>(s: seq<T>, less: (T, T) -> bool)
    requires StrictOrder(less) && Total(less) && Distinct(s)
    ensures forall i, j :: 0 <= i < j < |SortBy(s, less)| ==> less(SortBy(s, less)[i], SortBy(s, less)[j])
  {
    SortDistinct(s, less);
  }

  /** `Counter[k]`: zero for a key never counted. */
  function CountIn<K>(m: map<K, nat>, k: K): nat
  {
    if k in m then m[k] else 0
  }

  /** The counter's items for the keys `keys`, in that order. */
  function Items<K>(m: map<K, nat>, keys: seq<K>): (items: seq<(K, nat)>)
    ensures |items| == |keys| && forall j :: 0 <= j < |keys| ==> items[j] == (keys[j], CountIn(m, keys[j]))
  {
    seq(|keys|, j requires 0 <= j < |keys| => (keys[j], CountIn(m, keys[j])))
  }

  /** The `most_common` order: higher counts first. */
  predicate MoreCommon<K>(a: (K, nat), b: (K, nat))
  {
    a.1 > b.1
  }

  lemma MoreCommonIsStrict<K(!new)>()
    ensures StrictOrder(MoreCommon<K>)
  {
  }

  /** The items sorted by count: counts never increase, and each is a key's true count. */
  lemma SortedByCount<K(!new)>(m: map<K, nat>, keys: seq<K>)
    requires StrictOrder(MoreCommon<K>)
    ensures forall i, j :: 0 <= i < j < |SortBy(Items(m, keys), MoreCommon)| ==>
      SortBy(Items(m, keys), MoreCommon)[i].1 >= SortBy(Items(m, keys), MoreCommon)[j].1
    ensures forall e :: e in SortBy(Items(m, keys), MoreCommon) ==> e.0 in keys && e.1 == CountIn(m, e.0)
  {
    var sorted := SortBy(Items(m, keys), MoreCommon);
    forall i, j | 0 <= i < j < |sorted| ensures sorted[i].1 >= sorted[j].1 {
      assert !MoreCommon(sorted[j], sorted[i]);
    }
    forall e | e in sorted ensures e.0 in keys && e.1 == CountIn(m, e.0) {
      assert e in multiset(Items(m, keys));
      var j :| 0 <= j < |keys| && Items(m, keys)[j] == e;
    }
  }

  /**
   * `Counter.most_common(n)` over a counter whose keys were first counted in the order `keys`:
   * the items by decreasing count, ties in first-counted order, cut to the first `n` when a
   * limit is given.
   */
  function MostCommon<K(!new)>(m: map<K, nat>, keys: seq<K>, limit: Option<nat>): (r: seq<(K, nat)>)
    ensures |r| == if limit.Some? && limit.value < |keys| then limit.value else |keys|
    ensures forall i, j :: 0 <= i < j < |r| ==> r[i].1 >= r[j].1
    ensures forall e :: e in r ==> e.0 in keys && e.1 == CountIn(m, e.0)
    ensures limit.None? ==> multiset(r) == multiset(Items(m, keys))
  {
    MoreCommonIsStrict<K>();
    SortedByCount(m, keys);
    var sorted := SortBy(Items(m, keys), MoreCommon);
    if limit.Some? && limit.value < |sorted| then sorted[..limit.value] else sorted
  }

  /** The items counted exactly `c` times, in order. */
  function WithCount<K>(s: seq<(K, nat)>, c: nat): seq<(K, nat)>
  {
    if |s| == 0 then [] else (if s[0].1 == c then [s[0]] else []) + WithCount(s[1..], c)
  }

  lemma {:induction false} WithCountAppend<K>(a: seq<(K, nat)>, b: seq<(K, nat)>, c: nat)
    ensures WithCount(a + b, c) == WithCount(a, c) + WithCount(b, c)
    decreases |a|
  {
    if |a| > 0 {
      WithCountAppend(a[1..], b, c);
      assert (a + b)[1..] == a[1..] + b;
    } else {
      assert a + b == b;
    }
  }

  lemma WithCountSnoc<K>(s: seq<(K, nat)>, c: nat)
    requires |s| > 0
    ensures WithCount(s, c) == WithCount(s[..|s| - 1], c) + WithCount([s[|s| - 1]], c)
  {
    assert s[..|s| - 1] + [s[|s| - 1]] == s;
    WithCountAppend(s[..|s| - 1], [s[|s| - 1]], c);
  }

  lemma {:induction false} WithCountNone<K>(s: seq<(K, nat)>, c: nat)
    requires forall j :: 0 <= j < |s| ==> s[j].1 < c
    ensures WithCount(s, c) == []
    decreases |s|
  {
    if |s| > 0 {
      WithCountNone(s[1..], c);
    }
  }

  /** Nothing from the insertion point of `x` on is counted as often as `x`. */
  lemma NoTiesAfterPos<K(!new)>(x: (K, nat), s: seq<(K, nat)>)
    requires StrictOrder(MoreCommon<K>) && SortedBy(s, MoreCommon)
    ensures WithCount(s[InsertPos(x, s, MoreCommon)..], x.1) == []
  {
    var k := InsertPos(x, s, MoreCommon);
    var after := s[k..];
    forall j | 0 <= j < |after| ensures after[j].1 < x.1 {
      assert after[j] == s[k + j];
      assert j == 0 || !MoreCommon(s[k + j], s[k]);
    }
    WithCountNone(after, x.1);
  }

  lemma WithCountSplice<K>(before: seq<(K, nat)>, x: (K, nat), after: seq<(K, nat)>, c: nat)
    ensures WithCount(before + [x] + after, c) == WithCount(before, c) + WithCount([x], c) + WithCount(after, c)
  {
    WithCountAppend(before + [x], after, c);
    WithCountAppend(before, [x], c);
  }

  /** Inserting by count splits `s` at a point after which nothing is counted as often as `x`. */
  lemma InsertPieces<K(!new)>(x: (K, nat), s: seq<(K, nat)>) returns (before: seq<(K, nat)>, after: seq<(K, nat)>)
    requires StrictOrder(MoreCommon<K>) && SortedBy(s, MoreCommon)
    ensures before + after == s && InsertBy(x, s, MoreCommon) == before + [x] + after
    ensures WithCount(after, x.1) == []
  {
    var k := InsertPos(x, s, MoreCommon);
    before, after := s[..k], s[k..];
    assert before + after == s;
    NoTiesAfterPos(x, s);
  }

  /** Splicing `x` in before every item counted as often as `x` adds it after the others. */
  lemma SpliceKeepsTies<K>(before: seq<(K, nat)>, x: (K, nat), after: seq<(K, nat)>, c: nat)
    requires x.1 == c ==> WithCount(after, c) == []
    ensures WithCount(before + [x] + after, c) == WithCount(before + after, c) + WithCount([x], c)
  {
    WithCountSplice(before, x, after, c);
    WithCountAppend(before, after, c);
    if x.1 != c {
      assert WithCount([x], c) == [];
    }
  }

  /** Inserting by count puts `x` after the items already counted as often as it is. */
  lemma InsertKeepsTies<K(!new)>(x: (K, nat), s: seq<(K, nat)>, c: nat)
    requires StrictOrder(MoreCommon<K>) && SortedBy(s, MoreCommon)
    ensures WithCount(InsertBy(x, s, MoreCommon), c) == WithCount(s, c) + WithCount([x], c)
  {
    var before, after := InsertPieces(x, s);
    SpliceKeepsTies(before, x, after, c);
  }

  lemma {:induction false} SortKeepsTies<K(!new)>(s: seq<(K, nat)>, c: nat)
    requires StrictOrder(MoreCommon<K>)
    ensures WithCount(SortBy(s, MoreCommon), c) == WithCount(s, c)
    decreases |s|
  {
    if |s| > 0 {
      var init := s[..|s| - 1];
      var sorted := SortBy(init, MoreCommon);
      SortKeepsTies(init, c);
      InsertKeepsTies(s[|s| - 1], sorted, c);
      WithCountSnoc(s, c);
    }
  }

  /** Items counted equally often keep the order in which their keys were first counted. */
  lemma MostCommonKeepsTies<K(!new)>(m: map<K, nat>, keys: seq<K>, c: nat)
    ensures WithCount(MostCommon(m, keys, None), c) == WithCount(Items(m, keys), c)
  {
    MoreCommonIsStrict<K>();
    SortKeepsTies(Items(m, keys), c);
  }

  /** `most_common(n)` keeps the `n` highest counts: any key left out is counted no more than any kept. */
  lemma MostCommonKeepsTop<K(!new)>(m: map<K, nat>, keys: seq<K>, n: nat, e: (K, nat), k: K)
    requires e in MostCommon(m, keys, Some(n)) && k in keys
    requires (k, CountIn(m, k)) !in MostCommon(m, keys, Some(n))
    ensures CountIn(m, k) <= e.1
  {
    MoreCommonIsStrict<K>();
    SortedByCount(m, keys);
    var sorted := SortBy(Items(m, keys), MoreCommon);
    var j :| 0 <= j < |keys| && keys[j] == k;
    assert (k, CountIn(m, k)) in multiset(sorted) by { assert Items(m, keys)[j] == (k, CountIn(m, k)); }
    var a :| 0 <= a < |sorted| && sorted[a] == (k, CountIn(m, k));
    var b :| 0 <= b < n && b < |sorted| && sorted[b] == e;
    assert a >= n;
  }

  /** Over keys without repetitions, `most_common` lists each key at most once. */
  lemma MostCommonDistinct<K(!new)>(m: map<K, nat>, keys: seq<K>, limit: Option<nat>)
    requires Distinct(keys)
    ensures var r := MostCommon(m, keys, limit);
      forall i, j :: 0 <= i < j < |r| ==> r[i].0 != r[j].0
  {
    MoreCommonIsStrict<K>();
    SortedByCount(m, keys);
    var items := Items(m, keys);
    assert Distinct(items) by {
      forall i, j | 0 <= i < j < |items| ensures items[i] != items[j] {
        assert items[i].0 == keys[i] && items[j].0 == keys[j];
      }
    }
    SortDistinct(items, MoreCommon);
    var sorted := SortBy(items, MoreCommon);
    var r := MostCommon(m, keys, limit);
    forall i, j | 0 <= i < j < |r| ensures r[i].0 != r[j].0 {
      assert r[i] == sorted[i] && r[j] == sorted[j];
      assert sorted[i] in sorted && sorted[j] in sorted;
    }
  }

  /** With no limit, `most_common` lists every key with its count. */
  lemma MostCommonListsAll<K(!new)>(m: map<K, nat>, keys: seq<K>)
    ensures forall k :: k in keys ==> (k, CountIn(m, k)) in MostCommon(m, keys, None)
  {
    var r := MostCommon(m, keys, None);
    forall k | k in keys ensures (k, CountIn(m, k)) in r {
      var j :| 0 <= j < |keys| && keys[j] == k;
      assert Items(m, keys)[j] == (k, CountIn(m, k));
      assert (k, CountIn(m, k)) in multiset(Items(m, keys));
    }
  }

  /** Tuple order on `(month, key)` pairs, as `sorted` compares them. */
  predicate PairLess(a: (string, string), b: (string, string))
  {
    StrLess(a.0, b.0) || (a.0 == b.0 && StrLess(a.1, b.1))
  }

  lemma PairLessIsTotalOrder()
    ensures StrictOrder(PairLess) && Total(PairLess)
  {
    forall a: (string, string) ensures !PairLess(a, a) {
      StrLessIrreflexive(a.0);
      StrLessIrreflexive(a.1);
    }
    forall a: (string, string), b: (string, string), c: (string, string) | PairLess(a, b) && PairLess(b, c)
      ensures PairLess(a, c)
    {
      if StrLess(a.0, b.0) && StrLess(b.0, c.0) {
        StrLessTransitive(a.0, b.0, c.0);
      } else if a.0 == b.0 && b.0 == c.0 {
        StrLessTransitive(a.1, b.1, c.1);
      }
    }
    forall a: (string, string), b: (string, string) ensures a == b || PairLess(a, b) || PairLess(b, a) {
      StrLessTotal(a.0, b.0);
      StrLessTotal(a.1, b.1);
    }
  }

  /**
   * `sorted(counter.items())` for a month-keyed counter whose keys were first counted in the
   * order `keys`: every key once with its count, in `(month, key)` order.
   */
  function TimeSeries(m: map<(string, string), nat>, keys: seq<(string, string)>): (r: seq<((string, string), nat)>)
    ensures |r| == |keys|
    ensures forall i, j :: 0 <= i < j < |r| ==> !PairLess(r[j].0, r[i].0)
    ensures forall e :: e in r ==> e.0 in keys && e.1 == CountIn(m, e.0)
    ensures forall k :: k in keys ==> (k, CountIn(m, k)) in r
  {
    PairLessIsTotalOrder();
    var sorted := SortBy(keys, PairLess);
    SortedMembers(keys, PairLess);
    SeriesItems(m, keys, sorted);
    Items(m, sorted)
  }

  lemma SortedMembers<T(!new)>(s: seq<T>, less: (T, T) -> bool)
    requires StrictOrder(less)
    ensures forall k :: k in SortBy(s, less) <==> k in s
  {
    var sorted := SortBy(s, less);
    forall k ensures k in sorted <==> k in s {
      assert k in sorted <==> k in multiset(sorted);
    }
  }

  /** The items of the keys in sorted order: each key once with its count, in that order. */
  lemma SeriesItems(m: map<(string, string), nat>, keys: seq<(string, string)>, sorted: seq<(string, string)>)
    requires |sorted| == |keys| && SortedBy(sorted, PairLess)
    requires forall k :: k in sorted <==> k in keys
    ensures var r := Items(m, sorted);
      (forall i, j :: 0 <= i < j < |r| ==> !PairLess(r[j].0, r[i].0)) &&
      (forall e :: e in r ==> e.0 in keys && e.1 == CountIn(m, e.0)) &&
      (forall k :: k in keys ==> (k, CountIn(m, k)) in r)
  {
    var r := Items(m, sorted);
    forall k | k in keys ensures (k, CountIn(m, k)) in r {
      var j :| 0 <= j < |sorted| && sorted[j] == k;
      assert r[j] == (k, CountIn(m, k));
    }
  }

  /** With each key counted once, the series is strictly increasing in `(month, key)`. */
  lemma TimeSeriesStrictlyIncreasing(m: map<(string, string), nat>, keys: seq<(string, string)>)
    requires Distinct(keys)
    ensures forall i, j :: 0 <= i < j < |TimeSeries(m, keys)| ==> PairLess(TimeSeries(m, keys)[i].0, TimeSeries(m, keys)[j].0)
  {
    PairLessIsTotalOrder();
    SortStrictly(keys, PairLess);
  }

  predicate YearBefore(a: nat, b: nat)
  {
    a < b
  }

  /** The years of the keyword pairs. */
  function YearsOf(pairs: seq<(nat, string)>): (years: seq<nat>)
    ensures |years| == |pairs| && forall j :: 0 <= j < |pairs| ==> years[j] == pairs[j].0
  {
    seq(|pairs|, j requires 0 <= j < |pairs| => pairs[j].0)
  }

  /** `sorted(by_year_keywords)`: each year that has a keyword, once, in increasing order. */
  function SortedYears(pairs: seq<(nat, string)>): (years: seq<nat>)
    ensures forall i, j :: 0 <= i < j < |years| ==> years[i] < years[j]
    ensures forall y :: y in years <==> y in YearsOf(pairs)
  {
    SortStrictly(Dedup(YearsOf(pairs)), YearBefore);
    var years := SortBy(Dedup(YearsOf(pairs)), YearBefore);
    assert forall y :: y in years <==> y in Dedup(YearsOf(pairs)) by {
      forall y ensures y in years <==> y in Dedup(YearsOf(pairs)) {
        assert y in years <==> y in multiset(years);
      }
    }
    years
  }

  /** The keywords counted under `year`, in counting order. */
  function WordsOf(pairs: seq<(nat, string)>, year: nat): seq<string>
    decreases |pairs|
  {
    if |pairs| == 0 then []
    else
      var last := pairs[|pairs| - 1];
      WordsOf(pairs[..|pairs| - 1], year) + (if last.0 == year then [last.1] else [])
  }

  /** The flattened counter counts `(year, keyword)` as the year's own counter would count the keyword. */
  lemma {:induction false} CountWordsOf(pairs: seq<(nat, string)>, year: nat, kw: string)
    ensures Count(pairs, (year, kw)) == Count(WordsOf(pairs, year), kw)
    decreases |pairs|
  {
    if |pairs| > 0 {
      var init := pairs[..|pairs| - 1];
      CountWordsOf(init, year, kw);
      var last := pairs[|pairs| - 1];
      assert pairs == init + [last];
      CountSnoc(init, last, (year, kw));
      if last.0 == year {
        CountSnoc(WordsOf(init, year), last.1, kw);
      } else {
        assert WordsOf(init, year) + [] == WordsOf(init, year);
      }
    }
  }

  /** `by_year_keywords[year]`, recovered from the flattened counter. */
  function YearCounter(m: map<(nat, string), nat>, year: nat, words: seq<string>): map<string, nat>
  {
    map kw | kw in words :: CountIn(m, (year, kw))
  }

  lemma FlattenedCounterAgrees(pairs: seq<(nat, string)>, year: nat, kw: string)
    ensures CountIn(YearCounter(Counter(pairs), year, WordsOf(pairs, year)), kw) == Count(WordsOf(pairs, year), kw)
  {
    CounterKeys(pairs);
    CountWordsOf(pairs, year, kw);
  }

  // ---------------------------------------------------------------------------------------------
  // analytics.json
  // ---------------------------------------------------------------------------------------------

  /** The content of `analytics.json`; each list holds `(key, count)` items. */
  datatype Report = Report(
    total: nat, cases: nat, guidance: nat, lastUpdated: string,
    byMonthDomain: seq<((string, string), nat)>, byMonthRegulator: seq<((string, string), nat)>,
    byRegulator: seq<(string, nat)>, byDomain: seq<(string, nat)>, byDocumentType: seq<(string, nat)>,
    byIncomeBand: seq<(string, nat)>, byStatus: seq<(string, nat)>, byRegion: seq<(string, nat)>,
    keywords: seq<(nat, seq<(string, nat)>)>)

  /** `keywords.most_common(20)` for one year. */
  function TopKeywords(m: map<(nat, string), nat>, pairs: seq<(nat, string)>, year: nat): seq<(string, nat)>
  {
    var words := WordsOf(pairs, year);
    MostCommon(YearCounter(m, year, words), Dedup(words), Some(20))
  }

  /** `{str(year): [...] for year, keywords in sorted(by_year_keywords.items())}` */
  function KeywordSection(m: map<(nat, string), nat>, pairs: seq<(nat, string)>): seq<(nat, seq<(string, nat)>)>
  {
    var years := SortedYears(pairs);
    seq(|years|, j requires 0 <= j < |years| => (years[j], TopKeywords(m, pairs, years[j])))
  }

  /**
   * The output structure built from the counters; a counter's keys are iterated in the order
   * they were first counted, which is the order they first occur among the rows.
   */
  function Assemble(t: Tallies, rows: seq<Row>, p: Parsers, now: string): Report
  {
    Report(
      t.total, t.cases, t.guidance, now,
      TimeSeries(t.byMonthDomain, Dedup(SeenPairs(rows, MonthDomain, p))),
      TimeSeries(t.byMonthRegulator, Dedup(SeenPairs(rows, MonthRegulator, p))),
      MostCommon(t.byRegulator, Dedup(Seen(rows, Regulator, p)), None),
      MostCommon(t.byDomain, Dedup(Seen(rows, Domain, p)), None),
      MostCommon(t.byDocumentType, Dedup(Seen(rows, DocumentType, p)), None),
      MostCommon(t.byIncomeBand, Dedup(Seen(rows, IncomeBand, p)), None),
      MostCommon(t.byStatus, Dedup(Seen(rows, Status, p)), None),
      MostCommon(t.byRegion, Dedup(Seen(rows, Region, p)), Some(10)),
      KeywordSection(t.byYearKeywords, AllYearKeywords(rows, p)))
  }

  /** The report `build_analytics` writes for the rows of the CSV, stamped with `now`. */
  function Analyze(rows: seq<Row>, p: Parsers, now: string): Report
  {
    Assemble(TalliesOf(rows, p), rows, p, now)
  }

  /**
   * `build_analytics`: nothing when the CSV is missing; otherwise the rows are counted in one
   * pass and the report assembled from the counters.
   */
  method BuildAnalytics(csv: Option<seq<Row>>, p: Parsers, now: string) returns (report: Option<Report>)
    ensures csv.None? <==> report.None?
    ensures csv.Some? ==> report == Some(Analyze(csv.value, p, now))
  {
    if csv.None? {
      return None;
    }
    var t := CountRows(csv.value, p);
    report := Some(Assemble(t, csv.value, p, now));
  }

  /** The summary: every row counted, cases and guidance among them. */
  lemma ReportSummary(rows: seq<Row>, p: Parsers, now: string)
    ensures Analyze(rows, p, now).total == |rows|
    ensures Analyze(rows, p, now).cases == Count(Seen(rows, DocumentType, p), "case")
    ensures Analyze(rows, p, now).guidance == Count(Seen(rows, DocumentType, p), "guidance")
    ensures Analyze(rows, p, now).cases + Analyze(rows, p, now).guidance <= |rows|
    ensures Analyze(rows, p, now).lastUpdated == now
  {
    CasesAndGuidanceWithinTotal(rows, p);
  }

  /**
   * A breakdown lists keys that occur, each once and with its number of occurrences, most
   * common first: every key when there is no limit, and otherwise none that is counted more
   * often than a key it lists.
   */
  lemma MostCommonOfCounter<K(!new)>(s: seq<K>, limit: Option<nat>)
    ensures var b := MostCommon(Counter(s), Dedup(s), limit);
      (forall e :: e in b ==> e.0 in s && e.1 == Count(s, e.0) && e.1 > 0) &&
      (forall i, j :: 0 <= i < j < |b| ==> b[i].0 != b[j].0) &&
      (limit.None? ==> forall k :: k in s ==> (k, Count(s, k)) in b) &&
      (limit.Some? ==> forall e, k :: e in b && k in s && (k, Count(s, k)) !in b ==> Count(s, k) <= e.1)
  {
    var b := MostCommon(Counter(s), Dedup(s), limit);
    CounterKeys(s);
    MostCommonDistinct(Counter(s), Dedup(s), limit);
    if limit.Some? {
      forall e, k | e in b && k in s && (k, Count(s, k)) !in b ensures Count(s, k) <= e.1 {
        assert CountIn(Counter(s), k) == Count(s, k);
        MostCommonKeepsTop(Counter(s), Dedup(s), limit.value, e, k);
      }
    } else {
      MostCommonListsAll(Counter(s), Dedup(s));
      forall k | k in s ensures (k, Count(s, k)) in b {
        assert k in Dedup(s) && CountIn(Counter(s), k) == Count(s, k);
      }
    }
  }

  /**
   * Each breakdown gives the number of rows per key, most common first; all keys are listed
   * except for regions, cut to the ten most common.
   */
  lemma ReportBreakdowns(rows: seq<Row>, p: Parsers, now: string, f: Facet)
    ensures var r := Analyze(rows, p, now);
      var b := match f
        case Regulator => r.byRegulator case Domain => r.byDomain case DocumentType => r.byDocumentType
        case IncomeBand => r.byIncomeBand case Status => r.byStatus case Region => r.byRegion;
      var seen := Seen(rows, f, p);
      (forall i, j :: 0 <= i < j < |b| ==> b[i].1 >= b[j].1) &&
      (forall i, j :: 0 <= i < j < |b| ==> b[i].0 != b[j].0) &&
      (forall e :: e in b ==> e.1 == Count(seen, e.0) && e.1 > 0) &&
      |b| == (if f.Region? && 10 < |Dedup(seen)| then 10 else |Dedup(seen)|) &&
      (!f.Region? ==> forall k :: k in seen ==> (k, Count(seen, k)) in b) &&
      (f.Region? ==> forall e, k :: e in b && k in seen && (k, Count(seen, k)) !in b ==> Count(seen, k) <= e.1)
  {
    var seen := Seen(rows, f, p);
    var limit := if f.Region? then Some(10) else None;
    BreakdownOfCounter(rows, p, now, f);
    MostCommonOfCounter(seen, limit);
  }

  lemma BreakdownOfCounter(rows: seq<Row>, p: Parsers, now: string, f: Facet)
    ensures var r := Analyze(rows, p, now);
      (match f
        case Regulator => r.byRegulator case Domain => r.byDomain case DocumentType => r.byDocumentType
        case IncomeBand => r.byIncomeBand case Status => r.byStatus case Region => r.byRegion) ==
      MostCommon(Counter(Seen(rows, f, p)), Dedup(Seen(rows, f, p)), if f.Region? then Some(10) else None)
  {
  }

  /** A time series built from a counter lists every key counted, once, in order, with its count. */
  lemma TimeSeriesOfCounter(s: seq<(string, string)>)
    ensures var ts := TimeSeries(Counter(s), Dedup(s));
      (forall i, j :: 0 <= i < j < |ts| ==> PairLess(ts[i].0, ts[j].0)) &&
      (forall e :: e in ts ==> e.1 == Count(s, e.0) && e.1 > 0) &&
      (forall k :: k in s ==> (k, Count(s, k)) in ts)
  {
    CounterKeys(s);
    TimeSeriesStrictlyIncreasing(Counter(s), Dedup(s));
  }

  /** Each time series lists every `(month, key)` seen once, in order, with its number of rows. */
  lemma ReportTimeSeries(rows: seq<Row>, p: Parsers, now: string, f: PairFacet)
    ensures var r := Analyze(rows, p, now);
      var ts := if f.MonthDomain? then r.byMonthDomain else r.byMonthRegulator;
      var s := SeenPairs(rows, f, p);
      (forall i, j :: 0 <= i < j < |ts| ==> PairLess(ts[i].0, ts[j].0)) &&
      (forall e :: e in ts ==> e.1 == Count(s, e.0) && e.1 > 0) &&
      (forall k :: k in s ==> (k, Count(s, k)) in ts)
  {
    var r := Analyze(rows, p, now);
    var s := SeenPairs(rows, f, p);
    assert (if f.MonthDomain? then r.byMonthDomain else r.byMonthRegulator) == TimeSeries(Counter(s), Dedup(s));
    TimeSeriesOfCounter(s);
  }

  /**
   * What `most_common(20)` promises about a year's list of keywords: twenty distinct words of
   * the year, or all of them when there are fewer, each with its number of occurrences among
   * the year's words, most common first, and none left out that occurs more often than one listed.
   */
  predicate TopOf(top: seq<(string, nat)>, words: seq<string>)
  {
    |top| == (if 20 < |Dedup(words)| then 20 else |Dedup(words)|) &&
    (forall a, b :: 0 <= a < b < |top| ==> top[a].0 != top[b].0) &&
    (forall e :: e in top ==> e.0 in words && e.1 == Count(words, e.0)) &&
    (forall a, b :: 0 <= a < b < |top| ==> top[a].1 >= top[b].1) &&
    (forall e, kw :: e in top && kw in words && (kw, Count(words, kw)) !in top ==> Count(words, kw) <= e.1)
  }

  /**
   * The keyword section: exactly the years that counted a keyword, in increasing order, none
   * zero, each with its top keywords.
   */
  predicate SectionOf(kws: seq<(nat, seq<(string, nat)>)>, pairs: seq<(nat, string)>)
  {
    (forall i, j :: 0 <= i < j < |kws| ==> kws[i].0 < kws[j].0) &&
    (forall y :: y in YearsOf(pairs) ==> exists i :: 0 <= i < |kws| && kws[i].0 == y) &&
    (forall i :: 0 <= i < |kws| ==>
      kws[i].0 in YearsOf(pairs) && kws[i].0 != 0 && TopOf(kws[i].1, WordsOf(pairs, kws[i].0)))
  }

  /**
   * The keyword section: the years in increasing order, and for each at most twenty keywords,
   * most common first, each with the number of times it occurs in that year's cases.
   */
  lemma ReportKeywords(rows: seq<Row>, p: Parsers, now: string)
    ensures SectionOf(Analyze(rows, p, now).keywords, AllYearKeywords(rows, p))
  {
    var pairs := AllYearKeywords(rows, p);
    assert Analyze(rows, p, now).keywords == KeywordSection(Counter(pairs), pairs);
    YearKeywordsMeaningful(rows, p);
    KeywordSectionCounts(pairs);
  }

  /** A year's top keywords are what `most_common(20)` promises. */
  lemma TopKeywordsCounts(pairs: seq<(nat, string)>, year: nat)
    ensures TopOf(TopKeywords(Counter(pairs), pairs, year), WordsOf(pairs, year))
  {
    var top := TopKeywords(Counter(pairs), pairs, year);
    var words := WordsOf(pairs, year);
    var yc := YearCounter(Counter(pairs), year, words);
    MostCommonDistinct(yc, Dedup(words), Some(20));
    forall e | e in top ensures e.0 in words && e.1 == Count(words, e.0) {
      FlattenedCounterAgrees(pairs, year, e.0);
    }
    forall e, kw | e in top && kw in words && (kw, Count(words, kw)) !in top ensures Count(words, kw) <= e.1 {
      FlattenedCounterAgrees(pairs, year, kw);
      MostCommonKeepsTop(yc, Dedup(words), 20, e, kw);
    }
  }

  lemma YearsNonZero(pairs: seq<(nat, string)>)
    requires forall x :: x in pairs ==> x.0 != 0
    ensures forall y :: y in YearsOf(pairs) ==> y != 0
  {
    forall y | y in YearsOf(pairs) ensures y != 0 {
      var j :| 0 <= j < |pairs| && YearsOf(pairs)[j] == y;
      assert pairs[j] in pairs;
    }
  }

  lemma KeywordSectionCounts(pairs: seq<(nat, string)>)
    requires forall x :: x in pairs ==> x.0 != 0
    ensures SectionOf(KeywordSection(Counter(pairs), pairs), pairs)
  {
    var kws := KeywordSection(Counter(pairs), pairs);
    var years := SortedYears(pairs);
    YearsNonZero(pairs);
    forall y | y in YearsOf(pairs) ensures exists i :: 0 <= i < |kws| && kws[i].0 == y {
      var i :| 0 <= i < |years| && years[i] == y;
      assert kws[i].0 == y;
    }
    forall i | 0 <= i < |kws|
      ensures kws[i].0 in YearsOf(pairs) && kws[i].0 != 0 && TopOf(kws[i].1, WordsOf(pairs, kws[i].0))
    {
      assert kws[i] == (years[i], TopKeywords(Counter(pairs), pairs, years[i]));
      assert years[i] in YearsOf(pairs);
      TopKeywordsCounts(pairs, years[i]);
    }
  }
}
