/**
 * The rule-based chart-query analysis: from a chat message, work out which symbol,
 * indicators, timeframe and chart actions it mentions, and build the TradingView chart
 * configuration those imply. Regular-expression matching and the language-model symbol
 * resolver are inputs: the (verb, target) pairs the action patterns match, and the
 * resolver's reply.
 */
module ChartAnalysis {
  import opened Wrappers
  import opened Text
  import Sequences

  // ---- study normalisation ----

  /** The study ids already in TradingView form (the list holds "STD;BB" twice). */
  const CanonicalStudies: seq<string> := [
    "STD;RSI", "STD;MACD", "STD;BB", "STD;SMA", "STD;EMA", "STD;STOCH", "STD;WPR", "STD;CCI",
    "STD;ATR", "STD;ADX", "STD;MFI", "STD;MOM", "STD;PPO", "STD;PVO", "STD;ROC", "STD;RVI",
    "STD;SAR", "STD;TRIX", "STD;VWAP", "STD;WMA", "STD;BB", "STD;DEMA", "STD;TEMA", "STD;VIDYA",
    "STD;VWMA"]

  /** Loose study names and the ids they normalise to, as (name, id) entries; no name is
      listed twice. */
  const StudyNormalization: seq<(string, string)> := [
    ("STD;BOLLINGER", "STD;BB"), ("STD;BOLLINGERBANDS", "STD;BB"), ("STD;BOLLINGER BANDS", "STD;BB"),
    ("STD;BOLLINGER_BANDS", "STD;BB"), ("BOLLINGER", "STD;BB"), ("BOLLINGERBANDS", "STD;BB"),
    ("BB", "STD;BB"), ("RSI", "STD;RSI"), ("MACD", "STD;MACD"), ("SMA", "STD;SMA"), ("EMA", "STD;EMA"),
    ("STOCHASTIC", "STD;STOCH"), ("STOCH", "STD;STOCH"), ("WILLIAMS", "STD;WPR"), ("WPR", "STD;WPR"),
    ("CCI", "STD;CCI"), ("ATR", "STD;ATR"), ("ADX", "STD;ADX"), ("MFI", "STD;MFI"), ("MOM", "STD;MOM"),
    ("PPO", "STD;PPO"), ("PVO", "STD;PVO"), ("ROC", "STD;ROC"), ("RVI", "STD;RVI"), ("SAR", "STD;SAR"),
    ("TRIX", "STD;TRIX"), ("VWAP", "STD;VWAP"), ("WMA", "STD;WMA"), ("BBANDS", "STD;BB"),
    ("DEMA", "STD;DEMA"), ("TEMA", "STD;TEMA"), ("VIDYA", "STD;VIDYA"), ("VWMA", "STD;VWMA")]

  /** The id an entry list gives a name: the first entry with that name, if any. */
  function Lookup(table: seq<(string, string)>, name: string): (r: Option<string>)
    ensures r.Some? ==> exists k | 0 <= k < |table| :: table[k] == (name, r.value)
    ensures r.None? <==> forall k | 0 <= k < |table| :: table[k].0 != name
  {
    if |table| == 0 then None
    else if table[0].0 == name then Some(table[0].1)
    else
      var r := Lookup(table[1..], name);
      assert forall k | 1 <= k < |table| :: table[k] == table[1..][k - 1];
      r
  }

  /** The two tables study normalisation reads: the ids already in TradingView form, and
      loose names with the ids they stand for. */
  datatype StudyTables = StudyTables(canonical: seq<string>, aliases: seq<(string, string)>) {
    /** Every alias leads to a canonical id, and every canonical id starts with "STD;". */
    predicate Sound() {
      (forall k | 0 <= k < |aliases| :: aliases[k].1 in canonical)
      && (forall c | c in canonical :: IsPrefix("STD;", c))
    }
  }

  /** The tables the analyser normalises studies with. */
  const AnalyserStudyTables: StudyTables := StudyTables(CanonicalStudies, StudyNormalization)

  lemma AliasesCanonical()
    ensures forall k | 0 <= k < |StudyNormalization| :: StudyNormalization[k].1 in CanonicalStudies
  {
  }

  lemma CanonicalStudiesPrefixed()
    ensures forall c | c in CanonicalStudies :: IsPrefix("STD;", c)
  {
  }

  lemma AnalyserStudyTablesSound()
    ensures AnalyserStudyTables.Sound()
  {
    AliasesCanonical();
    CanonicalStudiesPrefixed();
  }

  /** One study: kept when already canonical, otherwise looked up first with spaces and
      underscores squeezed out, then as plain upper case, and kept as it is when unknown. */
  function NormalizeStudy(tables: StudyTables, study: string): (r: string)
    ensures tables.Sound() ==> r == study || r in tables.canonical
  {
    if IsPrefix("STD;", study) && study in tables.canonical then study
    else
      var squeezed := Replace(Replace(Upper(study), " ", ""), "_", "");
      match Lookup(tables.aliases, squeezed)
      case Some(id) => id
      case None => Lookup(tables.aliases, Upper(study)).GetOr(study)
  }

  /** Normalising twice changes nothing more. */
  lemma NormalizeStudyIdempotent(tables: StudyTables, study: string)
    requires tables.Sound()
    ensures NormalizeStudy(tables, NormalizeStudy(tables, study)) == NormalizeStudy(tables, study)
  {
    var r := NormalizeStudy(tables, study);
    if r != study {
      assert IsPrefix("STD;", r) && r in tables.canonical;
    }
  }

  /** Every study normalised, each in place of its own position. */
  function NormalizeAll(tables: StudyTables, studies: seq<string>): (r: seq<string>)
    ensures |r| == |studies|
  {
    if |studies| == 0 then []
    else NormalizeAll(tables, studies[..|studies| - 1]) + [NormalizeStudy(tables, studies[|studies| - 1])]
  }

  /** The i-th normalised study is the i-th study normalised. */
  lemma {:induction false} NormalizeAllAt(tables: StudyTables, studies: seq<string>, i: int)
    requires 0 <= i < |studies|
    ensures NormalizeAll(tables, studies)[i] == NormalizeStudy(tables, studies[i])
    decreases |studies|
  {
    if i < |studies| - 1 {
      var front := studies[..|studies| - 1];
      NormalizeAllAt(tables, front, i);
      assert front[i] == studies[i];
    }
  }

  /** `_normalize_studies` */
  method NormalizeStudies(tables: StudyTables, studies: seq<string>) returns (normalized: seq<string>)
    ensures normalized == NormalizeAll(tables, studies)
  {
    normalized := [];
    var i := 0;
    while i < |studies|
      invariant 0 <= i <= |studies|
      invariant normalized == NormalizeAll(tables, studies[..i])
    {
      assert studies[..i + 1][..i] == studies[..i];
      normalized := normalized + [NormalizeStudy(tables, studies[i])];
      i := i + 1;
    }
    assert studies[..i] == studies;
  }

  /** A normalised list normalises to itself. */
  lemma {:induction false} NormalizeAllIdempotent(tables: StudyTables, studies: seq<string>)
    requires tables.Sound()
    ensures NormalizeAll(tables, NormalizeAll(tables, studies)) == NormalizeAll(tables, studies)
    decreases |studies|
  {
    if |studies| > 0 {
      var front := studies[..|studies| - 1];
      NormalizeAllIdempotent(tables, front);
      NormalizeStudyIdempotent(tables, studies[|studies| - 1]);
      var once := NormalizeAll(tables, studies);
      assert once[..|once| - 1] == NormalizeAll(tables, front);
    }
  }

  // ---- interval normalisation ----

  const MinuteHourIntervals: map<string, string> := map[
    "1m" := "1", "1min" := "1", "1 minute" := "1",
    "5m" := "5", "5min" := "5", "5 minutes" := "5",
    "15m" := "15", "15min" := "15", "15 minutes" := "15",
    "30m" := "30", "30min" := "30", "30 minutes" := "30",
    "1h" := "60", "1hr" := "60", "1 hour" := "60", "60m" := "60",
    "4h" := "240", "4hr" := "240", "4 hours" := "240", "240m" := "240"]

  const DayWeekIntervals: map<string, string> := map[
    "1d" := "D", "1day" := "D", "daily" := "D", "day" := "D",
    "1w" := "W", "1week" := "W", "weekly" := "W", "week" := "W"]

  const MonthYearIntervals: map<string, string> := map[
    "1m" := "1M", "1month" := "1M", "1-month" := "1M", "monthly" := "1M",
    "3m" := "3M", "3month" := "3M", "3-month" := "3M", "3 month" := "3M", "3 months" := "3M",
    "6m" := "6M", "6month" := "6M", "6-month" := "6M", "6 month" := "6M", "6 months" := "6M",
    "1y" := "12M", "1year" := "12M", "1-year" := "12M", "yearly" := "12M", "year" := "12M"]

  /** The interval table, written in three parts in its own order: for a key listed twice
      ("1m") the later entry is the one in force. */
  const IntervalMap: map<string, string> := MinuteHourIntervals + DayWeekIntervals + MonthYearIntervals

  /** The interval codes the table produces, and the month and year codes the query yields. */
  const TradingViewIntervals: set<string> := {"1", "5", "15", "30", "60", "240", "D", "W", "1M", "3M", "6M", "12M", "1Y"}

  lemma MinuteHourValues()
    ensures forall k | k in MinuteHourIntervals :: MinuteHourIntervals[k] in TradingViewIntervals
  {
  }

  lemma DayWeekValues()
    ensures forall k | k in DayWeekIntervals :: DayWeekIntervals[k] in TradingViewIntervals
  {
  }

  lemma MonthYearValues()
    ensures forall k | k in MonthYearIntervals :: MonthYearIntervals[k] in TradingViewIntervals
  {
  }

  /** Every code the interval table gives is a TradingView interval. */
  lemma IntervalMapValues()
    ensures forall k | k in IntervalMap :: IntervalMap[k] in TradingViewIntervals
  {
    MinuteHourValues();
    DayWeekValues();
    MonthYearValues();
  }

  /** "1m" reads as one month, not one minute. */
  lemma OneMinuteKeyMeansMonth()
    ensures NormalizeInterval("1m", "") == "1M"
  {
    NothingInEmpty("month");
    NothingInEmpty("year");
    assert Lower("") == "";
    OneMinuteKeyIsMonth();
  }

  /** The table's later, monthly entry for "1m" is the one in force. */
  lemma OneMinuteKeyIsMonth()
    ensures Lower("1m") == "1m" && "1m" in IntervalMap && IntervalMap["1m"] == "1M"
  {
    assert Lower("1m") == "1m" by {
      assert LowerChar('1') == '1' && LowerChar('m') == 'm';
    }
    OneMinuteMonthlyEntry();
  }

  lemma OneMinuteMonthlyEntry()
    ensures "1m" in MonthYearIntervals && MonthYearIntervals["1m"] == "1M"
  {
  }

  predicate Six(query: string) { Contains(query, "6") || Contains(Lower(query), "six") }
  predicate Three(query: string) { Contains(query, "3") || Contains(Lower(query), "three") }
  predicate One(query: string) { Contains(query, "1") || Contains(Lower(query), "one") }

  /** The query names a month count: "month" with a 6, 3 or 1, in digits or in words. */
  predicate CountsMonths(query: string) {
    Contains(Lower(query), "month") && (Six(query) || Three(query) || One(query))
  }

  /** `_normalize_interval`: a month or year named in the query decides first; otherwise the
      lower-cased interval is looked up, and an unknown interval is returned as given. */
  function NormalizeInterval(interval: string, query: string): (r: string)
    ensures r in TradingViewIntervals || (r == interval && Lower(interval) !in IntervalMap)
    ensures Contains(Lower(query), "month") && Six(query) ==> r == "6M"
    ensures Contains(Lower(query), "month") && !Six(query) && Three(query) ==> r == "3M"
    ensures Contains(Lower(query), "month") && !Six(query) && !Three(query) && One(query) ==> r == "1M"
    ensures !CountsMonths(query) && Contains(Lower(query), "year") ==> r == "1Y"
    ensures !CountsMonths(query) && !Contains(Lower(query), "year") ==>
      r == if Lower(interval) in IntervalMap then IntervalMap[Lower(interval)] else interval
  {
    var q := Lower(query);
    if Contains(q, "month") && Six(query) then "6M"
    else if Contains(q, "month") && Three(query) then "3M"
    else if Contains(q, "month") && One(query) then "1M"
    else if Contains(q, "year") then "1Y"
    else if Lower(interval) in IntervalMap then IntervalMapValues(); IntervalMap[Lower(interval)]
    else interval
  }

  /** The codes the interval table gives. */
  const TableCodes: set<string> := {"1", "5", "15", "30", "60", "240", "D", "W", "1M", "3M", "6M", "12M"}

  lemma TableValuesAreCodes()
    ensures forall k | k in IntervalMap :: IntervalMap[k] in TableCodes
  {
  }

  /** A code the table gives is either no key of the table or a key for itself. */
  lemma LookupFixesCode(v: string)
    requires v in TableCodes
    ensures Lower(v) !in IntervalMap || IntervalMap[Lower(v)] == v
  {
    LowerCode(v);
    if v == "1M" {
      OneMinuteKeyIsMonth();
    } else if v == "3M" || v == "6M" {
      MonthCodesKeyed();
    } else {
      UnlistedCodeNotKey(Lower(v));
    }
  }

  lemma UnlistedCodeNotKey(v: string)
    requires v in UnlistedCodes
    ensures v !in IntervalMap
  {
    LoweredCodesNotKeys();
  }

  /** The lowered codes that no part of the table lists. */
  const UnlistedCodes: set<string> := {"1", "5", "15", "30", "60", "240", "d", "w", "12m"}

  lemma LoweredCodesNotKeys()
    ensures forall v | v in UnlistedCodes :: v !in IntervalMap
  {
    UnlistedInMinuteHour();
    UnlistedInDayWeek();
    UnlistedInMonthYear();
  }

  lemma UnlistedInMinuteHour()
    ensures forall v | v in UnlistedCodes :: v !in MinuteHourIntervals
  {
  }

  lemma UnlistedInDayWeek()
    ensures forall v | v in UnlistedCodes :: v !in DayWeekIntervals
  {
  }

  lemma UnlistedInMonthYear()
    ensures forall v | v in UnlistedCodes :: v !in MonthYearIntervals
  {
  }

  /** "3m" and "6m" read as three and six months, from the table's last part. */
  lemma MonthCodesKeyed()
    ensures "3m" in IntervalMap && IntervalMap["3m"] == "3M"
    ensures "6m" in IntervalMap && IntervalMap["6m"] == "6M"
  {
    MonthCodesInLastPart();
  }

  lemma MonthCodesInLastPart()
    ensures "3m" in MonthYearIntervals && MonthYearIntervals["3m"] == "3M"
    ensures "6m" in MonthYearIntervals && MonthYearIntervals["6m"] == "6M"
  {
  }

  /** Lowering a code changes only the letters D, W and M. */
  lemma LowerCode(v: string)
    requires v in TableCodes
    ensures Lower(v) == if v == "D" then "d" else if v == "W" then "w" else if v == "1M" then "1m"
      else if v == "3M" then "3m" else if v == "6M" then "6m" else if v == "12M" then "12m" else v
  {
  }

  /** Normalising an interval again, against the same query, changes nothing. */
  lemma NormalizeIntervalIdempotent(interval: string, query: string)
    ensures NormalizeInterval(NormalizeInterval(interval, query), query) == NormalizeInterval(interval, query)
  {
    if !CountsMonths(query) && !Contains(Lower(query), "year") && Lower(interval) in IntervalMap {
      TableValuesAreCodes();
      LookupFixesCode(IntervalMap[Lower(interval)]);
    }
  }

  // ---- extraction ----

  /** What a query mentions, each list in the order found. */
  datatype Extracted = Extracted(symbols: seq<string>, indicators: seq<string>, timeframes: seq<string>, actions: seq<string>)

  predicate Distinct(xs: seq<string>) {
    forall i, j | 0 <= i < j < |xs| :: xs[i] != xs[j]
  }

  /** The symbols of every table term the query contains, in table order. */
  function MappedSymbols(table: seq<(string, string)>, query: string): (r: seq<string>)
    ensures |r| <= |table|
    ensures forall x | x in r :: exists k | 0 <= k < |table| :: table[k].1 == x && Contains(query, table[k].0)
    decreases |table|
  {
    if |table| == 0 then []
    else
      var last := table[|table| - 1];
      var earlier := MappedSymbols(table[..|table| - 1], query);
      earlier + if Contains(query, last.0) then [last.1] else []
  }

  /** Every table term the query contains has its symbol found. */
  lemma {:induction false} MappedSymbolsComplete(table: seq<(string, string)>, query: string)
    ensures forall k | 0 <= k < |table| && Contains(query, table[k].0) :: table[k].1 in MappedSymbols(table, query)
    decreases |table|
  {
    if |table| > 0 {
      var n := |table| - 1;
      MappedSymbolsComplete(table[..n], query);
      forall k | 0 <= k < |table| && Contains(query, table[k].0)
        ensures table[k].1 in MappedSymbols(table, query)
      {
        if k < n {
          assert table[..n][k] == table[k];
        }
      }
    }
  }

  /** Nothing is found exactly when the query contains no table term. */
  lemma NothingMappedIffNoTerm(table: seq<(string, string)>, query: string)
    ensures MappedSymbols(table, query) == [] <==> forall k | 0 <= k < |table| :: !Contains(query, table[k].0)
  {
    MappedSymbolsComplete(table, query);
    var r := MappedSymbols(table, query);
    if r != [] {
      assert r[0] in r;
    }
  }

  /** The symbols found are those of the table entries whose term the query contains,
      taken in table order (`[symbol for term, symbol in table if term in query]`). */
  lemma {:induction false} MappedSymbolsInTableOrder(table: seq<(string, string)>, query: string)
    ensures MappedSymbols(table, query) == Sequences.Map(Symbol, Sequences.Filter(table, TermIn(query)))
    decreases |table|
  {
    if |table| > 0 {
      var n := |table| - 1;
      MappedSymbolsInTableOrder(table[..n], query);
      assert table == table[..n] + [table[n]];
      Sequences.FilterAppend(table[..n], [table[n]], TermIn(query));
      MapAppendOne(Sequences.Filter(table[..n], TermIn(query)), table[n], TermIn(query));
    }
  }

  /** Mapping the filter of a list grown by one entry adds that entry's symbol when it passes. */
  lemma MapAppendOne(kept: seq<(string, string)>, e: (string, string), keep: ((string, string)) -> bool)
    ensures Sequences.Map(Symbol, kept + Sequences.Filter([e], keep)) == Sequences.Map(Symbol, kept) + if keep(e) then [e.1] else []
  {
    assert [e][1..] == [];
  }

  function Symbol(e: (string, string)): string {
    e.1
  }

  function TermIn(query: string): ((string, string)) -> bool {
    (e: (string, string)) => Contains(query, e.0)
  }

  method ScanSymbols(table: seq<(string, string)>, query: string) returns (found: seq<string>)
    ensures found == MappedSymbols(table, query)
  {
    found := [];
    var i := 0;
    while i < |table|
      invariant 0 <= i <= |table|
      invariant found == MappedSymbols(table[..i], query)
    {
      assert table[..i + 1][..i] == table[..i];
      if Contains(query, table[i].0) {
        found := found + [table[i].1];
      }
      i := i + 1;
    }
    assert table[..|table|] == table;
  }

  /** The language-model resolver's reply is taken, stripped, only when it is non-empty and
      names an exchange ("EXCHANGE:SYMBOL"); None stands for a failed call or a null reply. */
  function AcceptResolvedSymbol(reply: Option<string>): (r: seq<string>)
    ensures |r| <= 1
    ensures |r| == 1 <==> reply.Some? && |Strip(reply.value)| > 0 && ':' in Strip(reply.value)
    ensures |r| == 1 ==> r[0] == Strip(reply.value)
  {
    if reply.Some? && |Strip(reply.value)| > 0 && ':' in Strip(reply.value) then [Strip(reply.value)] else []
  }

  const IndicatorKeywords: seq<string> :=
    ["rsi", "macd", "bollinger", "bollinger bands", "sma", "ema", "stochastic", "williams", "cci", "atr"]

  /** An indicator keyword's name: upper case without spaces, both Bollinger forms as "BOLLINGER". */
  function IndicatorName(keyword: string): (r: string)
    ensures ' ' !in r
    ensures r != "BOLLINGERBANDS"
    ensures Upper(keyword) == "BOLLINGER" || Replace(Upper(keyword), " ", "") == "BOLLINGERBANDS" ==> r == "BOLLINGER"
    ensures Upper(keyword) != "BOLLINGER" && Replace(Upper(keyword), " ", "") != "BOLLINGERBANDS" ==>
              r == Replace(Upper(keyword), " ", "")
  {
    var squeezed := Replace(Upper(keyword), " ", "");
    NoSpaceAfterReplacingSpaces(Upper(keyword), "");
    if squeezed == "BOLLINGERBANDS" || Upper(keyword) == "BOLLINGER" then "BOLLINGER" else squeezed
  }

  /** Replacing every space by a text without one (nothing, or an underscore) leaves no space. */
  lemma {:induction false} NoSpaceAfterReplacingSpaces(s: string, rep: string)
    requires ' ' !in rep
    ensures ' ' !in Replace(s, " ", rep)
    decreases |s|
  {
    if |s| >= 1 {
      if s[..1] == " " {
        NoSpaceAfterReplacingSpaces(s[1..], rep);
      } else {
        assert s[0] != ' ';
        NoSpaceAfterReplacingSpaces(s[1..], rep);
      }
    }
  }

  /** The names of the keywords the query contains, in keyword order, each once. */
  function IndicatorsIn(keywords: seq<string>, query: string): (r: seq<string>)
    ensures Distinct(r)
    ensures forall x | x in r :: exists k | 0 <= k < |keywords| :: Contains(query, keywords[k]) && IndicatorName(keywords[k]) == x
    decreases |keywords|
  {
    if |keywords| == 0 then []
    else
      var last := keywords[|keywords| - 1];
      var earlier := IndicatorsIn(keywords[..|keywords| - 1], query);
      if Contains(query, last) && IndicatorName(last) !in earlier then earlier + [IndicatorName(last)] else earlier
  }

  /** Every keyword the query contains has its name among the indicators found. */
  lemma {:induction false} IndicatorsComplete(keywords: seq<string>, query: string)
    ensures forall k | 0 <= k < |keywords| && Contains(query, keywords[k]) :: IndicatorName(keywords[k]) in IndicatorsIn(keywords, query)
    decreases |keywords|
  {
    if |keywords| > 0 {
      var n := |keywords| - 1;
      IndicatorsComplete(keywords[..n], query);
      forall k | 0 <= k < |keywords| && Contains(query, keywords[k])
        ensures IndicatorName(keywords[k]) in IndicatorsIn(keywords, query)
      {
        if k < n {
          assert keywords[..n][k] == keywords[k];
        }
      }
    }
  }

  /** The indicators found are the names of the keywords the query contains, in keyword
      order, keeping the first of any repeated name. */
  lemma {:induction false} IndicatorsInKeywordOrder(keywords: seq<string>, query: string)
    ensures IndicatorsIn(keywords, query) == IndicatorsSpec(keywords, query)
    decreases |keywords|
  {
    if |keywords| > 0 {
      var n := |keywords| - 1;
      IndicatorsInKeywordOrder(keywords[..n], query);
      if Contains(query, keywords[n]) {
        KeptKeywordStep(keywords, query);
      } else {
        SkippedKeywordStep(keywords, query);
      }
    }
  }

  /** `list(dict.fromkeys(IndicatorName(k) for k in keywords if k in query))` */
  function IndicatorsSpec(keywords: seq<string>, query: string): seq<string> {
    Sequences.Dedup(Sequences.Map(IndicatorName, Sequences.Filter(keywords, KeywordIn(query))))
  }

  /** The keywords the query contains, in order, gain the last keyword when the query contains it. */
  lemma KeywordsFoundSnoc(keywords: seq<string>, query: string)
    requires |keywords| > 0
    ensures var n := |keywords| - 1;
      Sequences.Filter(keywords, KeywordIn(query)) ==
      Sequences.Filter(keywords[..n], KeywordIn(query)) + if Contains(query, keywords[n]) then [keywords[n]] else []
  {
    var n := |keywords| - 1;
    assert keywords == keywords[..n] + [keywords[n]];
    Sequences.FilterSnoc(keywords[..n], keywords[n], KeywordIn(query));
  }

  /** A last keyword the query contains adds its name unless an earlier keyword gave it. */
  lemma KeptKeywordStep(keywords: seq<string>, query: string)
    requires |keywords| > 0 && Contains(query, keywords[|keywords| - 1])
    requires IndicatorsIn(keywords[..|keywords| - 1], query) == IndicatorsSpec(keywords[..|keywords| - 1], query)
    ensures IndicatorsIn(keywords, query) == IndicatorsSpec(keywords, query)
  {
    var n := |keywords| - 1;
    var last := keywords[n];
    var name := IndicatorName(last);
    var kept := Sequences.Filter(keywords[..n], KeywordIn(query));
    var names := Sequences.Map(IndicatorName, kept);
    KeywordsFoundSnoc(keywords, query);
    Sequences.MapAppendOne(IndicatorName, kept, last);
    Sequences.DedupSnoc(names, name);
    assert name in Sequences.Dedup(names) <==> name in names;
  }

  /** A last keyword the query does not contain changes nothing. */
  lemma SkippedKeywordStep(keywords: seq<string>, query: string)
    requires |keywords| > 0 && !Contains(query, keywords[|keywords| - 1])
    requires IndicatorsIn(keywords[..|keywords| - 1], query) == IndicatorsSpec(keywords[..|keywords| - 1], query)
    ensures IndicatorsIn(keywords, query) == IndicatorsSpec(keywords, query)
  {
    var n := |keywords| - 1;
    var kept := Sequences.Filter(keywords[..n], KeywordIn(query));
    KeywordsFoundSnoc(keywords, query);
    assert kept + [] == kept;
  }

  function KeywordIn(query: string): string -> bool {
    (k: string) => Contains(query, k)
  }

  /** "bollinger" names the indicator "BOLLINGER". */
  lemma BollingerNamed()
    ensures IndicatorName("bollinger") == "BOLLINGER"
  {
    assert Upper("bollinger") == "BOLLINGER";
  }

  /** "bollinger bands" names the same indicator as "bollinger": the two forms merge. */
  lemma BollingerBandsMerged()
    ensures IndicatorName("bollinger bands") == "BOLLINGER"
  {
    var a: string, b: string := "BOLLINGER", "BANDS";
    assert Upper("bollinger bands") == a + ([' '] + b);
    ReplaceDropsOne(a, b, ' ');
    assert a + b == "BOLLINGERBANDS";
  }

  method ScanIndicators(keywords: seq<string>, query: string) returns (found: seq<string>)
    ensures found == IndicatorsIn(keywords, query)
  {
    found := [];
    var i := 0;
    while i < |keywords|
      invariant 0 <= i <= |keywords|
      invariant found == IndicatorsIn(keywords[..i], query)
    {
      assert keywords[..i + 1][..i] == keywords[..i];
      if Contains(query, keywords[i]) {
        var name := IndicatorName(keywords[i]);
        if name !in found {
          found := found + [name];
        }
      }
      i := i + 1;
    }
    assert keywords[..|keywords|] == keywords;
  }

  /** Timeframe phrases, longer ones first, with the timeframe each names. */
  const TimeframePatterns: seq<(string, string)> := [
    ("6-month", "6M"), ("6 month", "6M"), ("6 months", "6M"), ("six month", "6M"),
    ("3-month", "3M"), ("3 month", "3M"), ("3 months", "3M"), ("three month", "3M"),
    ("1-month", "1M"), ("1 month", "1M"), ("one month", "1M"),
    ("1-year", "1Y"), ("1 year", "1Y"), ("one year", "1Y"),
    ("1h", "1h"), ("4h", "4h"), ("1d", "1d"), ("1w", "1w"),
    ("1m", "1m"), ("5m", "5m"), ("15m", "15m"), ("30m", "30m"),
    ("6M", "6M"), ("3M", "3M"), ("1M", "1M"), ("1Y", "1Y")]

  /** The timeframe of the first pattern the query contains, if any. */
  function FirstTimeframe(patterns: seq<(string, string)>, query: string): (r: seq<string>)
    ensures |r| <= 1
    ensures |r| == 0 <==> forall k | 0 <= k < |patterns| :: !Contains(query, patterns[k].0)
    ensures |r| == 1 ==> exists k | 0 <= k < |patterns| ::
      Contains(query, patterns[k].0) && r[0] == patterns[k].1
      && forall j | 0 <= j < k :: !Contains(query, patterns[j].0)
    decreases |patterns|
  {
    if |patterns| == 0 then []
    else if Contains(query, patterns[0].0) then [patterns[0].1]
    else
      var r := FirstTimeframe(patterns[1..], query);
      assert forall k | 1 <= k < |patterns| :: patterns[k] == patterns[1..][k - 1];
      r
  }

  /** Scans the patterns in order and stops at the first one the query contains. */
  method ScanTimeframe(patterns: seq<(string, string)>, query: string) returns (timeframes: seq<string>)
    ensures timeframes == FirstTimeframe(patterns, query)
  {
    timeframes := [];
    var i := 0;
    while i < |patterns|
      invariant 0 <= i <= |patterns|
      invariant timeframes == [] && FirstTimeframe(patterns[i..], query) == FirstTimeframe(patterns, query)
    {
      if Contains(query, patterns[i].0) {
        if patterns[i].1 !in timeframes {
          timeframes := timeframes + [patterns[i].1];
          break;
        }
      }
      assert patterns[i..][1..] == patterns[i + 1..];
      i := i + 1;
    }
  }

  // ---- action categorisation ----

  /** A matched target with " bands" dropped and spaces turned into underscores. */
  function NormalizeTarget(target: string): (r: string)
    ensures ' ' !in r
    ensures '_' !in target && !Contains(target, " bands") ==> Replace(r, "_", " ") == target
  {
    var t := Replace(Replace(target, " bands", ""), " ", "_");
    NoSpaceAfterReplacingSpaces(Replace(target, " bands", ""), "_");
    assert '_' !in target && !Contains(target, " bands") ==> Replace(t, "_", " ") == target by {
      if '_' !in target && !Contains(target, " bands") {
        ReplaceCharBack(target, ' ', '_');
      }
    }
    t
  }

  /** A trailing " bands" is dropped: "bollinger bands" is normalised as "bollinger" is. */
  lemma NormalizeTargetDropsBands(target: string)
    requires !Contains(target, " bands")
    ensures NormalizeTarget(target + " bands") == NormalizeTarget(target)
  {
    ReplaceDropsSuffix(target, " bands");
  }

  /** Whether the verb contains any of the words. */
  predicate Mentions(verb: string, words: seq<string>) {
    exists k | 0 <= k < |words| :: Contains(Lower(verb), words[k])
  }

  const RemoveWords: seq<string> := ["remove", "delete", "hide"]
  const AddWords: seq<string> := ["add", "show", "display", "plot", "with"]
  const ChangeWords: seq<string> := ["switch", "change", "set"]
  const ViewWords: seq<string> := ["view", "look"]

  /** The verb group a verb falls in: the first group whose words it contains decides
      (remove, then add, then change, then view), and a verb in none of them is a
      generic "action". */
  function VerbGroup(verb: string): (r: string)
    ensures ':' !in r
    ensures r == "remove" <==> Mentions(verb, RemoveWords)
    ensures r == "add" <==> !Mentions(verb, RemoveWords) && Mentions(verb, AddWords)
    ensures r == "change" <==> !Mentions(verb, RemoveWords) && !Mentions(verb, AddWords) && Mentions(verb, ChangeWords)
    ensures r == "view" <==> !Mentions(verb, RemoveWords) && !Mentions(verb, AddWords) && !Mentions(verb, ChangeWords) &&
                             Mentions(verb, ViewWords)
    ensures r == "action" <==> !Mentions(verb, RemoveWords) && !Mentions(verb, AddWords) && !Mentions(verb, ChangeWords) &&
                               !Mentions(verb, ViewWords)
  {
    if Mentions(verb, RemoveWords) then "remove"
    else if Mentions(verb, AddWords) then "add"
    else if Mentions(verb, ChangeWords) then "change"
    else if Mentions(verb, ViewWords) then "view"
    else "action"
  }

  /** One (verb, target) match as an action `group:target`, the generic group keeping the
      verb as well. */
  function Categorise(verb: string, target: string): (r: string)
    ensures VerbGroup(verb) + ":" <= r
    ensures var t := NormalizeTarget(target); |t| <= |r| && r[|r| - |t|..] == t
  {
    var t := NormalizeTarget(target);
    var group := VerbGroup(verb);
    if group == "action" then group + ":" + (verb + ":" + t) else group + ":" + t
  }

  /** Reading a categorised action back gives its verb group, and for a named group the
      normalised target up to its first colon. */
  lemma CategoriseReadsBack(verb: string, target: string)
    ensures ActionKind(Categorise(verb, target)) == VerbGroup(verb)
    ensures VerbGroup(verb) != "action" ==>
      var t := NormalizeTarget(target); ActionTarget(Categorise(verb, target)) == t[..IndexOf(t, ':')]
  {
    var t := NormalizeTarget(target);
    var group := VerbGroup(verb);
    if group == "action" {
      KindAndTarget(group, verb + ":" + t);
    } else {
      KindAndTarget(group, t);
    }
  }

  /** Every match categorised, in order. */
  function CategoriseAll(matches: seq<(string, string)>): (r: seq<string>)
    ensures |r| == |matches|
  {
    if |matches| == 0 then []
    else
      var last := matches[|matches| - 1];
      CategoriseAll(matches[..|matches| - 1]) + [Categorise(last.0, last.1)]
  }

  /** The i-th action is the i-th match categorised. */
  lemma {:induction false} CategoriseAllAt(matches: seq<(string, string)>, i: int)
    requires 0 <= i < |matches|
    ensures CategoriseAll(matches)[i] == Categorise(matches[i].0, matches[i].1)
    decreases |matches|
  {
    if i < |matches| - 1 {
      var front := matches[..|matches| - 1];
      CategoriseAllAt(front, i);
      assert front[i] == matches[i];
    }
  }

  /** Categorising a prefix one match longer appends that match's action. */
  lemma CategoriseAllSnoc(matches: seq<(string, string)>, i: nat)
    requires i < |matches|
    ensures CategoriseAll(matches[..i + 1]) == CategoriseAll(matches[..i]) + [Categorise(matches[i].0, matches[i].1)]
  {
    assert matches[..i + 1][..i] == matches[..i];
  }

  /** The match loop of `_extract_chart_info`. */
  method CategoriseActions(matches: seq<(string, string)>) returns (actions: seq<string>)
    ensures actions == CategoriseAll(matches)
  {
    actions := [];
    var i := 0;
    while i < |matches|
      invariant 0 <= i <= |matches|
      invariant actions == CategoriseAll(matches[..i])
    {
      CategoriseAllSnoc(matches, i);
      actions := actions + [Categorise(matches[i].0, matches[i].1)];
      i := i + 1;
    }
    assert matches[..i] == matches;
  }

  /** `_extract_chart_info` on an already lower-cased query. */
  function ExtractSpec(table: seq<(string, string)>, query: string, resolverReply: Option<string>, matches: seq<(string, string)>): (r: Extracted)
    ensures Distinct(r.indicators) && |r.timeframes| <= 1
    ensures |r.actions| == |matches|
  {
    var mapped := MappedSymbols(table, query);
    Extracted(
      if mapped != [] then mapped else AcceptResolvedSymbol(resolverReply),
      IndicatorsIn(IndicatorKeywords, query),
      FirstTimeframe(TimeframePatterns, query),
      CategoriseAll(matches))
  }

  method ExtractChartInfo(table: seq<(string, string)>, query: string, resolverReply: Option<string>, matches: seq<(string, string)>) returns (e: Extracted)
    ensures e == ExtractSpec(table, query, resolverReply, matches)
  {
    var symbols := ScanSymbols(table, query);
    if symbols == [] {
      symbols := AcceptResolvedSymbol(resolverReply);
    }
    var indicators := ScanIndicators(IndicatorKeywords, query);
    var timeframes := ScanTimeframe(TimeframePatterns, query);
    var actions := CategoriseActions(matches);
    e := Extracted(symbols, indicators, timeframes, actions);
  }

  /** `_should_update_chart` */
  predicate ShouldUpdateChart(e: Extracted)
    ensures ShouldUpdateChart(e) <==> e != Extracted([], [], [], [])
  {
    |e.indicators| > 0 || |e.symbols| > 0 || |e.timeframes| > 0 || |e.actions| > 0
  }

  /** The table decides the symbols whenever it finds any; the resolver's reply counts only
      when it finds none. */
  lemma ResolverOnlyWhenUnmapped(table: seq<(string, string)>, query: string, reply1: Option<string>, reply2: Option<string>, matches: seq<(string, string)>)
    ensures MappedSymbols(table, query) != [] ==>
      ExtractSpec(table, query, reply1, matches).symbols == ExtractSpec(table, query, reply2, matches).symbols == MappedSymbols(table, query)
    ensures MappedSymbols(table, query) == [] ==>
      ExtractSpec(table, query, reply1, matches).symbols == AcceptResolvedSymbol(reply1)
  {
  }

  // ---- the chart configuration ----

  datatype ChartConfig = ChartConfig(symbol: string, interval: string, studies: seq<string>, chartType: string)

  /** Bitcoin, daily, no studies, candlesticks. */
  const DefaultConfig: ChartConfig := ChartConfig("BINANCE:BTCUSD", "D", [], "1")

  const StudyMap: map<string, string> := map[
    "RSI" := "STD;RSI", "MACD" := "STD;MACD", "BOLLINGER" := "STD;BB", "SMA" := "STD;SMA",
    "EMA" := "STD;EMA", "STOCHASTIC" := "STD;STOCH", "WILLIAMS" := "STD;WPR", "CCI" := "STD;CCI",
    "ATR" := "STD;ATR", "ADX" := "STD;ADX", "MFI" := "STD;MFI", "MOM" := "STD;MOM", "PPO" := "STD;PPO",
    "PVO" := "STD;PVO", "ROC" := "STD;ROC", "RVI" := "STD;RVI", "SAR" := "STD;SAR", "TRIX" := "STD;TRIX",
    "VWAP" := "STD;VWAP", "WMA" := "STD;WMA", "BBANDS" := "STD;BB", "DEMA" := "STD;DEMA",
    "TEMA" := "STD;TEMA", "VIDYA" := "STD;VIDYA", "VWMA" := "STD;VWMA"]

  const ChartTypeMap: map<string, string> := map[
    "CANDLESTICK" := "1", "LINE" := "2", "LINE CHART" := "2", "BAR" := "3", "BAR CHART" := "3",
    "AREA" := "4", "AREA CHART" := "4", "HEIKIN ASHI" := "5"]

  /** Timeframes as the configuration's interval codes. */
  const ConfigIntervals: map<string, string> := map[
    "1m" := "1", "5m" := "5", "15m" := "15", "30m" := "30", "1h" := "60", "4h" := "240",
    "1d" := "D", "1w" := "W", "1M" := "M", "3M" := "3M", "6M" := "6M", "1Y" := "12M", "yearly" := "12M"]

  /** The targets a "change" action reads as timeframes. */
  const ChangeTimeframes: seq<string> := ["1m", "5m", "15m", "30m", "1h", "4h", "1d", "1w", "1M", "3M", "6M", "1Y"]

  function IntervalFor(timeframe: string): string {
    if timeframe in ConfigIntervals then ConfigIntervals[timeframe] else "D"
  }

  /** The list without its first occurrence of `x` (`list.remove`, when present). */
  function RemoveFirst(xs: seq<string>, x: string): (r: seq<string>)
    ensures x !in xs ==> r == xs
    ensures x in xs ==> |r| == |xs| - 1
    ensures forall y | y in r :: y in xs
    ensures Distinct(xs) ==> Distinct(r) && x !in r
    decreases |xs|
  {
    if |xs| == 0 then xs
    else if xs[0] == x then
      assert Distinct(xs) ==> x !in xs[1..] by {
        if Distinct(xs) {
          assert forall j | 0 <= j < |xs[1..]| :: xs[1..][j] == xs[j + 1] != xs[0];
        }
      }
      xs[1..]
    else
      var rest := RemoveFirst(xs[1..], x);
      assert Distinct(xs) ==> xs[0] !in xs[1..] by {
        if Distinct(xs) {
          assert forall j | 0 <= j < |xs[1..]| :: xs[1..][j] == xs[j + 1] != xs[0];
        }
      }
      [xs[0]] + rest
  }

  predicate StudiesWellFormed(studies: seq<string>) {
    Distinct(studies) && forall s | s in studies :: s in StudyMap.Values
  }

  /** The action's kind and target: the first two ':'-separated parts. */
  function ActionKind(action: string): string {
    Split(action, ':')[0]
  }

  function ActionTarget(action: string): string {
    var parts := Split(action, ':');
    if |parts| > 1 then parts[1] else ""
  }

  /** One action of the interpreter: "remove" drops a study added earlier, "add" appends a
      study not yet there, "change" sets the interval or the chart type; anything else is ignored. */
  /** The chart-type key a "change" target is looked up under: as written the target
      upper-cased; corrected, with the underscores categorisation put in for spaces turned
      back into spaces first. */
  function ChartTypeKey(rev: Revision, target: string): string {
    if rev == Corrected then Upper(Replace(target, "_", " ")) else Upper(target)
  }

  function ApplyAction(rev: Revision, c: ChartConfig, action: string): (r: ChartConfig)
    ensures r.symbol == c.symbol
    ensures StudiesWellFormed(c.studies) ==> StudiesWellFormed(r.studies)
    ensures ActionKind(action) != "change" ==> r.interval == c.interval && r.chartType == c.chartType
    ensures ActionKind(action) == "remove" ==> forall s | s in r.studies :: s in c.studies
    ensures r.chartType == c.chartType
      || (ChartTypeKey(rev, ActionTarget(action)) in ChartTypeMap
          && r.chartType == ChartTypeMap[ChartTypeKey(rev, ActionTarget(action))])
    ensures ActionKind(action) == "add" && Upper(ActionTarget(action)) in StudyMap ==>
      c.studies <= r.studies && StudyMap[Upper(ActionTarget(action))] in r.studies &&
      |r.studies| <= |c.studies| + 1 && r.interval == c.interval
    ensures ActionKind(action) == "remove" && Upper(ActionTarget(action)) in StudyMap ==>
      r == c.(studies := RemoveFirst(c.studies, StudyMap[Upper(ActionTarget(action))]))
    ensures ActionKind(action) == "remove" && Upper(ActionTarget(action)) in StudyMap && Distinct(c.studies) ==>
      StudyMap[Upper(ActionTarget(action))] !in r.studies
    ensures (ActionKind(action) == "add" || ActionKind(action) == "remove") && Upper(ActionTarget(action)) !in StudyMap ==>
      r == c
    ensures ActionKind(action) == "change" && ActionTarget(action) in ChangeTimeframes ==>
      r == c.(interval := IntervalFor(ActionTarget(action)))
    ensures ActionKind(action) == "change" && ActionTarget(action) !in ChangeTimeframes ==>
      r == if ChartTypeKey(rev, ActionTarget(action)) in ChartTypeMap
           then c.(chartType := ChartTypeMap[ChartTypeKey(rev, ActionTarget(action))]) else c
    ensures ActionKind(action) !in {"add", "remove", "change"} ==> r == c
  {
    var kind := ActionKind(action);
    var target := ActionTarget(action);
    var name := Upper(target);
    if kind == "remove" then
      if name in StudyMap then c.(studies := RemoveFirst(c.studies, StudyMap[name])) else c
    else if kind == "add" then
      if name in StudyMap && StudyMap[name] !in c.studies then c.(studies := c.studies + [StudyMap[name]]) else c
    else if kind == "change" then
      if target in ChangeTimeframes then c.(interval := IntervalFor(target))
      else if ChartTypeKey(rev, target) in ChartTypeMap then c.(chartType := ChartTypeMap[ChartTypeKey(rev, target)])
      else c
    else c
  }

  /** The actions applied in order. */
  function ApplyActions(rev: Revision, c: ChartConfig, actions: seq<string>): (r: ChartConfig)
    ensures r.symbol == c.symbol
    ensures StudiesWellFormed(c.studies) ==> StudiesWellFormed(r.studies)
    decreases |actions|
  {
    if |actions| == 0 then c else ApplyAction(rev, ApplyActions(rev, c, actions[..|actions| - 1]), actions[|actions| - 1])
  }

  /** The directly named indicators' studies appended, each once. */
  function AddIndicators(studies: seq<string>, indicators: seq<string>): (r: seq<string>)
    ensures StudiesWellFormed(studies) ==> StudiesWellFormed(r)
    ensures studies <= r
    ensures forall k | 0 <= k < |indicators| && indicators[k] in StudyMap :: StudyMap[indicators[k]] in r
    ensures forall x | x in r[|studies|..] :: exists k | 0 <= k < |indicators| :: indicators[k] in StudyMap && StudyMap[indicators[k]] == x
    ensures Distinct(studies) ==> Distinct(r)
    decreases |indicators|
  {
    if |indicators| == 0 then studies
    else
      var before := AddIndicators(studies, indicators[..|indicators| - 1]);
      var last := indicators[|indicators| - 1];
      assert forall k | 0 <= k < |indicators| - 1 :: indicators[..|indicators| - 1][k] == indicators[k];
      if last in StudyMap && StudyMap[last] !in before then
        assert (before + [StudyMap[last]])[|studies|..] == before[|studies|..] + [StudyMap[last]];
        before + [StudyMap[last]]
      else before
  }

  predicate EditsStudies(actions: seq<string>) {
    exists i | 0 <= i < |actions| :: IsPrefix("add:", actions[i]) || IsPrefix("remove:", actions[i])
  }

  /** `_generate_chart_config` */
  function ConfigSpec(rev: Revision, e: Extracted): (r: ChartConfig)
    ensures r.symbol == if |e.symbols| > 0 then e.symbols[0] else DefaultConfig.symbol
    ensures StudiesWellFormed(r.studies)
    ensures |e.indicators| == 0 && |e.actions| == 0 ==> r.studies == [] && r.chartType == "1"
    ensures |e.actions| == 0 ==> r.interval == if |e.timeframes| > 0 then IntervalFor(e.timeframes[0]) else "D"
    ensures forall k | 0 <= k < |e.indicators| && e.indicators[k] in StudyMap :: StudyMap[e.indicators[k]] in r.studies
  {
    var symbol := if |e.symbols| > 0 then e.symbols[0] else DefaultConfig.symbol;
    var interval := if |e.timeframes| > 0 then IntervalFor(e.timeframes[0]) else DefaultConfig.interval;
    var base := ChartConfig(symbol, interval, [], DefaultConfig.chartType);
    if |e.indicators| == 0 && |e.actions| == 0 then base
    else
      var applied := ApplyActions(rev, base, e.actions);
      var studies := AddIndicators(applied.studies, e.indicators);
      if |studies| > 0 || |e.indicators| > 0 || EditsStudies(e.actions) then applied.(studies := studies)
      else applied.(studies := DefaultConfig.studies)
  }

  /** With nothing extracted there is no update and the configuration is the default. */
  lemma NothingExtractedMeansDefault(rev: Revision, e: Extracted)
    requires !ShouldUpdateChart(e)
    ensures ConfigSpec(rev, e) == DefaultConfig
  {
  }

  /** The action loop of `_generate_chart_config`; the study list being built is kept in
      `config.studies` here. */
  method InterpretActions(base: ChartConfig, actions: seq<string>) returns (config: ChartConfig)
    ensures config == ApplyActions(AsWritten, base, actions)
  {
    config := base;
    var i := 0;
    while i < |actions|
      invariant 0 <= i <= |actions|
      invariant config == ApplyActions(AsWritten, base, actions[..i])
    {
      assert actions[..i + 1][..i] == actions[..i];
      var kind := ActionKind(actions[i]);
      var target := ActionTarget(actions[i]);
      var name := Upper(target);
      if kind == "remove" {
        if name in StudyMap {
          config := config.(studies := RemoveFirst(config.studies, StudyMap[name]));
        }
      } else if kind == "add" {
        if name in StudyMap && StudyMap[name] !in config.studies {
          config := config.(studies := config.studies + [StudyMap[name]]);
        }
      } else if kind == "change" {
        if target in ChangeTimeframes {
          config := config.(interval := IntervalFor(target));
        } else if name in ChartTypeMap {
          config := config.(chartType := ChartTypeMap[name]);
        }
      }
      i := i + 1;
    }
    assert actions[..|actions|] == actions;
  }

  /** The indicator loop of `_generate_chart_config`. */
  method AppendIndicators(studies: seq<string>, indicators: seq<string>) returns (r: seq<string>)
    ensures r == AddIndicators(studies, indicators)
  {
    r := studies;
    var j := 0;
    while j < |indicators|
      invariant 0 <= j <= |indicators|
      invariant r == AddIndicators(studies, indicators[..j])
    {
      assert indicators[..j + 1][..j] == indicators[..j];
      if indicators[j] in StudyMap && StudyMap[indicators[j]] !in r {
        r := r + [StudyMap[indicators[j]]];
      }
      j := j + 1;
    }
    assert indicators[..|indicators|] == indicators;
  }

  /** The configuration built field by field, as the source fills its `config` dict. */
  method GenerateChartConfig(e: Extracted) returns (config: ChartConfig)
    ensures config == ConfigSpec(AsWritten, e)
  {
    config := DefaultConfig;
    if |e.symbols| > 0 {
      config := config.(symbol := e.symbols[0]);
    }
    if |e.timeframes| > 0 {
      config := config.(interval := IntervalFor(e.timeframes[0]));
    }
    if |e.indicators| > 0 || |e.actions| > 0 {
      config := InterpretActions(config, e.actions);
      var newStudies := AppendIndicators(config.studies, e.indicators);
      if |newStudies| > 0 || |e.indicators| > 0 || EditsStudies(e.actions) {
        config := config.(studies := newStudies);
      } else {
        config := config.(studies := DefaultConfig.studies);
      }
    }
  }

  /** The outcome of `analyze_query`. */
  datatype ChartAnalysisResult = ChartAnalysisResult(needsChartUpdate: bool, config: ChartConfig, extracted: Extracted)

  /** `analyze_query`: extraction on the lower-cased query, then the update decision and the
      configuration. */
  function AnalyzeSpec(rev: Revision, table: seq<(string, string)>, query: string, resolverReply: Option<string>, matches: seq<(string, string)>): (r: ChartAnalysisResult)
    ensures !r.needsChartUpdate ==> r.config == DefaultConfig
    ensures r.needsChartUpdate <==> ShouldUpdateChart(r.extracted)
    ensures StudiesWellFormed(r.config.studies)
  {
    var e := ExtractSpec(table, Lower(query), resolverReply, matches);
    if ShouldUpdateChart(e) then
      ChartAnalysisResult(true, ConfigSpec(rev, e), e)
    else
      NothingExtractedMeansDefault(rev, e);
      ChartAnalysisResult(false, ConfigSpec(rev, e), e)
  }

  method AnalyzeQuery(table: seq<(string, string)>, query: string, resolverReply: Option<string>, matches: seq<(string, string)>) returns (r: ChartAnalysisResult)
    ensures r == AnalyzeSpec(AsWritten, table, query, resolverReply, matches)
  {
    var e := ExtractChartInfo(table, Lower(query), resolverReply, matches);
    var config := GenerateChartConfig(e);
    r := ChartAnalysisResult(ShouldUpdateChart(e), config, e);
  }

  // ---- chart types named in two words ----

  /** The chart types an action can actually select: the one-word keys' codes. */
  const ReachableChartTypes: set<string> := {"1", "2", "3", "4"}

  /** An action built as `kind:rest` has that kind, and the part of `rest` before its first
      colon as its target. */
  lemma KindAndTarget(kind: string, rest: string)
    requires ':' !in kind
    ensures ActionKind(kind + [':'] + rest) == kind
    ensures ActionTarget(kind + [':'] + rest) == rest[..IndexOf(rest, ':')]
  {
    SplitSeparated(kind, rest, ':');
    SplitHeadIsPrefix(rest, ':');
  }

  /** A categorised action's target has no spaces when the action is a "change". */
  lemma CategorisedChangeUnspaced(verb: string, target: string)
    ensures var a := Categorise(verb, target);
      ActionKind(a) == "change" ==> ' ' !in ActionTarget(a)
  {
    CategoriseReadsBack(verb, target);
    var t := NormalizeTarget(target);
    var k := IndexOf(t, ':');
    assert forall c | c in t[..k] :: c in t;
  }

  lemma UpperKeepsUnspaced(s: string)
    requires ' ' !in s
    ensures ' ' !in Upper(s)
  {
    assert forall k | 0 <= k < |s| :: Upper(s)[k] == UpperChar(s[k]) && s[k] != ' ';
  }

  /** Every "change" action's target is free of spaces. */
  predicate ChangeTargetsUnspaced(actions: seq<string>) {
    forall i | 0 <= i < |actions| :: ActionKind(actions[i]) == "change" ==> ' ' !in ActionTarget(actions[i])
  }

  /** Every chart-type key with a space ("LINE CHART", "HEIKIN ASHI", ...) needs a target
      with a space, which a categorised action never has. */
  lemma {:induction false} ApplyActionsChartType(c: ChartConfig, actions: seq<string>)
    requires c.chartType in ReachableChartTypes
    requires ChangeTargetsUnspaced(actions)
    ensures ApplyActions(AsWritten, c, actions).chartType in ReachableChartTypes
    decreases |actions|
  {
    if |actions| > 0 {
      var prefix := actions[..|actions| - 1];
      assert ChangeTargetsUnspaced(prefix) by {
        assert forall i | 0 <= i < |prefix| :: prefix[i] == actions[i];
      }
      ApplyActionsChartType(c, prefix);
      var last := actions[|actions| - 1];
      if ActionKind(last) == "change" {
        UpperKeepsUnspaced(ActionTarget(last));
      }
    }
  }

  lemma ConfigChartType(e: Extracted)
    requires ChangeTargetsUnspaced(e.actions)
    ensures ConfigSpec(AsWritten, e).chartType in ReachableChartTypes
  {
    var symbol := if |e.symbols| > 0 then e.symbols[0] else DefaultConfig.symbol;
    var interval := if |e.timeframes| > 0 then IntervalFor(e.timeframes[0]) else DefaultConfig.interval;
    ApplyActionsChartType(ChartConfig(symbol, interval, [], DefaultConfig.chartType), e.actions);
  }

  /** The chart type is always one a one-word key gives ("1" to "4"): Heikin Ashi ("5"), whose
      only key has two words, is never selected. */
  lemma ChartTypeNeverTwoWords(table: seq<(string, string)>, query: string, resolverReply: Option<string>, matches: seq<(string, string)>)
    ensures AnalyzeSpec(AsWritten, table, query, resolverReply, matches).config.chartType in ReachableChartTypes
  {
    var e := ExtractSpec(table, Lower(query), resolverReply, matches);
    forall i | 0 <= i < |e.actions|
      ensures ActionKind(e.actions[i]) == "change" ==> ' ' !in ActionTarget(e.actions[i])
    {
      CategoriseAllAt(matches, i);
      CategorisedChangeUnspaced(matches[i].0, matches[i].1);
    }
    ConfigChartType(e);
  }

  /** Corrected, a "change" verb with a chart-type name selects that type, two-word names
      included: categorisation turns the name's spaces into underscores and the lookup turns
      them back. */
  lemma CorrectedChangeSelectsChartType(c: ChartConfig, verb: string, name: string)
    requires VerbGroup(verb) == "change"
    requires Upper(name) in ChartTypeMap
    requires '_' !in name && ':' !in name && !Contains(name, " bands")
    requires NormalizeTarget(name) !in ChangeTimeframes
    ensures ApplyAction(Corrected, c, Categorise(verb, name)).chartType == ChartTypeMap[Upper(name)]
  {
    var t := NormalizeTarget(name);
    assert t == Replace(name, [' '], ['_']);
    ReplaceCharKeepsOut(name, ' ', '_', ':');
    assert IndexOf(t, ':') == |t|;
    CategoriseReadsBack(verb, name);
    assert ActionTarget(Categorise(verb, name)) == t;
    ReplaceCharBack(name, ' ', '_');
    assert ChartTypeKey(Corrected, t) == Upper(name);
  }
}
