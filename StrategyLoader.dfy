/**
 * The strategy formula compiler of the ML pipeline: a textual formula such
 * as `EMA(20,-1) > Close and RSI(14) < 30` is rewritten by an ordered list
 * of regular-expression substitutions into a pandas expression over the
 * frame `df`, and the `and`/`or` chains of the parsed expression are folded
 * into element-wise `&`/`|` operations. Parsing the text into a syntax tree
 * and evaluating the compiled code are outside the model.
 */
module StrategyLoader {
  import opened Common
  import opened Rewrite

  // ------------------------------------------------------------------ _shift

  /** `_shift(col, shift_val)`, where `offset` is the captured group (None when it did not take part). */
  function ShiftCol(col: string, offset: Option<string>): string
  {
    if offset.None? || offset.value == [] || SignedValue(offset.value) == 0 then col
    else col + ".shift(" + AbsToString(SignedValue(offset.value)) + ")"
  }

  /** Without an offset, or with an empty one, the column is used as it is. */
  lemma ShiftNone(col: string)
    ensures ShiftCol(col, None) == col && ShiftCol(col, Some([])) == col
  {
  }

  /** An offset of zero, with or without a minus sign, leaves the column as it is. */
  lemma ShiftZero(col: string, t: string)
    requires t != [] && IsDigit(t[0]) && DigitsValue(t) == 0
    ensures ShiftCol(col, Some(t)) == col && ShiftCol(col, Some("-" + t)) == col
  {
    SignedValues(t);
  }

  /**
   * Any other offset appends the shift by its magnitude, so `-n` and `n`
   * give the same text: the sign of the offset is dropped.
   */
  lemma ShiftSign(col: string, t: string)
    requires t != [] && IsDigit(t[0]) && DigitsValue(t) > 0
    ensures ShiftCol(col, Some(t)) == ShiftCol(col, Some("-" + t)) == col + ".shift(" + NatToString(DigitsValue(t)) + ")"
  {
    SignedValues(t);
    var n := DigitsValue(t);
    AbsToStringOf(n);
    ShiftBy(col, t, n as int);
    ShiftBy(col, "-" + t, -(n as int));
  }

  /** An offset that reads as `v` shifts by the magnitude of `v`, or not at all when `v` is 0. */
  lemma ShiftBy(col: string, t: string, v: int)
    requires t != [] && SignedValue(t) == v
    ensures v == 0 ==> ShiftCol(col, Some(t)) == col
    ensures v != 0 ==> ShiftCol(col, Some(t)) == col + ".shift(" + AbsToString(v) + ")"
  {
  }

  /** A digit string reads as its value, and with a minus sign in front as the negated value. */
  lemma SignedValues(t: string)
    requires t != [] && IsDigit(t[0])
    ensures SignedValue(t) == DigitsValue(t) as int
    ensures SignedValue("-" + t) == -(DigitsValue(t) as int)
  {
    var neg := "-" + t;
    assert neg[1..] == t;
  }

  // ---------------------------------------------------------------- patterns

  /** A column reference `df['name']`. */
  function Col(name: string): string { "df['" + name + "']" }

  /** What follows the period: `)` alone, or `,\s*(-?\d+)\)` with the offset captured. */
  datatype Tail = Tail(end: nat, offset: Option<string>)

  function OffsetTail(s: string, k: nat): (r: Option<Tail>)
    requires k <= |s|
    ensures r.Some? ==> k < r.value.end <= |s|
  {
    if k < |s| && s[k] == ')' then Some(Tail(k + 1, None))
    else if k < |s| && s[k] == ',' then
      var p := k + 1 + SpaceRun(s, k + 1);
      var d := SignedRun(s, p);
      if d > 0 && p + d < |s| && s[p + d] == ')' then Some(Tail(p + d + 1, Some(s[p..p + d]))) else None
    else None
  }

  /** `Name\((\d+)(?:,\s*(-?\d+))?\)` → `_shift(df['col_P'], offset)`. */
  function IndicatorAt(name: string, col: string, s: string, i: nat): (r: Option<Match>)
    ensures r.Some? ==> At(name + "(", s, i)
  {
    if !At(name + "(", s, i) then None
    else
      var j := i + |name| + 1;
      var d := DigitRun(s, j);
      if d == 0 then None
      else match OffsetTail(s, j + d)
        case None => None
        case Some(t) => Some(Match(t.end - i, ShiftCol(Col(col + "_" + s[j..j + d]), t.offset)))
  }

  /** `Name\((\d+),(\d+)(?:,\s*(-?\d+))?\)` → `_shift(df['col_P_K'], offset)`. */
  function BandAt(name: string, col: string, s: string, i: nat): (r: Option<Match>)
    ensures r.Some? ==> At(name + "(", s, i)
  {
    if !At(name + "(", s, i) then None
    else
      var j := i + |name| + 1;
      var d1 := DigitRun(s, j);
      if d1 == 0 || j + d1 >= |s| || s[j + d1] != ',' then None
      else
        var d2 := DigitRun(s, j + d1 + 1);
        if d2 == 0 then None
        else match OffsetTail(s, j + d1 + 1 + d2)
          case None => None
          case Some(t) =>
            Some(Match(t.end - i, ShiftCol(Col(col + "_" + s[j..j + d1] + "_" + s[j + d1 + 1..j + d1 + 1 + d2]), t.offset)))
  }

  /** `Lead(\d+)\)` → `df['col_P']` (for `MA\(Vol,(\d+)\)` and `Vol\((\d+)\)`). */
  function PeriodAt(lead: string, col: string, s: string, i: nat): (r: Option<Match>)
    ensures r.Some? ==> At(lead, s, i)
  {
    if !At(lead, s, i) then None
    else
      var j := i + |lead|;
      var d := DigitRun(s, j);
      if d == 0 || j + d >= |s| || s[j + d] != ')' then None
      else Some(Match(|lead| + d + 1, Col(col + "_" + s[j..j + d])))
  }

  /** `Name\(([-]?\d+)\)` (or `\d+` when `signed` is false) → `_shift(df['col'], group)`. */
  function ShiftedAt(name: string, col: string, signed: bool, s: string, i: nat): (r: Option<Match>)
    ensures r.Some? ==> At(name + "(", s, i)
  {
    if !At(name + "(", s, i) then None
    else
      var j := i + |name| + 1;
      var d := if signed then SignedRun(s, j) else DigitRun(s, j);
      if d == 0 || j + d >= |s| || s[j + d] != ')' then None
      else Some(Match(|name| + 1 + d + 1, ShiftCol(Col(col), Some(s[j..j + d]))))
  }

  /** `Name(\d+)` → `df['col_N']`. */
  function SuffixAt(name: string, col: string, s: string, i: nat): (r: Option<Match>)
    ensures r.Some? ==> At(name, s, i)
  {
    if !At(name, s, i) then None
    else
      var d := DigitRun(s, i + |name|);
      if d == 0 then None else Some(Match(|name| + d, Col(col + "_" + s[i + |name|..i + |name| + d])))
  }

  /** One regular expression of `_convert` with the column it produces. */
  datatype Pattern =
    | Indicator(name: string, col: string)
    | Period(lead: string, col: string)
    | Band(name: string, col: string)
    | Shifted(name: string, col: string, signed: bool)
    | Suffix(name: string, col: string)

  /** The literal text every match of the pattern starts with. */
  function Lead(p: Pattern): string
  {
    match p
    case Indicator(name, _) => name + "("
    case Period(lead, _) => lead
    case Band(name, _) => name + "("
    case Shifted(name, _, _) => name + "("
    case Suffix(name, _) => name
  }

  function MatchAt(p: Pattern, s: string, i: nat): (r: Option<Match>)
    ensures r.Some? ==> At(Lead(p), s, i)
  {
    match p
    case Indicator(name, col) => IndicatorAt(name, col, s, i)
    case Period(lead, col) => PeriodAt(lead, col, s, i)
    case Band(name, col) => BandAt(name, col, s, i)
    case Shifted(name, col, signed) => ShiftedAt(name, col, signed, s, i)
    case Suffix(name, col) => SuffixAt(name, col, s, i)
  }

  function PatternMatcher(p: Pattern): Matcher { (s: string, i: nat) => MatchAt(p, s, i) }

  /** The ordered pattern list of `_convert`. */
  const Patterns: seq<Pattern> := [
    Indicator("EMA", "ema"),
    Indicator("ATR", "atr"),
    Indicator("RSI", "rsi"),
    Indicator("MFI", "mfi"),
    Period("MA(Vol,", "ma_vol"),
    Period("Vol(", "vol"),
    Band("BB_lower", "bb_lower"),
    Band("BB_upper", "bb_upper"),
    Band("BB_mid", "bb_mid"),
    Indicator("StochK", "stoch_k"),
    Indicator("StochD", "stoch_d"),
    Shifted("PSAR", "psar", false),
    Indicator("Tenkan", "tenkan"),
    Indicator("Kijun", "kijun"),
    Shifted("SpanA", "span_a", true),
    Shifted("SpanB", "span_b", true),
    Shifted("Close", "close", true),
    Shifted("Open", "open", true),
    Shifted("High", "high", true),
    Shifted("Low", "low", true)
  ]

  /** The simple names of `_convert`, replaced at word boundaries in this order. */
  const SimpleMap: seq<(string, string)> := [
    ("Close", "df['close']"),
    ("Open", "df['open']"),
    ("High", "df['high']"),
    ("Low", "df['low']"),
    ("Strength", "df['strength']"),
    ("VWAP", "df['vwap']"),
    ("MaxSpan", "df['maxspan']"),
    ("BuyQty_5m", "df['buy_qty_5m']"),
    ("SellQty_5m", "df['sell_qty_5m']"),
    ("EntryPrice", "_get_col(df, 'entry_price', df['close'])"),
    ("Entry", "_get_col(df, 'entry_price', df['close'])"),
    ("Peak", "_get_col(df, 'peak', df['close'].cummax())")
  ]

  const MaxHighPattern: Pattern := Suffix("MaxHigh", "max_high")
  const MinLowPattern: Pattern := Suffix("MinLow", "min_low")

  /** Patterns applied one after another. */
  function SubAll(ps: seq<Pattern>, s: string): string
  {
    if ps == [] then s else SubAll(ps[1..], Sub(PatternMatcher(ps[0]), s))
  }

  /** Simple names replaced one after another, each at word boundaries. */
  function SubWords(words: seq<(string, string)>, s: string): string
  {
    if words == [] then s else SubWords(words[1..], Sub(WordMatcher(words[0].0, words[0].1), s))
  }

  /** The pattern list from entry `k` on. */
  function PatternsFrom(k: nat, s: string): string
    requires k <= |Patterns|
  {
    SubAll(Patterns[k..], s)
  }

  /** The simple names from entry `k` on. */
  function NamesFrom(k: nat, s: string): string
    requires k <= |SimpleMap|
  {
    SubWords(SimpleMap[k..], s)
  }

  /** The rolling extremes, `MaxHigh` and then `MinLow`. */
  function Extremes(s: string): string
  {
    Sub(PatternMatcher(MinLowPattern), Sub(PatternMatcher(MaxHighPattern), s))
  }

  /** The text `_convert` produces. */
  function Converted(formula: string): string
  {
    Extremes(NamesFrom(0, PatternsFrom(0, formula)))
  }

  lemma PatternStep(k: nat, s: string)
    requires k < |Patterns|
    ensures PatternsFrom(k, s) == PatternsFrom(k + 1, Sub(PatternMatcher(Patterns[k]), s))
  {
    assert Patterns[k..][1..] == Patterns[k + 1..];
  }

  lemma NameStep(k: nat, s: string)
    requires k < |SimpleMap|
    ensures NamesFrom(k, s) == NamesFrom(k + 1, Sub(WordMatcher(SimpleMap[k].0, SimpleMap[k].1), s))
  {
    assert SimpleMap[k..][1..] == SimpleMap[k + 1..];
  }

  /** The pattern-list loop of `_convert`. */
  method ApplyPatterns(formula: string) returns (expr: string)
    ensures expr == PatternsFrom(0, formula)
  {
    expr := formula;
    var k := 0;
    while k < |Patterns|
      invariant 0 <= k <= |Patterns|
      invariant PatternsFrom(0, formula) == PatternsFrom(k, expr)
    {
      PatternStep(k, expr);
      expr := Sub(PatternMatcher(Patterns[k]), expr);
      k := k + 1;
    }
  }

  /** The simple-name loop of `_convert`. */
  method ApplyNames(s: string) returns (expr: string)
    ensures expr == NamesFrom(0, s)
  {
    expr := s;
    var k := 0;
    while k < |SimpleMap|
      invariant 0 <= k <= |SimpleMap|
      invariant NamesFrom(0, s) == NamesFrom(k, expr)
    {
      NameStep(k, expr);
      expr := Sub(WordMatcher(SimpleMap[k].0, SimpleMap[k].1), expr);
      k := k + 1;
    }
  }

  /** `_convert`: the pattern list, then the simple names, then the rolling extremes. */
  method Convert(formula: string) returns (expr: string)
    ensures expr == Converted(formula)
  {
    expr := ApplyPatterns(formula);
    expr := ApplyNames(expr);
    expr := Sub(PatternMatcher(MaxHighPattern), expr);
    expr := Sub(PatternMatcher(MinLowPattern), expr);
  }

  // ------------------------------------------------------------ properties

  /** A pattern whose leading text cannot occur leaves the text unchanged. */
  lemma PatternAbsent(p: Pattern, s: string, c: char)
    requires c in Lead(p) && c !in s
    ensures Sub(PatternMatcher(p), s) == s
  {
    forall i | 0 <= i < |s| ensures !Proper(PatternMatcher(p)(s, i), s, i) {
      if MatchAt(p, s, i).Some? {
        assert false;
      }
    }
    SubFromNoMatch(PatternMatcher(p), s, 0);
  }

  /** A simple name that cannot occur leaves the text unchanged. */
  lemma WordAbsent(key: string, val: string, s: string, c: char)
    requires c in key && c !in s
    ensures Sub(WordMatcher(key, val), s) == s
  {
    forall i | 0 <= i < |s| ensures !Proper(WordMatcher(key, val)(s, i), s, i) {
      if key != [] && BoundedAt(key, s, i) {
        assert false;
      }
    }
    SubFromNoMatch(WordMatcher(key, val), s, 0);
  }

  predicate NoUpper(s: string) { forall k :: 0 <= k < |s| ==> !IsUpper(s[k]) }

  lemma LeadUpper(k: nat)
    requires k < |Patterns|
    ensures Lead(Patterns[k]) != [] && IsUpper(Lead(Patterns[k])[0])
  {
  }

  lemma LeadParen(k: nat)
    requires k < |Patterns|
    ensures '(' in Lead(Patterns[k])
  {
  }

  lemma KeyUpper(k: nat)
    requires k < |SimpleMap|
    ensures SimpleMap[k].0 != [] && IsUpper(SimpleMap[k].0[0])
  {
  }

  /** A pattern whose leading text cannot occur is skipped. */
  lemma SkipPattern(k: nat, s: string, c: char)
    requires k < |Patterns| && c in Lead(Patterns[k]) && c !in s
    ensures PatternsFrom(k, s) == PatternsFrom(k + 1, s)
  {
    PatternAbsent(Patterns[k], s, c);
    PatternStep(k, s);
  }

  /** A simple name that cannot occur is skipped. */
  lemma SkipName(k: nat, s: string, c: char)
    requires k < |SimpleMap| && c in SimpleMap[k].0 && c !in s
    ensures NamesFrom(k, s) == NamesFrom(k + 1, s)
  {
    WordAbsent(SimpleMap[k].0, SimpleMap[k].1, s, c);
    NameStep(k, s);
  }

  /** Every pattern of the list needs an opening parenthesis, so a text without one passes through. */
  lemma {:induction false} ParenFree(s: string, k: nat)
    requires '(' !in s && k <= |Patterns|
    ensures PatternsFrom(k, s) == s
    decreases |Patterns| - k
  {
    if k < |Patterns| {
      LeadParen(k);
      SkipPattern(k, s, '(');
      ParenFree(s, k + 1);
    } else {
      assert Patterns[k..] == [];
    }
  }

  /** From pattern `k` on, the passes leave a text without upper-case letters alone. */
  lemma {:induction false} NoUpperPatterns(e: string, k: nat)
    requires NoUpper(e) && k <= |Patterns|
    ensures PatternsFrom(k, e) == e
    decreases |Patterns| - k
  {
    if k < |Patterns| {
      LeadUpper(k);
      SkipPattern(k, e, Lead(Patterns[k])[0]);
      NoUpperPatterns(e, k + 1);
    } else {
      assert Patterns[k..] == [];
    }
  }

  lemma {:induction false} NoUpperNames(e: string, k: nat)
    requires NoUpper(e) && k <= |SimpleMap|
    ensures NamesFrom(k, e) == e
    decreases |SimpleMap| - k
  {
    if k < |SimpleMap| {
      KeyUpper(k);
      SkipName(k, e, SimpleMap[k].0[0]);
      NoUpperNames(e, k + 1);
    } else {
      assert SimpleMap[k..] == [];
    }
  }

  lemma NoUpperExtremes(e: string)
    requires NoUpper(e)
    ensures Extremes(e) == e
  {
    PatternAbsent(MaxHighPattern, e, 'M');
    PatternAbsent(MinLowPattern, e, 'M');
  }

  /**
   * Every pattern and name starts with an upper-case letter, so a text
   * without one (in particular an already converted expression) converts
   * to itself.
   */
  lemma NoUpperConverted(e: string)
    requires NoUpper(e)
    ensures Converted(e) == e
  {
    NoUpperPatterns(e, 0);
    NoUpperNames(e, 0);
    NoUpperExtremes(e);
  }

  /** Once some stage leaves a text without upper-case letters, the rest of the conversion keeps it. */
  lemma NoUpperRest(e: string, k: nat)
    requires NoUpper(e) && k <= |Patterns|
    ensures Extremes(NamesFrom(0, PatternsFrom(k, e))) == e
  {
    NoUpperPatterns(e, k);
    NoUpperNames(e, 0);
    NoUpperExtremes(e);
  }
}
