/**
 * The `f2_buy_signal` package (`f2_buy_signal/__init__.py`): three basic buy
 * flags read from the last row of a symbol's prediction CSV, a lazily
 * resolved alias for each of the three ML submodules, and a reloadable copy
 * of the strategy settings file.
 *
 * Reading the CSV with pandas is the parameter `frame` (None where
 * `read_csv` raises); a cell is a number (NaN for an empty cell) or text,
 * and `float()` on text is the parameter `parse`.
 */
module F2BuySignal {
  import opened Common

  // ------------------------------------------------------------ check_signals

  /** A cell of the prediction frame. */
  datatype Value = Number(f: Float) | Text(s: string)

  type Frame = seq<map<string, Value>>

  /** `float()` on text; None where it raises ValueError. */
  type Parse = string -> Option<Float>

  datatype Flags = Flags(signal1: bool, signal2: bool, signal3: bool)

  const AllFalse := Flags(false, false, false)

  /** `bool(v)`: a number is true unless it is 0 (NaN is true), text unless it is empty. */
  predicate Truth(v: Value)
  {
    match v
    case Number(f) => f != Finite(0.0)
    case Text(s) => s != ""
  }

  /** `float(last.get(col))`: None where it raises, which includes a missing column. */
  function FloatIn(row: map<string, Value>, col: string, parse: Parse): Option<Float>
  {
    if col !in row then None
    else match row[col]
      case Number(f) => Some(f)
      case Text(s) => parse(s)
  }

  /** The three flags of one row. */
  function RowFlags(row: map<string, Value>, parse: Parse): Flags
  {
    var s1 := "buy_signal" in row && Truth(row["buy_signal"]);
    var rsi := FloatIn(row, "rsi14", parse);
    var s2 := rsi.Some? && Less(Finite(40.0), rsi.value) && Less(rsi.value, Finite(60.0));
    var e5 := FloatIn(row, "ema5", parse);
    var e20 := FloatIn(row, "ema20", parse);
    var s3 := e5.Some? && e20.Some? && Less(e20.value, e5.value);
    Flags(s1, s2, s3)
  }

  /** `check_signals`: all false for an unreadable or empty frame, else the flags of the last row. */
  function CheckSignals(frame: Option<Frame>, parse: Parse): Flags
  {
    if frame.None? || frame.value == [] then AllFalse
    else RowFlags(frame.value[|frame.value| - 1], parse)
  }

  /**
   * What each flag means: signal1 is the truthiness of buy_signal (false
   * when the column is missing); signal2 holds exactly when rsi14 converts
   * to a finite value strictly between 40 and 60; signal3 exactly when ema5
   * and ema20 both convert and ema5 is the greater (an infinity compares,
   * NaN never does).
   */
  lemma FlagsMeaning(row: map<string, Value>, parse: Parse)
    ensures var f := RowFlags(row, parse);
      (f.signal1 <==> "buy_signal" in row && Truth(row["buy_signal"]))
      && (f.signal2 <==> exists v :: FloatIn(row, "rsi14", parse) == Some(Finite(v)) && 40.0 < v < 60.0)
      && (f.signal3 ==> FloatIn(row, "ema5", parse).Some? && FloatIn(row, "ema20", parse).Some?)
      && ((FloatIn(row, "ema5", parse) == Some(NotANumber) || FloatIn(row, "ema20", parse) == Some(NotANumber)) ==> !f.signal3)
      && (forall a, b :: FloatIn(row, "ema5", parse) == Some(Finite(a)) && FloatIn(row, "ema20", parse) == Some(Finite(b)) ==>
            (f.signal3 <==> a > b))
  {
    var rsi := FloatIn(row, "rsi14", parse);
    if RowFlags(row, parse).signal2 {
      assert rsi == Some(Finite(rsi.value.v));
    }
  }

  /** A missing rsi14 or ema column leaves that flag false, whatever the rest of the row says. */
  lemma MissingColumnsAreFalse(row: map<string, Value>, parse: Parse)
    ensures "rsi14" !in row ==> !RowFlags(row, parse).signal2
    ensures "ema5" !in row || "ema20" !in row ==> !RowFlags(row, parse).signal3
    ensures "buy_signal" !in row ==> !RowFlags(row, parse).signal1
  {
  }

  /** Only the last row counts: earlier rows never change the flags. */
  lemma LastRowDecides(earlier: Frame, other: Frame, last: map<string, Value>, parse: Parse)
    ensures CheckSignals(Some(earlier + [last]), parse) == CheckSignals(Some(other + [last]), parse)
    ensures CheckSignals(Some(earlier + [last]), parse) == RowFlags(last, parse)
  {
  }

  /** `Less` is a strict order on the non-NaN floats, and NaN is comparable to nothing. */
  lemma LessIsStrict(a: Float, b: Float, c: Float)
    ensures !Less(a, a)
    ensures Less(a, b) ==> !Less(b, a)
    ensures Less(a, b) && Less(b, c) ==> Less(a, c)
    ensures a == NotANumber ==> !Less(a, b) && !Less(b, a)
  {
  }

  // ------------------------------------------------------------ __getattr__

  /** `_submodules`. */
  const Submodules: set<string> := {"01_buy_indicator", "02_ml_buy_signal", "03_buy_signal_engine"}

  /** The module an attribute name resolves to, None where `__getattr__` raises AttributeError. */
  function Target(name: string): (r: Option<string>)
    ensures r.Some? <==> name in Submodules
    ensures r.Some? ==> r.value == "f2_ml_buy_signal." + name
  {
    if name in Submodules then Some("f2_ml_buy_signal." + name) else None
  }

  /** Exactly three names resolve; everything else, including the package's other members, raises. */
  lemma OnlyThreeResolve(name: string)
    ensures Target(name).Some? <==>
      name == "01_buy_indicator" || name == "02_ml_buy_signal" || name == "03_buy_signal_engine"
  {
  }

  /**
   * The package's state: the `sys.modules` aliases `__getattr__` has
   * registered, and the global `_STRATEGY_SETTINGS`.
   */
  class Package {
    var aliases: map<string, string>
    var settings: Option<Json>

    constructor ()
      ensures aliases == map[] && settings == None
    {
      aliases := map[];
      settings := None;
    }

    /** `__getattr__`: a submodule name is imported and registered under the package's name. */
    method GetAttr(name: string) returns (r: Option<string>)
      modifies this
      ensures r == Target(name)
      ensures r.Some? ==> aliases == old(aliases)["f2_buy_signal." + name := r.value]
      ensures r.None? ==> aliases == old(aliases)
      ensures settings == old(settings)
    {
      if name in Submodules {
        var target := "f2_ml_buy_signal." + name;
        aliases := aliases["f2_buy_signal." + name := target];
        return Some(target);
      }
      return None;
    }

    /** `reload_strategy_settings`: the loaded JSON, or [] when opening or parsing the file raised. */
    method ReloadStrategySettings(loaded: Option<Json>)
      modifies this
      ensures settings == Some(Reloaded(loaded))
      ensures aliases == old(aliases)
    {
      settings := Some(Reloaded(loaded));
    }
  }

  function Reloaded(loaded: Option<Json>): (r: Json)
    ensures loaded.None? ==> r == JList([])
    ensures loaded.Some? ==> r == loaded.value
  {
    if loaded.Some? then loaded.value else JList([])
  }
}
