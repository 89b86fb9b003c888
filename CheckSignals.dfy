/**
 * `f2_buy_signal/check_signals.py`: the three ML signal flags read from the
 * last row of a symbol's prediction CSV with `csv.DictReader`.
 *
 * Opening and reading the file is the parameter `file`: `Unreadable`
 * where opening it or reading any row raises, else the rows in order, each
 * a dictionary from column to text (None where a short row leaves a column
 * without a value). `float()` on text is the parameter `parse`.
 */
module CheckSignals {
  import opened Common
  import F2BuySignal

  datatype File = Unreadable | Rows(rows: seq<map<string, Option<string>>>)

  /**
   * `_to_bool`: `bool(int(float(value)))`, and `bool(value)` where that
   * raises — for None (false), text that is not a number, and the
   * infinities and NaN, which `int()` refuses.
   */
  function ToBool(value: Option<string>, parse: F2BuySignal.Parse): bool
  {
    match value
    case None => false
    case Some(s) =>
      match parse(s)
      case Some(Finite(x)) => Trunc(x) != 0
      case _ => s != ""
  }

  /**
   * A finite number is true exactly when its magnitude reaches 1: the
   * conversion truncates toward zero, so 0.5 and -0.9 are false.
   */
  lemma ToBoolTruncates(s: string, x: real, parse: F2BuySignal.Parse)
    requires parse(s) == Some(Finite(x))
    ensures ToBool(Some(s), parse) <==> (x >= 1.0 || x <= -1.0)
  {
  }

  /** Text that is not a number, or an infinity or NaN, is true when non-empty; a missing value is false. */
  lemma ToBoolFallsBack(s: string, parse: F2BuySignal.Parse)
    requires parse(s).None? || !parse(s).value.Finite?
    ensures ToBool(Some(s), parse) <==> s != ""
    ensures !ToBool(None, parse)
  {
  }

  /** `"0.5"` reads as false. */
  lemma HalfIsFalse(parse: F2BuySignal.Parse)
    requires parse("0.5") == Some(Finite(0.5))
    ensures !ToBool(Some("0.5"), parse)
  {
    ToBoolTruncates("0.5", 0.5, parse);
  }

  function ValueOf(row: map<string, Option<string>>, col: string): Option<string>
  {
    if col in row then row[col] else None
  }

  function RowFlags(row: map<string, Option<string>>, parse: F2BuySignal.Parse): F2BuySignal.Flags
  {
    F2BuySignal.Flags(ToBool(ValueOf(row, "signal1"), parse),
                      ToBool(ValueOf(row, "signal2"), parse),
                      ToBool(ValueOf(row, "signal3"), parse))
  }

  /** `check_signals`: all false for an unreadable file, no rows or an empty last row; else the last row's flags. */
  function CheckSignals(file: File, parse: F2BuySignal.Parse): F2BuySignal.Flags
  {
    if file.Unreadable? || file.rows == [] || file.rows[|file.rows| - 1] == map[] then F2BuySignal.AllFalse
    else RowFlags(file.rows[|file.rows| - 1], parse)
  }

  /** The returned dictionary: exactly the keys signal1, signal2 and signal3, each holding its flag. */
  function AsDict(f: F2BuySignal.Flags): (r: map<string, bool>)
    ensures r.Keys == {"signal1", "signal2", "signal3"}
    ensures F2BuySignal.Flags(r["signal1"], r["signal2"], r["signal3"]) == f
  {
    map["signal1" := f.signal1, "signal2" := f.signal2, "signal3" := f.signal3]
  }

  /** The loop over the reader, keeping the last row. */
  method RunCheckSignals(file: File, parse: F2BuySignal.Parse) returns (r: F2BuySignal.Flags)
    ensures r == CheckSignals(file, parse)
  {
    if file.Unreadable? {
      return F2BuySignal.AllFalse;
    }
    var last: Option<map<string, Option<string>>> := None;
    var i := 0;
    while i < |file.rows|
      invariant 0 <= i <= |file.rows|
      invariant i == 0 <==> last.None?
      invariant i > 0 ==> last == Some(file.rows[i - 1])
    {
      last := Some(file.rows[i]);
      i := i + 1;
    }
    if last.None? || last.value == map[] {
      return F2BuySignal.AllFalse;
    }
    r := RowFlags(last.value, parse);
  }

  /** Only the last row decides; rows before it never matter. */
  lemma LastRowDecides(earlier: seq<map<string, Option<string>>>, last: map<string, Option<string>>, parse: F2BuySignal.Parse)
    requires last != map[]
    ensures CheckSignals(Rows(earlier + [last]), parse) == RowFlags(last, parse)
  {
  }

  /** A file that cannot be read, or holds no rows, gives three false flags. */
  lemma UnusableFileIsAllFalse(parse: F2BuySignal.Parse)
    ensures CheckSignals(Unreadable, parse) == F2BuySignal.AllFalse
    ensures CheckSignals(Rows([]), parse) == F2BuySignal.AllFalse
    ensures AsDict(F2BuySignal.AllFalse) == map["signal1" := false, "signal2" := false, "signal3" := false]
  {
  }

  /**
   * The package's test: two rows, the later one `1, 0, 1`, read as
   * signal1 and signal3 true and signal2 false.
   */
  lemma LatestRowExample(parse: F2BuySignal.Parse)
    requires parse("0") == Some(Finite(0.0)) && parse("1") == Some(Finite(1.0))
    ensures var t1 := map["timestamp" := Some("t1"), "signal1" := Some("0"), "signal2" := Some("0"), "signal3" := Some("1")];
      var t2 := map["timestamp" := Some("t2"), "signal1" := Some("1"), "signal2" := Some("0"), "signal3" := Some("1")];
      CheckSignals(Rows([t1, t2]), parse) == F2BuySignal.Flags(true, false, true)
  {
    var t1 := map["timestamp" := Some("t1"), "signal1" := Some("0"), "signal2" := Some("0"), "signal3" := Some("1")];
    var t2 := map["timestamp" := Some("t2"), "signal1" := Some("1"), "signal2" := Some("0"), "signal3" := Some("1")];
    assert "timestamp" in t2;
    assert ValueOf(t2, "signal1") == Some("1");
    assert ValueOf(t2, "signal2") == Some("0");
    assert ValueOf(t2, "signal3") == Some("1");
    assert [t1, t2][1] == t2;
  }
}
