/**
 * The text rewriting both `eval_formula` helpers share: the normalisation
 * of two moving averages, the `Field(offset)` pass over the five base
 * fields, the literal replacement of the base names and the comparison
 * symbols, and the finditer scan. Values are rendered into the expression
 * by `show`, Python's `str(float(x))` for a finite float, which is a
 * parameter; the final `eval` is a parameter too.
 */
module Formulas {
  import opened Common
  import opened Rewrite

  /** A cell of a pandas row: a number or NaN. */
  datatype Cell = Num(v: real) | NaN

  type Row = map<string, Cell>

  /** `str(float(x))` for a finite `x`. */
  type Show = real -> string

  /** `eval(expr)` reduced to its truthiness; None where it raises. */
  type Evaluate = string -> Option<bool>

  /** The characters `str(float(x))` is made of. */
  predicate NumericChar(c: char) { IsDigit(c) || c == '+' || c == '-' || c == '.' || c == 'e' || c == 'i' || c == 'n' || c == 'f' || c == 'a' }

  ghost predicate ShowsNumbers(show: Show)
  {
    forall x: real, i :: 0 <= i < |show(x)| ==> NumericChar(show(x)[i])
  }

  /** `str(float(v))` of a cell; float NaN renders as "nan". */
  function CellText(c: Cell, show: Show): string { if c.NaN? then "nan" else show(c.v) }

  /** `str(float(data_row.get(col, 0)))`. */
  function GetText(row: Row, col: string, show: Show): string
  {
    if col in row then CellText(row[col], show) else show(0.0)
  }

  /** The two moving averages written as calls become column names. */
  function Normalise(formula: string): string
  {
    Replace(Replace(formula, "MA(Vol,20)", "Vol_MA20"), "MA(ATR(14),20)", "ATR_14_MA20")
  }

  /** The `base_fields` dict, in its order. */
  const BaseFields: seq<(string, string)> :=
    [("Close", "close"), ("Open", "open"), ("High", "high"), ("Low", "low"), ("Vol", "volume")]

  /** The length of the offset of `fld\((-?[0-9]+)\)` matched at `i`. */
  function BaseOffsetAt(fld: string, s: string, i: nat): (r: Option<nat>)
    ensures r.Some? ==> 0 < r.value && i + |fld| + 2 + r.value <= |s|
  {
    if At(fld + "(", s, i) then
      var j := i + |fld| + 1;
      var n := SignedRun(s, j);
      if n > 0 && j + n < |s| && s[j + n] == ')' then Some(n) else None
    else None
  }

  /** `re.sub(fld\((-?[0-9]+)\), repl, expr)`, where `rep` renders the replacement from the offset text. */
  function BaseMatch(fld: string, rep: string -> string, s: string, i: nat): Option<Match>
  {
    match BaseOffsetAt(fld, s, i)
    case None => None
    case Some(n) => Some(Match(|fld| + 2 + n, rep(s[i + |fld| + 1..i + |fld| + 1 + n])))
  }

  function BaseMatcher(fld: string, rep: string -> string): Matcher
  {
    (s: string, i: nat) => BaseMatch(fld, rep, s, i)
  }

  /** The base-field pass: one `re.sub` per field, in `base_fields` order; `rep(col)` renders an offset of that column. */
  function BasePass(expr: string, fields: seq<(string, string)>, rep: string -> string -> string): string
    decreases |fields|
  {
    if fields == [] then expr
    else BasePass(Sub(BaseMatcher(fields[0].0, rep(fields[0].1)), expr), fields[1..], rep)
  }

  /** `data_row[col]` for the five base columns raises KeyError when one is missing. */
  predicate HasBaseColumns(row: Row)
  {
    "close" in row && "open" in row && "high" in row && "low" in row && "volume" in row
  }

  /** The first five entries of `replacements`, current values of the base fields. */
  function BaseReplacements(row: Row, show: Show): seq<(string, string)>
    requires HasBaseColumns(row)
  {
    [("Close", CellText(row["close"], show)), ("Open", CellText(row["open"], show)),
     ("High", CellText(row["high"], show)), ("Low", CellText(row["low"], show)),
     ("Vol", CellText(row["volume"], show))]
  }

  /** `expr = expr.replace(name, text)` for each entry in order. */
  function ReplaceAll(expr: string, pairs: seq<(string, string)>): string
    decreases |pairs|
  {
    if pairs == [] then expr else ReplaceAll(Replace(expr, pairs[0].0, pairs[0].1), pairs[1..])
  }

  /** `×`, `≤` and `≥` become Python operators. */
  function Symbols(expr: string): string
  {
    Replace(Replace(Replace(expr, "×", "*"), "≤", "<="), "≥", ">=")
  }

  /** `eval` inside `try`: the truthiness of the result, False where it raises. */
  function Truth(evaluate: Evaluate, expr: string): bool
  {
    evaluate(expr) == Some(true)
  }

  /** Some character of `t` does not occur in `s`. */
  predicate HasCharOutside(t: string, s: string)
  {
    t != [] && (t[0] !in s || HasCharOutside(t[1..], s))
  }

  /** Every name in `names` has a character that does not occur in `s`. */
  predicate AllOutside(names: seq<string>, s: string)
  {
    names == [] || (HasCharOutside(names[0], s) && AllOutside(names[1..], s))
  }

  /** Every name starts with an upper-case letter. */
  predicate UpperInitials(names: seq<string>)
  {
    forall k :: 0 <= k < |names| ==> names[k] != [] && IsUpper(names[k][0])
  }

  ghost predicate NoUpper(s: string) { forall k :: 0 <= k < |s| ==> !IsUpper(s[k]) }

  // ------------------------------------------------------------ facts about the passes

  /** A string that does not contain some character of `t` does not contain `t`. */
  lemma CharOfContained(s: string, t: string, c: char)
    requires c in t
    ensures Contains(s, t) ==> c in s
  {
    if Contains(s, t) {
      var k := Find(s, t).value;
      var j :| 0 <= j < |t| && t[j] == c;
      assert s[k..k + |t|][j] == s[k + j];
    }
  }

  lemma AbsentByChar(s: string, t: string, c: char)
    requires c in t && c !in s
    ensures !Contains(s, t)
  {
    CharOfContained(s, t, c);
  }

  /** Where `fld(off)` occurs, the matcher replaces it by the rendering of `off`. */
  lemma BaseMatchAt(fld: string, rep: string -> string, s: string, i: nat, n: nat)
    requires i < |s| && BaseOffsetAt(fld, s, i) == Some(n)
    ensures BaseMatcher(fld, rep)(s, i) == Some(Match(|fld| + 2 + n, rep(s[i + |fld| + 1..i + |fld| + 1 + n])))
    ensures Proper(BaseMatcher(fld, rep)(s, i), s, i)
  {
  }

  lemma BaseStep(fld: string, rep: string -> string, s: string, i: nat, n: nat)
    requires i < |s| && BaseOffsetAt(fld, s, i) == Some(n)
    ensures SubFrom(BaseMatcher(fld, rep), s, i)
      == rep(s[i + |fld| + 1..i + |fld| + 1 + n]) + SubFrom(BaseMatcher(fld, rep), s, i + |fld| + 2 + n)
  {
    BaseMatchAt(fld, rep, s, i, n);
    StepReplaces(BaseMatcher(fld, rep), s, i);
  }

  /**
   * At the leftmost `fld(off)` of the text, the base pass for that field
   * emits the text before it unchanged and then the rendering of `off`.
   */
  lemma BaseLeftmost(fld: string, rep: string -> string, s: string, i: nat, n: nat)
    requires i < |s| && BaseOffsetAt(fld, s, i) == Some(n)
    requires NoneBetween(BaseMatcher(fld, rep), s, 0, i)
    ensures Sub(BaseMatcher(fld, rep), s)
      == s[..i] + rep(s[i + |fld| + 1..i + |fld| + 1 + n]) + SubFrom(BaseMatcher(fld, rep), s, i + |fld| + 2 + n)
  {
    BaseMatchAt(fld, rep, s, i, n);
    BaseStep(fld, rep, s, i, n);
    SubAtLeftmost(BaseMatcher(fld, rep), s, i, rep(s[i + |fld| + 1..i + |fld| + 1 + n]),
      SubFrom(BaseMatcher(fld, rep), s, i + |fld| + 2 + n));
  }

  /** A field whose opening `fld(` does not occur is left alone by its pass. */
  lemma BaseAbsent(fld: string, rep: string -> string, s: string)
    requires !Contains(s, fld + "(")
    ensures Sub(BaseMatcher(fld, rep), s) == s
  {
    forall k | 0 <= k < |s| ensures !Proper(BaseMatcher(fld, rep)(s, k), s, k) {
      if At(fld + "(", s, k) {
        FindFirst(s, fld + "(", k);
      }
    }
    SubFromNoMatch(BaseMatcher(fld, rep), s, 0);
  }

  lemma {:induction false} OutsideAbsent(t: string, s: string)
    requires HasCharOutside(t, s)
    ensures !Contains(s, t)
    decreases |t|
  {
    if t[0] !in s {
      AbsentByChar(s, t, t[0]);
    } else {
      OutsideAbsent(t[1..], s);
      if Contains(s, t) {
        var k := Find(s, t).value;
        assert s[k + 1..k + 1 + |t[1..]|] == t[1..];
        FindFirst(s, t[1..], k + 1);
      }
    }
  }

  /** Names each having a character missing from `s` do not occur in `s`. */
  lemma {:induction false} AllOutsideAbsent(names: seq<string>, s: string)
    requires AllOutside(names, s)
    ensures forall k :: 0 <= k < |names| ==> !Contains(s, names[k])
    decreases |names|
  {
    if names != [] {
      OutsideAbsent(names[0], s);
      AllOutsideAbsent(names[1..], s);
      assert forall k :: 1 <= k < |names| ==> names[k] == names[1..][k - 1];
    }
  }

  /** Text without capitals contains no name with a capital initial. */
  lemma NoUpperAbsent(names: seq<string>, s: string)
    requires UpperInitials(names) && NoUpper(s)
    ensures forall k :: 0 <= k < |names| ==> !Contains(s, names[k])
  {
    forall k | 0 <= k < |names| ensures !Contains(s, names[k]) {
      AbsentByChar(s, names[k], names[k][0]);
    }
  }

  /** A rendered number holds no capital letter. */
  lemma ShownNoUpper(show: Show, x: real, tail: string)
    requires ShowsNumbers(show) && NoUpper(tail)
    ensures NoUpper(show(x) + tail)
  {
    forall k | 0 <= k < |show(x) + tail| ensures !IsUpper((show(x) + tail)[k]) {
      if k < |show(x)| {
        assert NumericChar(show(x)[k]);
      } else {
        assert (show(x) + tail)[k] == tail[k - |show(x)|];
      }
    }
  }

  /** `fld(o)` with `o` a signed integer is read with offset text `o`. */
  lemma BaseReadsOffset(fld: string, s: string, i: nat, o: string)
    requires At(fld + "(" + o + ")", s, i) && SignedDigits(o)
    ensures BaseOffsetAt(fld, s, i) == Some(|o|)
    ensures s[i + |fld| + 1..i + |fld| + 1 + |o|] == o
  {
    BasePieces(fld, s, i, o);
    BaseReadsPieces(fld, s, i, o);
  }

  /** The pieces of `fld(o)` as it occurs at `i`. */
  lemma BasePieces(fld: string, s: string, i: nat, o: string)
    requires At(fld + "(" + o + ")", s, i)
    ensures At(fld + "(", s, i) && At(o, s, i + |fld| + 1)
    ensures i + |fld| + 1 + |o| < |s| && s[i + |fld| + 1 + |o|] == ')'
  {
    var a := fld + "(";
    assert |a| == |fld| + 1 && |a + o| == |fld| + 1 + |o|;
    AtSplit(a + o, ")", s, i);
    AtSplit(a, o, s, i);
    AtChar(')', s, i + |fld| + 1 + |o|);
  }

  lemma BaseReadsPieces(fld: string, s: string, i: nat, o: string)
    requires At(fld + "(", s, i) && At(o, s, i + |fld| + 1) && SignedDigits(o)
    requires i + |fld| + 1 + |o| < |s| && s[i + |fld| + 1 + |o|] == ')'
    ensures BaseOffsetAt(fld, s, i) == Some(|o|)
  {
    SignedRunOver(s, i + |fld| + 1, o);
    BaseOffsetOf(fld, s, i, |o|);
  }

  lemma BaseOffsetOf(fld: string, s: string, i: nat, n: nat)
    requires At(fld + "(", s, i) && i + |fld| + 1 + n < |s|
    requires 0 < n == SignedRun(s, i + |fld| + 1) && s[i + |fld| + 1 + n] == ')'
    ensures BaseOffsetAt(fld, s, i) == Some(n)
  {
  }

  /** At the leftmost `fld(o)`, the base pass emits the rendering of `o`; `n` is the length of `o`. */
  lemma BaseLeftmostText(fld: string, rep: string -> string, s: string, i: nat, o: string, n: nat)
    requires n == |o|
    requires i < |s| && BaseOffsetAt(fld, s, i) == Some(n) && s[i + |fld| + 1..i + |fld| + 1 + n] == o
    requires NoneBetween(BaseMatcher(fld, rep), s, 0, i)
    ensures Sub(BaseMatcher(fld, rep), s) == s[..i] + rep(o) + SubFrom(BaseMatcher(fld, rep), s, i + |fld| + 2 + n)
  {
    BaseLeftmost(fld, rep, s, i, n);
  }

  /** Where `fld(o)` occurs and `rep` renders `o` as `v`, the pass emits `v`; `n` is the length of `o`. */
  lemma BaseStepText(fld: string, rep: string -> string, s: string, i: nat, o: string, n: nat, v: string)
    requires n == |o|
    requires i < |s| && BaseOffsetAt(fld, s, i) == Some(n) && s[i + |fld| + 1..i + |fld| + 1 + n] == o
    requires rep(o) == v
    ensures SubFrom(BaseMatcher(fld, rep), s, i) == v + SubFrom(BaseMatcher(fld, rep), s, i + |fld| + 2 + n)
  {
    BaseStep(fld, rep, s, i, n);
  }

  /** Wherever the base pass meets `fld(o)` with a signed integer `o`, it emits `rep(o)`. */
  lemma BaseReadsRep(fld: string, rep: string -> string, s: string, i: nat, o: string)
    requires i < |s| && At(fld + "(" + o + ")", s, i) && SignedDigits(o)
    ensures SubFrom(BaseMatcher(fld, rep), s, i) == rep(o) + SubFrom(BaseMatcher(fld, rep), s, i + |fld| + 2 + |o|)
  {
    BaseReadsOffset(fld, s, i, o);
    BaseStepText(fld, rep, s, i, o, |o|, rep(o));
  }

  /** Replacing names none of which occurs changes nothing. */
  lemma {:induction false} ReplaceAllAbsent(expr: string, pairs: seq<(string, string)>)
    requires forall k :: 0 <= k < |pairs| ==> !Contains(expr, pairs[k].0)
    ensures ReplaceAll(expr, pairs) == expr
    decreases |pairs|
  {
    if pairs != [] {
      ReplaceAbsent(expr, pairs[0].0, pairs[0].1);
      assert forall k :: 0 <= k < |pairs[1..]| ==> pairs[1..][k] == pairs[k + 1];
      ReplaceAllAbsent(expr, pairs[1..]);
    }
  }
}
