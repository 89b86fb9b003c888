/**
 * Shared vocabulary of the model: optional values, the few string operations
 * the Python code relies on (`in`, `split(...)[0]`, `lower()`), the
 * truncating `int()` conversion, and one stable sort that stands for every
 * `list.sort`, `sorted`, `sort_values` and `Array.prototype.sort` call.
 */
module Common {

  datatype Option<T> = None | Some(value: T)

  /**
   * A decoded JSON value (or a Python value read from one). Parsing is not
   * modelled: a string carries the result `float()` would give for it, None
   * when that conversion raises.
   */
  datatype Json =
    | JNull
    | JBool(b: bool)
    | JNum(n: real)
    | JText(s: string, asNumber: Option<real>)
    | JList(items: seq<Json>)
    | JObject(fields: map<string, Json>)

  /** Python truthiness. */
  predicate Truthy(v: Json)
  {
    match v
    case JNull => false
    case JBool(b) => b
    case JNum(n) => n != 0.0
    case JText(s, _) => s != ""
    case JList(items) => items != []
    case JObject(fields) => fields != map[]
  }

  /** Python `float(v)`; None where it raises TypeError or ValueError. */
  function FloatOf(v: Json): Option<real>
  {
    match v
    case JBool(b) => Some(if b then 1.0 else 0.0)
    case JNum(n) => Some(n)
    case JText(_, num) => num
    case _ => None
  }

  /** `dict.get(key, default)`. */
  function Get(m: map<string, Json>, key: string, default: Json): Json
  {
    if key in m then m[key] else default
  }

  // ---------------------------------------------------------------- strings

  predicate IsUpper(c: char) { 'A' <= c <= 'Z' }
  predicate IsLowerAscii(c: char) { 'a' <= c <= 'z' }
  predicate IsDigit(c: char) { '0' <= c <= '9' }
  predicate IsLetter(c: char) { IsUpper(c) || IsLowerAscii(c) }

  /** Characters matched by `\w` on ASCII text. */
  predicate IsWordChar(c: char) { IsLetter(c) || IsDigit(c) || c == '_' }

  function LowerChar(c: char): (r: char)
    ensures !IsUpper(r)
    ensures !IsUpper(c) ==> r == c
    ensures IsUpper(c) ==> IsLowerAscii(r)
  {
    if IsUpper(c) then (c as int + 32) as char else c
  }

  /** `str.lower()` restricted to ASCII letters. */
  function Lower(s: string): (r: string)
    ensures |r| == |s|
    ensures forall i :: 0 <= i < |s| ==> r[i] == LowerChar(s[i])
  {
    if s == [] then [] else [LowerChar(s[0])] + Lower(s[1..])
  }

  /** `sep.join(parts)`. */
  function Join(sep: string, parts: seq<string>): (r: string)
    ensures parts == [] ==> r == ""
    ensures |parts| == 1 ==> r == parts[0]
    ensures |parts| >= 2 ==> |r| >= |sep|
  {
    if parts == [] then ""
    else if |parts| == 1 then parts[0]
    else parts[0] + sep + Join(sep, parts[1..])
  }

  predicate IsPrefix(p: string, s: string) { |p| <= |s| && s[..|p|] == p }

  /** Index of the first occurrence of `t` in `s`, as Python's `s.find(t)` (None for -1). */
  function Find(s: string, t: string): (r: Option<nat>)
    ensures r.Some? ==> r.value + |t| <= |s| && s[r.value..r.value + |t|] == t
    decreases |s|
  {
    if IsPrefix(t, s) then Some(0)
    else if s == [] then None
    else match Find(s[1..], t)
      case None => None
      case Some(k) => Some(k + 1)
  }

  /** Python `t in s` for strings. */
  predicate Contains(s: string, t: string) { Find(s, t).Some? }

  lemma {:induction false} FindFirst(s: string, t: string, i: nat)
    requires i + |t| <= |s| && s[i..i + |t|] == t
    ensures Find(s, t).Some? && Find(s, t).value <= i
    decreases |s|
  {
    if IsPrefix(t, s) {
    } else {
      assert s[..|t|] == s[0..|t|];
      assert i != 0;
      assert s[1..][i - 1..i - 1 + |t|] == s[i..i + |t|];
      FindFirst(s[1..], t, i - 1);
    }
  }

  /** Python `s.split(c)[0]`: everything before the first `c`, or all of `s`. */
  function BeforeFirst(s: string, c: char): (r: string)
    ensures IsPrefix(r, s)
    ensures c !in r
    ensures |r| < |s| ==> s[|r|] == c
  {
    if s == [] then []
    else if s[0] == c then []
    else [s[0]] + BeforeFirst(s[1..], c)
  }

  lemma {:induction false} BeforeFirstNoSep(s: string, c: char)
    requires c !in s
    ensures BeforeFirst(s, c) == s
  {
    if s != [] {
      assert c !in s[1..];
      BeforeFirstNoSep(s[1..], c);
    }
  }

  /** Characters matched by `\s` on ASCII text. */
  predicate IsSpace(c: char) { c == ' ' || c == '\t' || c == '\n' || c == '\r' || c == '\U{000C}' || c == '\U{000B}' }

  /** `str.strip()` on ASCII whitespace. */
  function Strip(t: string): (r: string)
    ensures |r| <= |t|
    ensures r == [] || (!IsSpace(r[0]) && !IsSpace(r[|r| - 1]))
    decreases |t|
  {
    if t != [] && IsSpace(t[0]) then Strip(t[1..])
    else if t != [] && IsSpace(t[|t| - 1]) then Strip(t[..|t| - 1])
    else t
  }

  /** Text without surrounding whitespace is its own strip. */
  lemma StripKeeps(t: string)
    requires t == [] || (!IsSpace(t[0]) && !IsSpace(t[|t| - 1]))
    ensures Strip(t) == t
  {
  }

  /** Whitespace added at either end is stripped again. */
  lemma {:induction false} StripPadding(t: string, c: char)
    requires IsSpace(c)
    ensures Strip([c] + t) == Strip(t)
    ensures Strip(t + [c]) == Strip(t)
    decreases |t|
  {
    assert ([c] + t)[1..] == t;
    var u := t + [c];
    if t != [] && IsSpace(t[0]) {
      assert u[1..] == t[1..] + [c];
      StripPadding(t[1..], c);
    } else {
      assert u[..|u| - 1] == t;
      if t != [] && IsSpace(t[|t| - 1]) {
      } else {
        StripKeeps(t);
      }
    }
  }

  // ---------------------------------------------------------------- numbers

  function DigitValue(c: char): nat { if IsDigit(c) then c as nat - '0' as nat else 0 }

  /** The value of a string of decimal digits (`int()` of such a string). */
  function DigitsValue(t: string): nat
  {
    if t == [] then 0 else DigitsValue(t[..|t| - 1]) * 10 + DigitValue(t[|t| - 1])
  }

  /** The digits `int()` accepts after the sign: ASCII digits, with single underscores between two digits. */
  predicate IntBody(t: string)
  {
    && t != [] && IsDigit(t[0]) && IsDigit(t[|t| - 1])
    && (forall k :: 0 <= k < |t| ==> IsDigit(t[k]) || t[k] == '_')
    && (forall k :: 0 <= k < |t| - 1 ==> t[k] == '_' ==> t[k + 1] != '_')
  }

  /** `int()` of a text with no surrounding whitespace: an optional sign, then an `IntBody`. */
  function IntOfStripped(u: string): (r: Option<int>)
    ensures r.Some? <==> IntBody(u) || (u != [] && (u[0] == '+' || u[0] == '-') && IntBody(u[1..]))
  {
    if IntBody(u) then Some(DigitsValue(Filter(u, IsDigit)))
    else if u != [] && u[0] == '+' && IntBody(u[1..]) then Some(DigitsValue(Filter(u[1..], IsDigit)))
    else if u != [] && u[0] == '-' && IntBody(u[1..]) then Some(-(DigitsValue(Filter(u[1..], IsDigit)) as int))
    else None
  }

  /**
   * Python `int(t)` of a string in base 10: surrounding whitespace, an
   * optional sign, then digits with single underscores; None where it
   * raises ValueError ("3.0" and "1e2" do).
   */
  function IntOfText(t: string): (r: Option<int>)
    ensures r == IntOfStripped(Strip(t))
  {
    IntOfStripped(Strip(t))
  }

  /** Python `int(v)`: floats truncate, booleans are 0 or 1, strings parse as `IntOfText`; None where it raises. */
  function IntOf(v: Json): (r: Option<int>)
    ensures v.JNum? ==> r == Some(Trunc(v.n))
    ensures v.JBool? ==> r == Some(if v.b then 1 else 0)
    ensures v.JText? ==> r == IntOfText(v.s)
    ensures v.JNull? || v.JList? || v.JObject? ==> r.None?
  {
    match v
    case JBool(b) => Some(if b then 1 else 0)
    case JNum(n) => Some(Trunc(n))
    case JText(s, _) => IntOfText(s)
    case _ => None
  }

  /** Surrounding whitespace does not change `int()`. */
  lemma IntOfTextPadding(t: string, c: char)
    requires IsSpace(c)
    ensures IntOfText([c] + t) == IntOfText(t)
    ensures IntOfText(t + [c]) == IntOfText(t)
  {
    StripPadding(t, c);
  }

  /** A plain digit run is read digit by digit. */
  lemma IntOfDigits(t: string)
    requires t != [] && forall k :: 0 <= k < |t| ==> IsDigit(t[k])
    ensures IntOfText(t) == Some(DigitsValue(t))
  {
    StripKeeps(t);
    assert IntBody(t);
    FilterAll(t, IsDigit);
  }

  /** A sign in front of an accepted body: '+' keeps the value, '-' negates it. */
  lemma IntOfTextSign(b: string)
    requires IntBody(b)
    ensures IntOfText(b).Some?
    ensures IntOfText("+" + b) == IntOfText(b)
    ensures IntOfText("-" + b).Some? && IntOfText("-" + b).value == -IntOfText(b).value
  {
    StripKeeps(b);
    StripKeeps("+" + b);
    StripKeeps("-" + b);
    assert ("+" + b)[1..] == b;
    assert ("-" + b)[1..] == b;
  }

  /** Two digit runs joined by an underscore form an accepted body with no surrounding whitespace. */
  lemma UnderscoredBody(a: string, b: string)
    requires a != [] && forall k :: 0 <= k < |a| ==> IsDigit(a[k])
    requires b != [] && forall k :: 0 <= k < |b| ==> IsDigit(b[k])
    ensures Strip(a + "_" + b) == a + "_" + b && IntBody(a + "_" + b)
  {
    var t := a + "_" + b;
    assert t[0] == a[0] && t[|t| - 1] == b[|b| - 1];
    StripKeeps(t);
    forall k | 0 <= k < |t| ensures IsDigit(t[k]) || t[k] == '_' {
      if k < |a| { assert t[k] == a[k]; } else if k > |a| { assert t[k] == b[k - |a| - 1]; }
    }
    forall k | 0 <= k < |t| - 1 && t[k] == '_' ensures t[k + 1] != '_' {
      assert k == |a|;
      assert t[k + 1] == b[0];
    }
  }

  /** Keeping the digits of two digit runs joined by an underscore drops just the underscore. */
  lemma UnderscoredDigits(a: string, b: string)
    requires forall k :: 0 <= k < |a| ==> IsDigit(a[k])
    requires forall k :: 0 <= k < |b| ==> IsDigit(b[k])
    ensures Filter(a + "_" + b, IsDigit) == a + b
  {
    assert forall x :: x in a ==> IsDigit(x);
    assert forall x :: x in b ==> IsDigit(x);
    calc {
      Filter(a + "_" + b, IsDigit);
      == { FilterConcat(a + "_", b, IsDigit); }
      Filter(a + "_", IsDigit) + Filter(b, IsDigit);
      == { FilterConcat(a, "_", IsDigit); }
      Filter(a, IsDigit) + Filter("_", IsDigit) + Filter(b, IsDigit);
      == { FilterAll(a, IsDigit); FilterAll(b, IsDigit); assert Filter("_", IsDigit) == []; }
      a + [] + b;
      == { assert a + [] == a; }
      a + b;
    }
  }

  /** An underscore between two digit runs is dropped: `int(a + "_" + b)` reads the digits of both. */
  lemma IntOfTextUnderscore(a: string, b: string)
    requires a != [] && forall k :: 0 <= k < |a| ==> IsDigit(a[k])
    requires b != [] && forall k :: 0 <= k < |b| ==> IsDigit(b[k])
    ensures IntOfText(a + "_" + b) == Some(DigitsValue(a + b))
  {
    UnderscoredBody(a, b);
    UnderscoredDigits(a, b);
  }

  /** `int("1_0")` is 10. */
  lemma IntOfTextUnderscoreExample()
    ensures IntOfText("1_0") == Some(10)
  {
    assert "10"[..1] == "1" && "1"[..0] == "";
    assert DigitsValue("10") == 10;
    IntOfTextUnderscore("1", "0");
    assert "1" + "_" + "0" == "1_0" && "1" + "0" == "10";
  }

  /** `int()` refuses a decimal point, an exponent, a doubled, leading or trailing underscore. */
  lemma IntOfTextRefuses()
    ensures IntOfText("3.0") == None && IntOfText("1e2") == None
    ensures IntOfText("1__0") == None && IntOfText("_1") == None && IntOfText("1_") == None
  {
    StripKeeps("3.0");
    assert "3.0"[1] == '.';
    StripKeeps("1e2");
    assert "1e2"[1] == 'e';
    StripKeeps("1__0");
    assert "1__0"[1] == '_' && "1__0"[2] == '_';
    StripKeeps("_1");
    StripKeeps("1_");
    assert "1_"[1] == '_';
  }

  /** Python `int(x)` on a float: truncation toward zero. */
  function Trunc(x: real): (r: int)
    ensures x >= 0.0 ==> r >= 0 && r as real <= x < r as real + 1.0
    ensures x < 0.0 ==> r <= 0 && r as real - 1.0 < x <= r as real
  {
    if x >= 0.0 then x.Floor else -((-x).Floor)
  }

  function Abs(x: real): (r: real)
    ensures r >= 0.0 && (r == x || r == -x)
  {
    if x < 0.0 then -x else x
  }

  function Min(a: int, b: int): (r: int)
    ensures r <= a && r <= b && (r == a || r == b)
  {
    if a <= b then a else b
  }

  function Max(a: int, b: int): (r: int)
    ensures r >= a && r >= b && (r == a || r == b)
  {
    if a >= b then a else b
  }

  /** A Python float as `float(text)` can produce it: finite, infinite or NaN. */
  datatype Float = Finite(v: real) | PosInf | NegInf | NotANumber

  /** `a < b` on floats: false whenever NaN takes part. */
  predicate Less(a: Float, b: Float)
  {
    match (a, b)
    case (Finite(x), Finite(y)) => x < y
    case (NegInf, Finite(_)) => true
    case (NegInf, PosInf) => true
    case (Finite(_), PosInf) => true
    case _ => false
  }

  // ---------------------------------------------------------------- sorting

  predicate SortedBy<T>(s: seq<T>, key: T -> real)
  {
    forall i, j :: 0 <= i < j < |s| ==> key(s[i]) <= key(s[j])
  }

  /** Each key is at most the next one: the local form of `SortedBy`. */
  predicate ChainedBy<T>(s: seq<T>, key: T -> real)
  {
    forall i :: 0 <= i < |s| - 1 ==> key(s[i]) <= key(s[i + 1])
  }

  lemma {:induction false} ChainedIsSorted<T>(s: seq<T>, key: T -> real)
    requires ChainedBy(s, key)
    ensures SortedBy(s, key)
  {
    if |s| > 1 {
      ChainedIsSorted(s[1..], key);
      forall j | 0 < j < |s| ensures key(s[0]) <= key(s[j]) {
        assert key(s[0]) <= key(s[1]);
        if j > 1 { assert s[1..][0] == s[1] && s[1..][j - 1] == s[j]; }
      }
      forall i, j | 0 <= i < j < |s| ensures key(s[i]) <= key(s[j]) {
        if i > 0 { assert s[1..][i - 1] == s[i] && s[1..][j - 1] == s[j]; }
      }
    }
  }

  /** Inserts `x` in front of the first element whose key is not below `x`'s key. */
  function InsertBy<T>(x: T, s: seq<T>, key: T -> real): (r: seq<T>)
    ensures |r| == |s| + 1
    ensures multiset(r) == multiset(s) + multiset{x}
    ensures r[0] == x || (s != [] && r[0] == s[0])
  {
    if s == [] then [x]
    else if key(x) <= key(s[0]) then [x] + s
    else
      assert s == [s[0]] + s[1..];
      [s[0]] + InsertBy(x, s[1..], key)
  }

  lemma {:induction false} InsertByChained<T>(x: T, s: seq<T>, key: T -> real)
    requires ChainedBy(s, key)
    ensures ChainedBy(InsertBy(x, s, key), key)
  {
    if s != [] && key(x) > key(s[0]) {
      var rest := InsertBy(x, s[1..], key);
      InsertByChained(x, s[1..], key);
      assert key(s[0]) <= key(rest[0]) by {
        if rest[0] != x { assert rest[0] == s[1]; }
      }
      var r := InsertBy(x, s, key);
      assert r == [s[0]] + rest;
      forall i | 0 <= i < |r| - 1 ensures key(r[i]) <= key(r[i + 1]) {
        if i > 0 { assert r[i] == rest[i - 1] && r[i + 1] == rest[i]; }
      }
    }
  }

  function SortChained<T>(s: seq<T>, key: T -> real): (r: seq<T>)
    ensures |r| == |s|
    ensures multiset(r) == multiset(s)
    ensures ChainedBy(r, key)
  {
    if s == [] then []
    else
      assert s == [s[0]] + s[1..];
      var rest := SortChained(s[1..], key);
      InsertByChained(s[0], rest, key);
      InsertBy(s[0], rest, key)
  }

  /**
   * A stable sort by ascending key: elements with equal keys keep their
   * input order, as in Python's `sort`, JavaScript's `Array.prototype.sort`
   * and pandas' stable sorts.
   */
  function SortBy<T>(s: seq<T>, key: T -> real): (r: seq<T>)
    ensures |r| == |s|
    ensures multiset(r) == multiset(s)
    ensures SortedBy(r, key)
  {
    var r := SortChained(s, key);
    ChainedIsSorted(r, key);
    r
  }

  /** Sorting a sequence that is already in order returns it unchanged. */
  lemma {:induction false} SortChainedFixed<T>(s: seq<T>, key: T -> real)
    requires ChainedBy(s, key)
    ensures SortChained(s, key) == s
  {
    if s != [] {
      assert ChainedBy(s[1..], key) by {
        forall i | 0 <= i < |s[1..]| - 1 ensures key(s[1..][i]) <= key(s[1..][i + 1]) {
          assert s[1..][i] == s[i + 1] && s[1..][i + 1] == s[i + 2];
        }
      }
      SortChainedFixed(s[1..], key);
      assert s == [s[0]] + s[1..];
    }
  }

  lemma SortFixed<T>(s: seq<T>, key: T -> real)
    requires ChainedBy(s, key)
    ensures SortBy(s, key) == s
  {
    SortChainedFixed(s, key);
  }

  /** The position of the first element with the least key. */
  function FirstMinIndex<T>(s: seq<T>, key: T -> real): (r: nat)
    requires s != []
    ensures r < |s|
    ensures forall j :: 0 <= j < |s| ==> key(s[r]) <= key(s[j])
    ensures forall j :: 0 <= j < r ==> key(s[j]) > key(s[r])
  {
    if |s| == 1 then 0
    else
      var k := FirstMinIndex(s[1..], key);
      assert forall j :: 1 <= j < |s| ==> s[1..][j - 1] == s[j];
      if key(s[0]) <= key(s[1..][k]) then 0 else k + 1
  }

  lemma {:induction false} SortChainedHead<T>(s: seq<T>, key: T -> real)
    requires s != []
    ensures SortChained(s, key)[0] == s[FirstMinIndex(s, key)]
  {
    if |s| > 1 {
      SortChainedHead(s[1..], key);
      var rest := SortChained(s[1..], key);
      assert rest[0] == s[1..][FirstMinIndex(s[1..], key)];
    }
  }

  /** A stable sort puts first the earliest of the elements with the least key. */
  lemma SortByHead<T>(s: seq<T>, key: T -> real)
    requires s != []
    ensures SortBy(s, key)[0] == s[FirstMinIndex(s, key)]
  {
    SortChainedHead(s, key);
  }

  /** Python `s[:limit]`, with Python's meaning for a negative `limit`. */
  function Head<T>(s: seq<T>, limit: int): (r: seq<T>)
    ensures limit >= 0 ==> |r| == Min(limit, |s|)
    ensures limit < 0 ==> |r| == Max(|s| + limit, 0)
    ensures forall i :: 0 <= i < |r| ==> r[i] == s[i]
  {
    if limit >= 0 then s[..Min(limit, |s|)]
    else s[..Max(|s| + limit, 0)]
  }

  // ------------------------------------------------------------- filtering

  /** List comprehension `[x for x in s if keep(x)]`. */
  function Filter<T(!new)>(s: seq<T>, keep: T -> bool): (r: seq<T>)
    ensures |r| <= |s|
    ensures forall x :: x in r <==> x in s && keep(x)
  {
    if s == [] then []
    else (if keep(s[0]) then [s[0]] else []) + Filter(s[1..], keep)
  }
  /** A comprehension whose test every element passes keeps the whole list. */
  lemma {:induction false} FilterAll<T(!new)>(s: seq<T>, keep: T -> bool)
    requires forall x :: x in s ==> keep(x)
    ensures Filter(s, keep) == s
  {
    if s != [] {
      FilterAll(s[1..], keep);
      assert s == [s[0]] + s[1..];
    }
  }

  /** A comprehension over a concatenation is the concatenation of the two comprehensions. */
  lemma {:induction false} FilterConcat<T(!new)>(a: seq<T>, b: seq<T>, keep: T -> bool)
    ensures Filter(a + b, keep) == Filter(a, keep) + Filter(b, keep)
  {
    if a == [] {
      assert a + b == b;
    } else {
      assert (a + b)[0] == a[0];
      assert (a + b)[1..] == a[1..] + b;
      FilterConcat(a[1..], b, keep);
    }
  }

  /** `a` is `b` with some elements left out, the rest in their order. */
  predicate IsSubsequence<T(==)>(a: seq<T>, b: seq<T>)
    decreases |b|
  {
    a == [] || (b != [] && ((a[0] == b[0] && IsSubsequence(a[1..], b[1..])) || IsSubsequence(a, b[1..])))
  }

  lemma {:induction false} FilterIsSubsequence<T(!new)>(s: seq<T>, keep: T -> bool)
    ensures IsSubsequence(Filter(s, keep), s)
  {
    if s != [] {
      FilterIsSubsequence(s[1..], keep);
      if keep(s[0]) {
        assert Filter(s, keep) == [s[0]] + Filter(s[1..], keep);
        assert Filter(s, keep)[1..] == Filter(s[1..], keep);
      } else {
        assert Filter(s, keep) == Filter(s[1..], keep);
      }
    }
  }

  /** Two comprehensions in a row keep what passes both tests. */
  lemma {:induction false} FilterFilter<T(!new)>(s: seq<T>, p: T -> bool, q: T -> bool, both: T -> bool)
    requires forall x :: both(x) == (p(x) && q(x))
    ensures Filter(Filter(s, p), q) == Filter(s, both)
  {
    if s != [] {
      FilterFilter(s[1..], p, q, both);
      if p(s[0]) {
        assert Filter(s, p) == [s[0]] + Filter(s[1..], p);
        assert Filter(s, p)[1..] == Filter(s[1..], p);
      } else {
        assert Filter(s, p) == Filter(s[1..], p);
      }
    }
  }

  // ------------------------------------------------------------ dicts in insertion order

  function Keys<V>(d: seq<(string, V)>): (r: seq<string>)
    ensures |r| == |d|
    ensures forall i :: 0 <= i < |d| ==> r[i] == d[i].0
  {
    if d == [] then [] else [d[0].0] + Keys(d[1..])
  }

  /** `d.get(k)`: the value of the first pair with key `k`. */
  function Lookup<V>(d: seq<(string, V)>, k: string): Option<V>
  {
    if d == [] then None else if d[0].0 == k then Some(d[0].1) else Lookup(d[1..], k)
  }

  /** The keys of a real dict are pairwise distinct. */
  predicate DistinctKeys<V>(d: seq<(string, V)>)
  {
    forall i, j :: 0 <= i < j < |d| ==> d[i].0 != d[j].0
  }

  /** `d[k] = v`: an existing key keeps its place and takes the new value; a new key goes last. */
  function Put<V>(d: seq<(string, V)>, k: string, v: V): seq<(string, V)>
  {
    if d == [] then [(k, v)]
    else if d[0].0 == k then [(k, v)] + d[1..]
    else [d[0]] + Put(d[1..], k, v)
  }

  lemma {:induction false} KeysOfPut<V>(d: seq<(string, V)>, k: string, v: V)
    ensures k in Keys(d) ==> Keys(Put(d, k, v)) == Keys(d)
    ensures k !in Keys(d) ==> Keys(Put(d, k, v)) == Keys(d) + [k]
  {
    if d != [] && d[0].0 != k {
      KeysOfPut(d[1..], k, v);
      assert Keys(d) == [d[0].0] + Keys(d[1..]);
    }
  }

  lemma {:induction false} LookupPut<V>(d: seq<(string, V)>, k: string, v: V, q: string)
    ensures Lookup(Put(d, k, v), q) == if q == k then Some(v) else Lookup(d, q)
  {
    if d != [] && d[0].0 != k {
      LookupPut(d[1..], k, v, q);
    }
  }

  lemma {:induction false} LookupAbsent<V>(d: seq<(string, V)>, q: string)
    requires forall i :: 0 <= i < |d| ==> d[i].0 != q
    ensures Lookup(d, q) == None
  {
    if d != [] {
      LookupAbsent(d[1..], q);
    }
  }

  lemma {:induction false} PutKeepsDistinct<V>(d: seq<(string, V)>, k: string, v: V)
    requires DistinctKeys(d)
    ensures DistinctKeys(Put(d, k, v))
  {
    KeysOfPut(d, k, v);
    var p := Put(d, k, v);
    forall i, j | 0 <= i < j < |p| ensures p[i].0 != p[j].0 {
      assert Keys(p)[i] == p[i].0 && Keys(p)[j] == p[j].0;
      if k !in Keys(d) {
        assert j < |d| ==> Keys(d)[i] == d[i].0 && Keys(d)[j] == d[j].0;
      } else {
        assert Keys(d)[i] == d[i].0 && Keys(d)[j] == d[j].0;
      }
    }
  }

  /** In a dict with distinct keys, `d.get(k)` is the value paired with `k`. */
  lemma {:induction false} LookupIn<V>(d: seq<(string, V)>, k: string, v: V)
    requires DistinctKeys(d)
    ensures Lookup(d, k) == Some(v) <==> (k, v) in d
  {
    if d != [] {
      assert DistinctKeys(d[1..]) by {
        forall i, j | 0 <= i < j < |d[1..]| ensures d[1..][i].0 != d[1..][j].0 {
          assert d[1..][i] == d[i + 1] && d[1..][j] == d[j + 1];
        }
      }
      LookupIn(d[1..], k, v);
      if d[0].0 == k {
        forall j | 0 <= j < |d[1..]| ensures d[1..][j].0 != k {
          assert d[1..][j] == d[j + 1];
        }
      }
    }
  }
}
