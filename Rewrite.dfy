/**
 * Text rewriting as the formula translators use it: Python's `re.sub`
 * (leftmost, non-overlapping, left to right), `str.replace`, word
 * boundaries, digit runs, and the decimal rendering of integers.
 *
 * A regular expression is represented by a matcher: given the text and a
 * position it returns the length of the match starting there and the text
 * that replaces it. Each translator writes its patterns this way.
 */
module Rewrite {
  import opened Common

  datatype Match = Match(len: nat, text: string)

  type Matcher = (string, nat) -> Option<Match>

  /** `t` occurs in `s` at position `i`. */
  predicate At(t: string, s: string, i: nat)
  {
    i + |t| <= |s| && s[i..i + |t|] == t
  }

  /** A match that consumes at least one character and stays inside the text. */
  predicate Proper(o: Option<Match>, s: string, i: nat)
  {
    o.Some? && 0 < o.value.len && i + o.value.len <= |s|
  }

  /** `re.sub` from position `i`: each proper match is replaced, other characters are copied. */
  function SubFrom(m: Matcher, s: string, i: nat): string
    decreases |s| - i
  {
    if i >= |s| then []
    else
      var o := m(s, i);
      if Proper(o, s, i) then o.value.text + SubFrom(m, s, i + o.value.len)
      else [s[i]] + SubFrom(m, s, i + 1)
  }

  function Sub(m: Matcher, s: string): string { SubFrom(m, s, 0) }

  /** No proper match starts in positions [i, j). */
  predicate NoneBetween(m: Matcher, s: string, i: nat, j: nat)
  {
    forall k :: i <= k < j ==> !Proper(m(s, k), s, k)
  }

  /** With no match anywhere, substitution returns its input. */
  lemma {:induction false} SubFromNoMatch(m: Matcher, s: string, i: nat)
    requires i <= |s| && NoneBetween(m, s, i, |s|)
    ensures SubFrom(m, s, i) == s[i..]
    decreases |s| - i
  {
    if i < |s| {
      SubFromNoMatch(m, s, i + 1);
      StepCopies(m, s, i);
      assert s[i..] == [s[i]] + s[i + 1..];
    }
  }

  /**
   * Substitution copies the text up to the leftmost match unchanged, and
   * there the match is replaced and scanning resumes right after it.
   */
  lemma {:induction false} SubFromLeftmost(m: Matcher, s: string, i: nat, j: nat, rest: string)
    requires i <= j < |s| && Proper(m(s, j), s, j) && NoneBetween(m, s, i, j)
    requires rest == SubFrom(m, s, j)
    ensures SubFrom(m, s, i) == s[i..j] + rest
    decreases j - i
  {
    if i == j {
      assert s[i..j] == [];
    } else {
      SubFromLeftmost(m, s, i + 1, j, rest);
      StepCopies(m, s, i);
      ConsSlice(s, i, j, rest);
    }
  }

  /** Text that starts with the only occurrence of `pat` has that occurrence replaced. */
  lemma ReplaceLeading(pat: string, rest: string, rep: string)
    requires pat != [] && !Contains(rest, pat)
    ensures Replace(pat + rest, pat, rep) == rep + rest
  {
    var s := pat + rest;
    var m := LiteralMatcher(pat, rep);
    assert s[0..|pat|] == pat;
    assert m(s, 0) == Some(Match(|pat|, rep));
    StepReplaces(m, s, 0);
    forall k | |pat| <= k < |s| ensures !Proper(m(s, k), s, k) {
      if At(pat, s, k) {
        assert rest[k - |pat|..k - |pat| + |pat|] == s[k..k + |pat|];
        FindFirst(rest, pat, k - |pat|);
      }
    }
    SubFromNoMatch(m, s, |pat|);
    assert s[|pat|..] == rest;
  }

  /** The whole substitution, split at its leftmost match. */
  lemma SubAtLeftmost(m: Matcher, s: string, i: nat, t: string, rest: string)
    requires i < |s| && Proper(m(s, i), s, i)
    requires NoneBetween(m, s, 0, i)
    requires SubFrom(m, s, i) == t + rest
    ensures Sub(m, s) == s[..i] + t + rest
  {
    SubFromLeftmost(m, s, 0, i, SubFrom(m, s, i));
    assert s[0..i] == s[..i];
  }

  lemma ConsSlice(s: string, i: nat, j: nat, rest: string)
    requires i < j <= |s|
    ensures s[i..j] + rest == [s[i]] + (s[i + 1..j] + rest)
  {
    assert s[i..j] == [s[i]] + s[i + 1..j];
  }

  /** At a proper match the replacement is emitted and scanning resumes after the match. */
  lemma StepReplaces(m: Matcher, s: string, j: nat)
    requires j < |s| && Proper(m(s, j), s, j)
    ensures SubFrom(m, s, j) == m(s, j).value.text + SubFrom(m, s, j + m(s, j).value.len)
  {
  }

  lemma StepCopies(m: Matcher, s: string, i: nat)
    requires i < |s| && !Proper(m(s, i), s, i)
    ensures SubFrom(m, s, i) == [s[i]] + SubFrom(m, s, i + 1)
  {
  }

  function LiteralMatcher(pat: string, rep: string): Matcher
  {
    (s: string, i: nat) => if pat != [] && At(pat, s, i) then Some(Match(|pat|, rep)) else None
  }

  /** Python `s.replace(pat, rep)` for a non-empty `pat` (the code never passes an empty one). */
  function Replace(s: string, pat: string, rep: string): string
  {
    Sub(LiteralMatcher(pat, rep), s)
  }

  /** Replacing text that does not occur changes nothing. */
  lemma ReplaceAbsent(s: string, pat: string, rep: string)
    requires !Contains(s, pat)
    ensures Replace(s, pat, rep) == s
  {
    forall j | 0 <= j < |s| ensures !Proper(LiteralMatcher(pat, rep)(s, j), s, j) {
      if pat != [] && At(pat, s, j) {
        FindFirst(s, pat, j);
      }
    }
    SubFromNoMatch(LiteralMatcher(pat, rep), s, 0);
  }

  // ------------------------------------------------------------ scanning

  /** Length of the run of ASCII digits starting at `i` (what a greedy `\d*` takes). */
  function DigitRun(s: string, i: nat): (r: nat)
    requires i <= |s|
    ensures i + r <= |s|
    ensures forall k :: i <= k < i + r ==> IsDigit(s[k])
    ensures i + r == |s| || !IsDigit(s[i + r])
    decreases |s| - i
  {
    if i < |s| && IsDigit(s[i]) then 1 + DigitRun(s, i + 1) else 0
  }

  /** Length of the run of whitespace starting at `i` (what a greedy `\s*` takes). */
  function SpaceRun(s: string, i: nat): (r: nat)
    requires i <= |s|
    ensures i + r <= |s|
    ensures forall k :: i <= k < i + r ==> IsSpace(s[k])
    ensures i + r == |s| || !IsSpace(s[i + r])
    decreases |s| - i
  {
    if i < |s| && IsSpace(s[i]) then 1 + SpaceRun(s, i + 1) else 0
  }

  /** Length of `-?\d+` at `i`, 0 when there is none. */
  function SignedRun(s: string, i: nat): (r: nat)
    requires i <= |s|
    ensures i + r <= |s|
    ensures r > 0 ==> (IsDigit(s[i]) || (s[i] == '-' && r > 1))
  {
    if i < |s| && s[i] == '-' then
      var d := DigitRun(s, i + 1);
      if d > 0 then d + 1 else 0
    else DigitRun(s, i)
  }

  /** A non-empty run of ASCII digits, what `[0-9]+` matches. */
  predicate Digits(t: string) { t != [] && forall k :: 0 <= k < |t| ==> IsDigit(t[k]) }

  /** What `-?[0-9]+` matches. */
  predicate SignedDigits(t: string) { Digits(t) || (|t| > 1 && t[0] == '-' && Digits(t[1..])) }

  /** A greedy digit run stops exactly where the digits end. */
  lemma {:induction false} DigitRunOver(s: string, i: nat, n: nat)
    requires i + n <= |s| && forall k :: i <= k < i + n ==> IsDigit(s[k])
    requires i + n == |s| || !IsDigit(s[i + n])
    ensures DigitRun(s, i) == n
    decreases n
  {
    if n > 0 {
      DigitRunOver(s, i + 1, n - 1);
    }
  }

  /** An occurrence of `a + b` is an occurrence of `a` followed by one of `b`. */
  lemma AtSplit(a: string, b: string, s: string, i: nat)
    requires At(a + b, s, i)
    ensures At(a, s, i) && At(b, s, i + |a|)
  {
    var w := s[i..i + |a + b|];
    assert s[i..i + |a|] == w[..|a|] && (a + b)[..|a|] == a;
    assert s[i + |a|..i + |a| + |b|] == w[|a|..] && (a + b)[|a|..] == b;
  }

  lemma AtChar(c: char, s: string, i: nat)
    requires At([c], s, i)
    ensures i < |s| && s[i] == c
  {
    assert s[i..i + 1][0] == s[i];
  }

  /** `-?[0-9]+` at `i` takes exactly the signed number written there. */
  lemma SignedRunOver(s: string, i: nat, t: string)
    requires At(t, s, i) && SignedDigits(t)
    requires i + |t| == |s| || !IsDigit(s[i + |t|])
    ensures SignedRun(s, i) == |t|
  {
    forall k | 0 <= k < |t| ensures s[i + k] == t[k] {
      assert s[i..i + |t|][k] == s[i + k];
    }
    if Digits(t) {
      DigitRunOver(s, i, |t|);
    } else {
      forall k | i + 1 <= k < i + |t| ensures IsDigit(s[k]) {
        assert t[1..][k - i - 1] == t[k - i];
      }
      DigitRunOver(s, i + 1, |t| - 1);
    }
  }

  /** `key` at `i` with a word boundary on both sides (`\bkey\b` for a key made of word characters). */
  predicate BoundedAt(key: string, s: string, i: nat)
  {
    && At(key, s, i)
    && (i == 0 || !IsWordChar(s[i - 1]))
    && (i + |key| == |s| || !IsWordChar(s[i + |key|]))
  }

  function WordMatcher(key: string, rep: string): Matcher
  {
    (s: string, i: nat) => if key != [] && BoundedAt(key, s, i) then Some(Match(|key|, rep)) else None
  }

  // ------------------------------------------------------------- numbers

  /** `int(t)` for a string `-?\d+`. */
  function SignedValue(t: string): int
  {
    if t != [] && t[0] == '-' then -(DigitsValue(t[1..]) as int) else DigitsValue(t)
  }

  /** `str(n)` for a natural number: decimal digits without leading zeros. */
  function NatToString(n: nat): (r: string)
    ensures r != []
    ensures forall k :: 0 <= k < |r| ==> IsDigit(r[k])
    ensures n > 0 ==> r[0] != '0'
  {
    if n < 10 then ["0123456789"[n]]
    else NatToString(n / 10) + ["0123456789"[n % 10]]
  }

  /** Reading back a rendered number gives the number. */
  lemma {:induction false} NatToStringRoundTrip(n: nat)
    ensures DigitsValue(NatToString(n)) == n
  {
    var r := NatToString(n);
    if n >= 10 {
      NatToStringRoundTrip(n / 10);
      assert r[..|r| - 1] == NatToString(n / 10);
    }
  }

  /** `int()` reads a plain digit run, signed or not, as `SignedValue` does, and reads back a rendered number. */
  lemma SignedDigitsAreInts(t: string, n: nat)
    ensures SignedDigits(t) ==> IntOfText(t) == Some(SignedValue(t))
    ensures IntOfText(NatToString(n)) == Some(n)
  {
    if Digits(t) {
      IntOfDigits(t);
    } else if SignedDigits(t) {
      var b := t[1..];
      assert t == "-" + b;
      IntOfDigits(b);
      assert IntBody(b);
      IntOfTextSign(b);
    }
    IntOfDigits(NatToString(n));
    NatToStringRoundTrip(n);
  }

  /** The rendering of an integer's magnitude, `str(abs(v))`. */
  function AbsToString(v: int): string
  {
    if v < 0 then NatToString(-v) else NatToString(v)
  }

  /** A number and its negation render the same magnitude. */
  lemma AbsToStringOf(n: nat)
    ensures AbsToString(n) == NatToString(n) && AbsToString(-(n as int)) == NatToString(n)
  {
  }
}
