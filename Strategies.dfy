/**
 * The formula-based signal helpers: strategy formulas (from the strategy
 * master file) are picked by risk level, their indicator tokens are turned
 * into variable names, the parsed expression is checked to hold no call and
 * no unknown name, and only then evaluated against the market data.
 *
 * Python's parser and `eval` are abstract: `Parser` maps a text to its syntax
 * tree (None for a syntax error) and `Evaluator` gives the truthiness of a
 * checked tree (None for a runtime error).
 */
module Strategies {
  import opened Common

  // ------------------------------------------------------------ names

  /** The characters `_sanitize` keeps, after lower-casing. */
  predicate IsSafeChar(c: char) { IsLowerAscii(c) || IsDigit(c) || c == '_' }

  predicate IsSafeName(s: string) { forall i :: 0 <= i < |s| ==> IsSafeChar(s[i]) }

  /** `re.sub(r"[^a-zA-Z0-9_]", "", token)`. */
  function KeepWordChars(s: string): (r: string)
    ensures forall i :: 0 <= i < |r| ==> IsWordChar(r[i])
    ensures (forall i :: 0 <= i < |s| ==> IsWordChar(s[i])) ==> r == s
  {
    if s == [] then []
    else (if IsWordChar(s[0]) then [s[0]] else []) + KeepWordChars(s[1..])
  }

  /** `_sanitize`: drop every character outside [a-zA-Z0-9_], then lower-case. */
  function Sanitize(token: string): (r: string)
    ensures IsSafeName(r)
  {
    var kept := KeepWordChars(token);
    var r := Lower(kept);
    assert forall i :: 0 <= i < |r| ==> IsSafeChar(r[i]) by {
      forall i | 0 <= i < |r| ensures IsSafeChar(r[i]) {
        assert IsWordChar(kept[i]);
      }
    }
    r
  }

  /** A name that is already safe is left as it is. */
  lemma SanitizeKeepsSafe(s: string)
    requires IsSafeName(s)
    ensures Sanitize(s) == s
  {
    assert forall i :: 0 <= i < |s| ==> IsWordChar(s[i]);
    assert KeepWordChars(s) == s;
    assert forall i :: 0 <= i < |s| ==> LowerChar(s[i]) == s[i];
  }

  /** `_sanitize` is idempotent. */
  lemma SanitizeIdempotent(token: string)
    ensures Sanitize(Sanitize(token)) == Sanitize(token)
  {
    SanitizeKeepsSafe(Sanitize(token));
  }

  // ------------------------------------------------------------ _translate_formula

  /** The continuation class `[A-Za-z0-9_%(),-]` of the token pattern. */
  predicate IsTokenChar(c: char) { IsWordChar(c) || c == '%' || c == '(' || c == ')' || c == ',' || c == '-' }

  const Keywords: set<string> := {"and", "or", "not", "True", "False"}

  /** The end of the greedy run of token characters starting at `i`. */
  function TokenEnd(s: string, i: nat): (j: nat)
    requires i <= |s|
    ensures i <= j <= |s|
    decreases |s| - i
  {
    if i == |s| || !IsTokenChar(s[i]) then i else TokenEnd(s, i + 1)
  }

  /** The replacement of one matched token. */
  function Render(token: string): string
  {
    if token in Keywords then token else Sanitize(token)
  }

  /**
   * `re.sub` with the replacement `render`, scanning from the left: a letter
   * starts a token, which runs greedily over token characters; any other
   * character is copied.
   */
  function Substitute(s: string, render: string -> string): string
    decreases |s|
  {
    if s == [] then ""
    else if IsLetter(s[0]) then
      var j := TokenEnd(s, 1);
      render(s[..j]) + Substitute(s[j..], render)
    else [s[0]] + Substitute(s[1..], render)
  }

  /** `_translate_formula`. */
  function Translate(expr: string): string
  {
    Substitute(expr, Render)
  }

  /** A whole token: a letter followed by token characters. */
  predicate IsToken(w: string)
  {
    |w| > 0 && IsLetter(w[0]) && forall k :: 0 <= k < |w| ==> IsTokenChar(w[k])
  }

  lemma {:induction false} TokenEndAll(s: string, i: nat)
    requires i <= |s|
    requires forall k :: i <= k < |s| ==> IsTokenChar(s[k])
    ensures TokenEnd(s, i) == |s|
    decreases |s| - i
  {
    if i < |s| {
      TokenEndAll(s, i + 1);
    }
  }

  /** A single token reads as itself when it is a keyword and as its sanitized name otherwise. */
  lemma TranslateToken(w: string)
    requires IsToken(w)
    ensures Translate(w) == Render(w)
  {
    TokenEndAll(w, 1);
    assert w[..|w|] == w;
    assert w[|w|..] == [];
    assert Substitute(w, Render) == Render(w[..TokenEnd(w, 1)]) + Substitute(w[TokenEnd(w, 1)..], Render);
  }

  /** Text without letters passes through unchanged. */
  lemma {:induction false} NoLetterUnchanged(s: string, render: string -> string)
    requires forall k :: 0 <= k < |s| ==> !IsLetter(s[k])
    ensures Substitute(s, render) == s
    decreases |s|
  {
    if s != [] {
      NoLetterUnchanged(s[1..], render);
    }
  }

  /** A space ends every token, so runs inside `t` stop before it. */
  lemma {:induction false} TokenEndBeforeSpace(t: string, u: string, k: nat)
    requires k <= |t|
    ensures TokenEnd(t + " " + u, k) == TokenEnd(t, k)
    decreases |t| - k
  {
    var s := t + " " + u;
    if k < |t| {
      assert s[k] == t[k];
      if IsTokenChar(t[k]) {
        TokenEndBeforeSpace(t, u, k + 1);
      }
    } else {
      assert s[|t|] == ' ';
    }
  }

  lemma {:induction false} SubstituteSpaced(t: string, u: string, render: string -> string)
    ensures Substitute(t + " " + u, render) == Substitute(t, render) + " " + Substitute(u, render)
    decreases |t|
  {
    var s := t + " " + u;
    if t == [] {
      assert s == " " + u;
      assert s[1..] == u;
    } else {
      assert s[0] == t[0];
      if IsLetter(t[0]) {
        TokenEndBeforeSpace(t, u, 1);
        var j := TokenEnd(t, 1);
        assert s[..j] == t[..j];
        assert s[j..] == t[j..] + " " + u;
        SubstituteSpaced(t[j..], u, render);
      } else {
        assert s[1..] == t[1..] + " " + u;
        SubstituteSpaced(t[1..], u, render);
      }
    }
  }

  /** Space-separated parts of a formula are translated independently. */
  lemma TranslateSpaced(t: string, u: string)
    ensures Translate(t + " " + u) == Translate(t) + " " + Translate(u)
  {
    SubstituteSpaced(t, u, Render);
  }

  /** One indicator token: its kept characters and their lower-cased form. */
  lemma TokenExample(w: string, kept: string, name: string)
    requires IsToken(w) && w !in Keywords
    requires KeepWordChars(w) == kept && Lower(kept) == name
    ensures Translate(w) == name
  {
    TranslateToken(w);
  }

  /** `EMA(5)` becomes `ema5`. */
  lemma TranslateEma5()
    ensures Translate("EMA(5)") == "ema5"
  {
    KeptEma5();
    TokenExample("EMA(5)", "EMA5", "ema5");
  }

  lemma KeptEma5()
    ensures KeepWordChars("EMA(5)") == "EMA5"
  {
    assert KeepWordChars(")") == "";
    assert KeepWordChars("5)") == "5";
    assert KeepWordChars("(5)") == "5";
  }

  /** Keywords are kept as written: `True` keeps its capital letter. */
  lemma KeywordsKept()
    ensures Translate("True") == "True"
  {
    TranslateToken("True");
  }

  // ------------------------------------------------------------ safe_eval

  /** The syntax tree as far as the check sees it: names, calls, and every other node. */
  datatype Node = Name(id: string) | Call(children: seq<Node>) | Other(children: seq<Node>)

  type Parser = string -> Option<Node>
  type Evaluator = (Node, map<string, real>) -> Option<bool>

  function Children(n: Node): seq<Node>
  {
    match n
    case Name(_) => []
    case Call(cs) => cs
    case Other(cs) => cs
  }

  function Height(n: Node): nat
  {
    match n
    case Name(_) => 0
    case Call(cs) => 1 + MaxHeight(cs)
    case Other(cs) => 1 + MaxHeight(cs)
  }

  function MaxHeight(ns: seq<Node>): (h: nat)
    ensures forall i :: 0 <= i < |ns| ==> Height(ns[i]) <= h
  {
    if ns == [] then 0 else Max(Height(ns[0]), MaxHeight(ns[1..]))
  }

  /** The children of a level of the tree, in order: the next level of a breadth-first walk. */
  function Kids(level: seq<Node>): (r: seq<Node>)
  {
    if level == [] then [] else Children(level[0]) + Kids(level[1..])
  }

  lemma {:induction false} KidsLower(level: seq<Node>)
    requires level != []
    ensures Kids(level) == [] || MaxHeight(Kids(level)) < MaxHeight(level)
  {
    var c := Children(level[0]);
    assert forall i :: 0 <= i < |c| ==> Height(c[i]) < Height(level[0]) by {
      forall i | 0 <= i < |c| ensures Height(c[i]) < Height(level[0]) {
        assert Height(level[0]) == 1 + MaxHeight(c);
      }
    }
    if level[1..] != [] {
      KidsLower(level[1..]);
    }
    MaxHeightAppend(c, Kids(level[1..]));
    if c != [] {
      MaxHeightBelow(c, Height(level[0]));
    }
  }

  lemma {:induction false} MaxHeightBelow(ns: seq<Node>, b: nat)
    requires forall i :: 0 <= i < |ns| ==> Height(ns[i]) < b
    ensures MaxHeight(ns) < b || (ns == [] && b == 0)
  {
    if ns != [] {
      MaxHeightBelow(ns[1..], b);
    }
  }

  lemma {:induction false} MaxHeightAppend(a: seq<Node>, b: seq<Node>)
    ensures MaxHeight(a + b) == Max(MaxHeight(a), MaxHeight(b))
  {
    if a != [] {
      assert (a + b)[1..] == a[1..] + b;
      MaxHeightAppend(a[1..], b);
    } else {
      assert a + b == b;
    }
  }

  function LevelMeasure(level: seq<Node>): nat
  {
    if level == [] then 0 else 1 + MaxHeight(level)
  }

  /** `ast.walk`: every node, level by level, as its FIFO queue yields them. */
  function Walk(level: seq<Node>): seq<Node>
    decreases LevelMeasure(level)
  {
    if level == [] then []
    else
      KidsLower(level);
      level + Walk(Kids(level))
  }

  /** The node passes both checks of `safe_eval`. */
  predicate Allowed(n: Node, vars: map<string, real>)
  {
    !n.Call? && (n.Name? ==> n.id in vars)
  }

  /** Every node of the tree passes, stated on its structure. */
  predicate Safe(n: Node, vars: map<string, real>)
  {
    Allowed(n, vars) && forall i :: 0 <= i < |Children(n)| ==> Safe(Children(n)[i], vars)
  }

  predicate AllSafe(ns: seq<Node>, vars: map<string, real>)
  {
    forall i :: 0 <= i < |ns| ==> Safe(ns[i], vars)
  }

  /** The error of the first node in walk order that fails a check. */
  function Violation(nodes: seq<Node>, vars: map<string, real>): (r: Option<string>)
    ensures r.None? <==> forall i :: 0 <= i < |nodes| ==> Allowed(nodes[i], vars)
  {
    if nodes == [] then None
    else if nodes[0].Call? then Some("function calls not allowed")
    else if nodes[0].Name? && nodes[0].id !in vars then Some("unknown variable " + nodes[0].id)
    else Violation(nodes[1..], vars)
  }

  lemma {:induction false} KidsSafe(level: seq<Node>, vars: map<string, real>)
    ensures AllSafe(Kids(level), vars) <==>
      forall i :: 0 <= i < |level| ==> AllSafe(Children(level[i]), vars)
  {
    if level != [] {
      KidsSafe(level[1..], vars);
      var c := Children(level[0]);
      var rest := Kids(level[1..]);
      assert Kids(level) == c + rest;
      assert AllSafe(c + rest, vars) <==> AllSafe(c, vars) && AllSafe(rest, vars) by {
        assert forall i :: 0 <= i < |c| ==> (c + rest)[i] == c[i];
        assert forall i :: 0 <= i < |rest| ==> (c + rest)[|c| + i] == rest[i];
      }
      assert forall i :: 1 <= i < |level| ==> level[i] == level[1..][i - 1];
    }
  }

  /** Every walked node passes exactly when every tree of the level is safe. */
  lemma {:induction false} WalkAllowedIff(level: seq<Node>, vars: map<string, real>)
    ensures (forall i :: 0 <= i < |Walk(level)| ==> Allowed(Walk(level)[i], vars))
        <==> AllSafe(level, vars)
    decreases LevelMeasure(level)
  {
    if level != [] {
      KidsLower(level);
      var w := Walk(Kids(level));
      WalkAllowedIff(Kids(level), vars);
      KidsSafe(level, vars);
      assert Walk(level) == level + w;
      assert forall i :: 0 <= i < |level| ==> (level + w)[i] == level[i];
      assert forall i :: 0 <= i < |w| ==> (level + w)[|level| + i] == w[i];
    }
  }

  /** What `safe_eval` does: the value's truthiness, or the exception it raises. */
  datatype EvalOutcome = Evaluated(truth: bool) | EvalError(message: string)

  function SafeEval(expr: string, vars: map<string, real>, parse: Parser, evaluate: Evaluator): EvalOutcome
  {
    match parse(expr)
    case None => EvalError("invalid syntax")
    case Some(tree) =>
      match Violation(Walk([tree]), vars)
      case Some(msg) => EvalError(msg)
      case None =>
        (match evaluate(tree, vars)
         case None => EvalError("evaluation failed")
         case Some(b) => Evaluated(b))
  }

  /**
   * `safe_eval` evaluates a parsed tree only when it holds no call and no
   * name outside the variables; otherwise it raises whatever the evaluator
   * would have done.
   */
  lemma SafeEvalChecksFirst(expr: string, vars: map<string, real>, parse: Parser, evaluate: Evaluator, tree: Node)
    requires parse(expr) == Some(tree)
    ensures !Safe(tree, vars) ==> SafeEval(expr, vars, parse, evaluate).EvalError?
    ensures Safe(tree, vars) ==>
      SafeEval(expr, vars, parse, evaluate)
        == if evaluate(tree, vars).Some? then Evaluated(evaluate(tree, vars).value) else EvalError("evaluation failed")
  {
    WalkAllowedIff([tree], vars);
  }

  /** A call anywhere below the root is found by the walk. */
  lemma CallRejected(expr: string, vars: map<string, real>, parse: Parser, evaluate: Evaluator, cs: seq<Node>)
    requires parse(expr) == Some(Other([Other([Call(cs)])]))
    ensures SafeEval(expr, vars, parse, evaluate) == EvalError("function calls not allowed")
  {
    var t := Other([Other([Call(cs)])]);
    assert Kids([t]) == [Other([Call(cs)])];
    assert Kids([Other([Call(cs)])]) == [Call(cs)];
    var w2 := Walk([Call(cs)]);
    var w1 := Walk([Other([Call(cs)])]);
    var w0 := Walk([t]);
    assert w1 == [Other([Call(cs)])] + w2;
    assert w0 == [t] + w1;
    assert w0[1..] == w1 && w1[1..] == w2;
    assert Violation(w0, vars) == Violation(w1, vars) == Violation(w2, vars);
  }

  // ------------------------------------------------------------ formula selection

  /** One strategy of the master file; absent formulas and level lists are "" and []. */
  datatype StrategySpec = StrategySpec(buyFormula: string, sellFormula: string,
                                       buyLevels: seq<seq<string>>, sellLevels: seq<seq<string>>)

  datatype Side = Buy | Sell

  /** `LEVEL_INDEX.get(level, 1)`. */
  function LevelIndex(level: string): (r: nat)
    ensures r <= 2
    ensures level in {"공격적", "aggressive"} ==> r == 0
    ensures level in {"보수적", "conservative"} ==> r == 2
    ensures level !in {"공격적", "aggressive", "보수적", "conservative"} ==> r == 1
  {
    if level == "공격적" || level == "aggressive" then 0
    else if level == "중도적" || level == "moderate" then 1
    else if level == "보수적" || level == "conservative" then 2
    else 1
  }

  /** `_select_formula`. */
  function SelectFormula(spec: StrategySpec, side: Side, level: string): string
  {
    var formula := if side == Buy then spec.buyFormula else spec.sellFormula;
    var levels := if side == Buy then spec.buyLevels else spec.sellLevels;
    if formula != "" then formula
    else if LevelIndex(level) < |levels| then Join(" and ", levels[LevelIndex(level)])
    else ""
  }

  /** The order of `_select_formula`: direct formula, then the level's conditions, then "". */
  lemma SelectFormulaOrder(spec: StrategySpec, side: Side, level: string)
    ensures var f := if side == Buy then spec.buyFormula else spec.sellFormula;
      var levels := if side == Buy then spec.buyLevels else spec.sellLevels;
      (f != "" ==> SelectFormula(spec, side, level) == f)
      && (f == "" && LevelIndex(level) < |levels| ==>
            SelectFormula(spec, side, level) == Join(" and ", levels[LevelIndex(level)]))
      && (f == "" && LevelIndex(level) >= |levels| ==> SelectFormula(spec, side, level) == "")
  {
  }

  /** An unknown level reads the moderate list; a two-condition list is joined with " and ". */
  lemma UnknownLevelIsModerate(spec: StrategySpec)
    requires spec.buyFormula == ""
    requires |spec.buyLevels| == 2 && spec.buyLevels[1] == ["a > 1", "b < 2"]
    ensures SelectFormula(spec, Buy, "extreme") == "a > 1 and b < 2"
  {
    assert Join(" and ", ["b < 2"]) == "b < 2";
  }

  // ------------------------------------------------------------ signals

  /** `check_buy_signal`. */
  function CheckBuySignal(specs: map<string, StrategySpec>, shortCode: string, level: string,
                          market: map<string, real>, parse: Parser, evaluate: Evaluator): bool
  {
    if shortCode !in specs then false
    else
      var formula := SelectFormula(specs[shortCode], Buy, level);
      if formula == "" then false
      else SafeEval(Translate(formula), market, parse, evaluate) == Evaluated(true)
  }

  /**
   * A buy signal needs a known strategy, a formula, and an evaluation that
   * raises nothing and yields a true value.
   */
  lemma BuySignalIff(specs: map<string, StrategySpec>, shortCode: string, level: string,
                     market: map<string, real>, parse: Parser, evaluate: Evaluator)
    ensures CheckBuySignal(specs, shortCode, level, market, parse, evaluate) <==>
      shortCode in specs
      && SelectFormula(specs[shortCode], Buy, level) != ""
      && parse(Translate(SelectFormula(specs[shortCode], Buy, level))).Some?
      && Safe(parse(Translate(SelectFormula(specs[shortCode], Buy, level))).value, market)
      && evaluate(parse(Translate(SelectFormula(specs[shortCode], Buy, level))).value, market) == Some(true)
  {
    if shortCode in specs && SelectFormula(specs[shortCode], Buy, level) != "" {
      var text := Translate(SelectFormula(specs[shortCode], Buy, level));
      if parse(text).Some? {
        SafeEvalChecksFirst(text, market, parse, evaluate, parse(text).value);
      }
    }
  }

  /** `market.get(key, 0)`. */
  function GetOr0(m: map<string, real>, key: string): real
  {
    if key in m then m[key] else 0.0
  }

  /** The stop-loss shortcut of `check_sell_signal`; an empty risk config counts as absent. */
  predicate StopLoss(market: map<string, real>, risk: map<string, real>)
  {
    var entry := GetOr0(market, "entryprice");
    var maxDd := if risk == map[] then 0.0 else GetOr0(risk, "max_dd_per_coin");
    entry != 0.0 && maxDd != 0.0 && GetOr0(market, "close") <= entry * (1.0 - maxDd)
  }

  /**
   * `check_sell_signal`; `riskConf` is the argument and `loaded` what
   * `load_risk_settings()` returns when it is None.
   */
  function CheckSellSignal(specs: map<string, StrategySpec>, shortCode: string, level: string,
                           market: map<string, real>, riskConf: Option<map<string, real>>,
                           loaded: map<string, real>, parse: Parser, evaluate: Evaluator): bool
  {
    if shortCode !in specs then false
    else
      var formula := SelectFormula(specs[shortCode], Sell, level);
      if formula == "" then false
      else
        var risk := if riskConf.Some? then riskConf.value else loaded;
        if StopLoss(market, risk) then true
        else SafeEval(Translate(formula), market, parse, evaluate) == Evaluated(true)
  }

  /**
   * Once the price is at or below entry * (1 - max_dd), a strategy with a
   * sell formula signals a sell whatever the formula would say.
   */
  lemma StopLossSkipsFormula(specs: map<string, StrategySpec>, shortCode: string, level: string,
                             market: map<string, real>, risk: map<string, real>,
                             parse: Parser, evaluate: Evaluator, parse2: Parser, evaluate2: Evaluator)
    requires shortCode in specs && SelectFormula(specs[shortCode], Sell, level) != ""
    requires StopLoss(market, risk)
    ensures CheckSellSignal(specs, shortCode, level, market, Some(risk), map[], parse, evaluate)
    ensures CheckSellSignal(specs, shortCode, level, market, Some(risk), map[], parse, evaluate)
         == CheckSellSignal(specs, shortCode, level, market, Some(risk), map[], parse2, evaluate2)
  {
  }

  /** A zero entry price or a zero (or absent) max_dd leaves the decision to the formula. */
  lemma NoStopLossWithoutEntry(market: map<string, real>, risk: map<string, real>)
    requires GetOr0(market, "entryprice") == 0.0 || "max_dd_per_coin" !in risk
    ensures !StopLoss(market, risk)
  {
  }

  /** An unknown strategy or an empty formula never signals, on either side. */
  lemma NoFormulaNoSignal(specs: map<string, StrategySpec>, shortCode: string, level: string,
                          market: map<string, real>, riskConf: Option<map<string, real>>,
                          loaded: map<string, real>, parse: Parser, evaluate: Evaluator)
    requires shortCode !in specs
      || (SelectFormula(specs[shortCode], Buy, level) == "" && SelectFormula(specs[shortCode], Sell, level) == "")
    ensures !CheckBuySignal(specs, shortCode, level, market, parse, evaluate)
    ensures !CheckSellSignal(specs, shortCode, level, market, riskConf, loaded, parse, evaluate)
  {
  }
}
