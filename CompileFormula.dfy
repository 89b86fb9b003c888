/**
 * The second half of formula compilation in the ML pipeline: after the
 * textual rewrite, the expression is parsed, and every `and`/`or` chain of
 * the syntax tree is replaced by a chain of element-wise `&`/`|` operations
 * (Python's `and` cannot combine two pandas Series). Then `load_strategies`
 * compiles the buy and sell formula of each strategy record.
 *
 * Parsing the text into a tree and compiling the tree to code are outside
 * the model: a tree is an input, whether a text parses is a parameter, and
 * a compiled formula is represented by its rewritten text.
 */
module CompileFormula {
  import opened Common
  import opened StrategyLoader

  datatype BinKind = BitAnd | BitOr | Arith(name: string)

  /** The part of Python's expression tree the transformer looks at. */
  datatype Expr =
    | Leaf(code: string)                          // a name, a constant, a subscript ...
    | BoolOp(isAnd: bool, values: seq<Expr>)      // `v1 and v2 and ...` / `v1 or v2 or ...`
    | BinOp(op: BinKind, left: Expr, right: Expr) // `l & r`, `l | r`, `l + r`, ...
    | Node(kind: string, children: seq<Expr>)     // any other node: a comparison, a call, `not` ...

  /** Python's parser never builds an `and`/`or` node with fewer than two operands. */
  predicate WellFormed(e: Expr)
  {
    match e
    case Leaf(_) => true
    case BoolOp(_, vs) => |vs| >= 2 && forall i :: 0 <= i < |vs| ==> WellFormed(vs[i])
    case BinOp(_, l, r) => WellFormed(l) && WellFormed(r)
    case Node(_, cs) => forall i :: 0 <= i < |cs| ==> WellFormed(cs[i])
  }

  predicate NoBoolOp(e: Expr)
  {
    match e
    case Leaf(_) => true
    case BoolOp(_, _) => false
    case BinOp(_, l, r) => NoBoolOp(l) && NoBoolOp(r)
    case Node(_, cs) => forall i :: 0 <= i < |cs| ==> NoBoolOp(cs[i])
  }

  function OpFor(isAnd: bool): BinKind { if isAnd then BitAnd else BitOr }

  /** `result = v1; for val in rest: result = BinOp(result, op, val)`. */
  function LeftFold(op: BinKind, acc: Expr, rest: seq<Expr>): Expr
    decreases |rest|
  {
    if rest == [] then acc else LeftFold(op, BinOp(op, acc, rest[0]), rest[1..])
  }

  /** The documented shape of the result: `((v1 op v2) op ...) op vk`, last operand outermost. */
  function Chain(op: BinKind, vs: seq<Expr>): Expr
    requires vs != []
    decreases |vs|
  {
    if |vs| == 1 then vs[0] else BinOp(op, Chain(op, vs[..|vs| - 1]), vs[|vs| - 1])
  }

  /** Folding from the left builds exactly the left-nested chain. */
  lemma {:induction false} LeftFoldIsChain(op: BinKind, vs: seq<Expr>)
    requires vs != []
    ensures LeftFold(op, vs[0], vs[1..]) == Chain(op, vs)
    decreases |vs|
  {
    if |vs| > 1 {
      var init := vs[..|vs| - 1];
      LeftFoldIsChain(op, init);
      FoldSnoc(op, init[0], init[1..], vs[|vs| - 1]);
      assert init[1..] + [vs[|vs| - 1]] == vs[1..];
    }
  }

  /** Folding one more operand puts it on top of the previous result. */
  lemma {:induction false} FoldSnoc(op: BinKind, acc: Expr, rest: seq<Expr>, v: Expr)
    ensures LeftFold(op, acc, rest + [v]) == BinOp(op, LeftFold(op, acc, rest), v)
    decreases |rest|
  {
    if rest == [] {
      assert [] + [v] == [v];
    } else {
      assert (rest + [v])[1..] == rest[1..] + [v];
      FoldSnoc(op, BinOp(op, acc, rest[0]), rest[1..], v);
    }
  }

  /** The accumulator loop of `visit_BoolOp`, applied to already transformed operands. */
  method FoldValues(isAnd: bool, values: seq<Expr>) returns (result: Expr)
    requires values != []
    ensures result == Chain(OpFor(isAnd), values)
  {
    var op := OpFor(isAnd);
    result := values[0];
    var i := 1;
    while i < |values|
      invariant 1 <= i <= |values|
      invariant LeftFold(op, result, values[i..]) == LeftFold(op, values[0], values[1..])
    {
      assert values[i..][1..] == values[i + 1..];
      result := BinOp(op, result, values[i]);
      i := i + 1;
    }
    assert values[i..] == [];
    LeftFoldIsChain(op, values);
  }

  /** `BoolTransformer().visit(tree)`: children first (`generic_visit`), then each `and`/`or` folded. */
  function Transform(e: Expr): Expr
    requires WellFormed(e)
  {
    match e
    case Leaf(c) => Leaf(c)
    case BoolOp(isAnd, vs) =>
      Chain(OpFor(isAnd), seq(|vs|, i requires 0 <= i < |vs| => Transform(vs[i])))
    case BinOp(op, l, r) => BinOp(op, Transform(l), Transform(r))
    case Node(k, cs) => Node(k, seq(|cs|, i requires 0 <= i < |cs| => Transform(cs[i])))
  }

  lemma {:induction false} ChainNoBoolOp(op: BinKind, vs: seq<Expr>)
    requires vs != [] && forall i :: 0 <= i < |vs| ==> NoBoolOp(vs[i])
    ensures NoBoolOp(Chain(op, vs))
    decreases |vs|
  {
    if |vs| > 1 {
      ChainNoBoolOp(op, vs[..|vs| - 1]);
    }
  }

  /** After the transformation no `and`/`or` node is left. */
  lemma {:induction false} TransformNoBoolOp(e: Expr)
    requires WellFormed(e)
    ensures NoBoolOp(Transform(e))
  {
    match e
    case Leaf(_) =>
    case BoolOp(isAnd, vs) =>
      var ts := seq(|vs|, i requires 0 <= i < |vs| => Transform(vs[i]));
      forall i | 0 <= i < |vs| ensures NoBoolOp(ts[i]) {
        TransformNoBoolOp(vs[i]);
      }
      ChainNoBoolOp(OpFor(isAnd), ts);
    case BinOp(_, l, r) =>
      TransformNoBoolOp(l);
      TransformNoBoolOp(r);
    case Node(k, cs) =>
      forall i | 0 <= i < |cs| ensures NoBoolOp(Transform(e).children[i]) {
        TransformNoBoolOp(cs[i]);
      }
  }

  // ---------------------------------------------------------------- meaning

  /**
   * The truth value of a tree for one row: `env` gives the value of each
   * leaf, `other` the value of an arithmetic operation or any other node
   * from the values of its operands. `&` and `|` on booleans are `and` and
   * `or`, which is why the transformation keeps the meaning of a formula.
   */
  function Eval(e: Expr, env: string -> bool, other: (string, seq<bool>) -> bool): bool
  {
    match e
    case Leaf(c) => env(c)
    case BoolOp(isAnd, vs) =>
      var bs := seq(|vs|, i requires 0 <= i < |vs| => Eval(vs[i], env, other));
      if isAnd then AllTrue(bs) else AnyTrue(bs)
    case BinOp(op, l, r) =>
      (match op
       case BitAnd => Eval(l, env, other) && Eval(r, env, other)
       case BitOr => Eval(l, env, other) || Eval(r, env, other)
       case Arith(name) => other(name, [Eval(l, env, other), Eval(r, env, other)]))
    case Node(k, cs) => other(k, seq(|cs|, i requires 0 <= i < |cs| => Eval(cs[i], env, other)))
  }

  function AllTrue(bs: seq<bool>): bool
  {
    if bs == [] then true else AllTrue(bs[..|bs| - 1]) && bs[|bs| - 1]
  }

  function AnyTrue(bs: seq<bool>): bool
  {
    if bs == [] then false else AnyTrue(bs[..|bs| - 1]) || bs[|bs| - 1]
  }

  /** A chain of `&` is true iff every operand is, a chain of `|` iff some operand is. */
  lemma {:induction false} ChainEval(isAnd: bool, vs: seq<Expr>, env: string -> bool, other: (string, seq<bool>) -> bool)
    requires vs != []
    ensures var bs := seq(|vs|, i requires 0 <= i < |vs| => Eval(vs[i], env, other));
      Eval(Chain(OpFor(isAnd), vs), env, other) == if isAnd then AllTrue(bs) else AnyTrue(bs)
    decreases |vs|
  {
    var bs := seq(|vs|, i requires 0 <= i < |vs| => Eval(vs[i], env, other));
    if |vs| == 1 {
      assert bs[..0] == [];
    } else {
      var init := vs[..|vs| - 1];
      ChainEval(isAnd, init, env, other);
      var ibs := seq(|init|, i requires 0 <= i < |init| => Eval(init[i], env, other));
      assert ibs == bs[..|bs| - 1];
    }
  }

  /** The transformed tree has the meaning of the original one, on every row. */
  lemma {:induction false} TransformEval(e: Expr, env: string -> bool, other: (string, seq<bool>) -> bool)
    requires WellFormed(e)
    ensures Eval(Transform(e), env, other) == Eval(e, env, other)
  {
    match e
    case Leaf(_) =>
    case BoolOp(isAnd, vs) =>
      var ts := seq(|vs|, i requires 0 <= i < |vs| => Transform(vs[i]));
      forall i | 0 <= i < |vs| ensures Eval(ts[i], env, other) == Eval(vs[i], env, other) {
        TransformEval(vs[i], env, other);
      }
      ChainEval(isAnd, ts, env, other);
      assert seq(|ts|, i requires 0 <= i < |ts| => Eval(ts[i], env, other))
        == seq(|vs|, i requires 0 <= i < |vs| => Eval(vs[i], env, other));
    case BinOp(_, l, r) =>
      TransformEval(l, env, other);
      TransformEval(r, env, other);
    case Node(k, cs) =>
      var ts := Transform(e).children;
      forall i | 0 <= i < |cs| ensures Eval(ts[i], env, other) == Eval(cs[i], env, other) {
        TransformEval(cs[i], env, other);
      }
      assert seq(|ts|, i requires 0 <= i < |ts| => Eval(ts[i], env, other))
        == seq(|cs|, i requires 0 <= i < |cs| => Eval(cs[i], env, other));
  }

  /** A tree without `and`/`or` is left as it is. */
  lemma {:induction false} TransformIdentity(e: Expr)
    requires WellFormed(e) && NoBoolOp(e)
    ensures Transform(e) == e
  {
    match e
    case Leaf(_) =>
    case BoolOp(_, _) =>
    case BinOp(_, l, r) =>
      TransformIdentity(l);
      TransformIdentity(r);
    case Node(k, cs) =>
      forall i | 0 <= i < |cs| ensures Transform(e).children[i] == cs[i] {
        TransformIdentity(cs[i]);
      }
  }

  // --------------------------------------------------------- load_strategies

  /** The three fields `load_strategies` reads from a record (`short_code`, `buy_formula`, `sell_formula`). */
  datatype Strategy = Strategy(shortCode: string, buyFormula: string, sellFormula: string)

  /** The compiled pair, each formula represented by its rewritten text. */
  datatype Compiled = Compiled(buy: string, sell: string)

  function CompileEntry(s: Strategy): Compiled
  {
    Compiled(Converted(s.buyFormula), Converted(s.sellFormula))
  }

  /** The table after the records have been stored in order. */
  function Loaded(data: seq<Strategy>): map<string, Compiled>
  {
    if data == [] then map[]
    else Loaded(data[..|data| - 1])[data[|data| - 1].shortCode := CompileEntry(data[|data| - 1])]
  }

  /** One record as read from the strategy file: its string-valued fields by key. */
  type Record = map<string, string>

  function Field(rec: Record, key: string): string
  {
    if key in rec then rec[key] else ""
  }

  /** The strategy a record describes, read through its three keys. */
  function StrategyOf(rec: Record): Strategy
  {
    Strategy(Field(rec, "short_code"), Field(rec, "buy_formula"), Field(rec, "sell_formula"))
  }

  /** The records' strategies, in order. */
  function StrategiesOf(data: seq<Record>): (r: seq<Strategy>)
    ensures |r| == |data|
    ensures forall i :: 0 <= i < |data| ==> r[i] == StrategyOf(data[i])
  {
    if data == [] then [] else StrategiesOf(data[..|data| - 1]) + [StrategyOf(data[|data| - 1])]
  }

  /**
   * A record is loaded without raising: `strat["short_code"]`,
   * `strat["buy_formula"]` and `strat["sell_formula"]` exist (else
   * KeyError), and both converted formulas parse (else `ast.parse` raises
   * SyntaxError). `parses` is the parser's verdict on a text.
   */
  predicate Compiles(rec: Record, parses: string -> bool)
  {
    && "short_code" in rec && "buy_formula" in rec && "sell_formula" in rec
    && parses(Converted(rec["buy_formula"])) && parses(Converted(rec["sell_formula"]))
  }

  /**
   * `load_strategies`: None where some record raises (the table built so
   * far is lost with the exception); otherwise one entry per short code,
   * each assignment overwriting the previous one.
   */
  method LoadStrategies(data: seq<Record>, parses: string -> bool) returns (out: Option<map<string, Compiled>>)
    ensures out.None? <==> exists i :: 0 <= i < |data| && !Compiles(data[i], parses)
    ensures out.Some? ==> out.value == Loaded(StrategiesOf(data))
  {
    var table := map[];
    ghost var done: seq<Strategy> := [];
    var i := 0;
    while i < |data|
      invariant 0 <= i <= |data|
      invariant forall k :: 0 <= k < i ==> Compiles(data[k], parses)
      invariant done == StrategiesOf(data[..i])
      invariant table == Loaded(done)
    {
      var strat := data[i];
      if "short_code" !in strat || "buy_formula" !in strat {
        assert !Compiles(data[i], parses);
        return None;
      }
      var buy := Convert(strat["buy_formula"]);
      if !parses(buy) || "sell_formula" !in strat {
        assert !Compiles(data[i], parses);
        return None;
      }
      var sell := Convert(strat["sell_formula"]);
      if !parses(sell) {
        assert !Compiles(data[i], parses);
        return None;
      }
      CompilesUpTo(data, i, parses);
      StrategiesSnoc(data, i);
      LoadedSnoc(done, StrategyOf(strat));
      table := table[strat["short_code"] := Compiled(buy, sell)];
      done := done + [StrategyOf(strat)];
      i := i + 1;
    }
    assert data[..i] == data;
    out := Some(table);
  }

  lemma CompilesUpTo(data: seq<Record>, i: nat, parses: string -> bool)
    requires i < |data|
    requires forall k :: 0 <= k < i ==> Compiles(data[k], parses)
    requires Compiles(data[i], parses)
    ensures forall k :: 0 <= k < i + 1 ==> Compiles(data[k], parses)
  {
  }

  lemma StrategiesSnoc(data: seq<Record>, i: nat)
    requires i < |data|
    ensures StrategiesOf(data[..i + 1]) == StrategiesOf(data[..i]) + [StrategyOf(data[i])]
  {
    assert data[..i + 1][..i] == data[..i];
  }

  /** One more record stores its compiled pair under its short code. */
  lemma LoadedSnoc(done: seq<Strategy>, s: Strategy)
    ensures Loaded(done + [s]) == Loaded(done)[s.shortCode := CompileEntry(s)]
  {
    assert (done + [s])[..|done|] == done;
  }

  /** A short code has an entry iff some record carries it. */
  lemma {:induction false} LoadedKeys(data: seq<Strategy>, code: string)
    ensures code in Loaded(data) <==> exists i :: 0 <= i < |data| && data[i].shortCode == code
  {
    if data != [] {
      var init := data[..|data| - 1];
      LoadedKeys(init, code);
      if data[|data| - 1].shortCode != code {
        assert code in Loaded(data) <==> code in Loaded(init);
        forall i | 0 <= i < |data| && data[i].shortCode == code
          ensures 0 <= i < |init| && init[i].shortCode == code
        {
        }
      }
    }
  }

  /** The entry for a short code is compiled from the last record carrying it. */
  lemma {:induction false} LoadedLastWins(data: seq<Strategy>, i: nat)
    requires i < |data|
    requires forall j :: i < j < |data| ==> data[j].shortCode != data[i].shortCode
    ensures data[i].shortCode in Loaded(data)
    ensures Loaded(data)[data[i].shortCode] == CompileEntry(data[i])
  {
    var init := data[..|data| - 1];
    if i < |data| - 1 {
      assert init[i] == data[i];
      LoadedLastWins(init, i);
    }
  }
}
