/**
 * The F1–F2 signal loop (`signal_loop.py`): `process_symbol` turns the
 * basic buy flags of one symbol into the signal dictionary forwarded to the
 * order executor, and each iteration of `main_loop` gates on the remote
 * status, builds the universe and processes every symbol in it.
 *
 * Fetching candles, `check_signals`, forwarding to the executor, the
 * remote status and the universe sources are parameters: `fetch` gives the
 * frame (None where the request failed), `flagsOf` the flags, and
 * `forward` the text of the exception forwarding raised, if any.
 */
module SignalLoop {
  import opened Common
  import F2BuySignal

  // ------------------------------------------------------------ process_symbol

  /** One 1-minute candle row of the fetched frame. */
  type Ohlcv = seq<map<string, Float>>

  /** The keys of a position record this file reads. */
  datatype Record = Record(symbol: string, status: Option<string>, origin: Option<string>)

  predicate IsOpen(p: Record) { p.status == Some("open") }

  /** The signal dictionary; `price` is present only when the frame has a close column. */
  datatype Signal = Signal(symbol: string, buy: bool, sell: bool, buyTriggers: seq<string>,
                           sellTriggers: seq<string>, price: Option<Float>)

  /** What one call does: its return value, the signals it sent, and the errors it logged. */
  datatype Processed = Processed(result: Option<Signal>, sent: seq<Signal>, errors: seq<string>)

  /** `open_pos`: the open positions on the symbol. */
  function OpenFor(positions: seq<Record>, symbol: string): seq<Record>
  {
    Filter(positions, (p: Record) => p.symbol == symbol && IsOpen(p))
  }

  /** `all(signals.values())`. */
  predicate AllFlags(f: F2BuySignal.Flags) { f.signal1 && f.signal2 && f.signal3 }

  function LastClose(frame: Ohlcv): Option<Float>
    requires frame != []
  {
    var last := frame[|frame| - 1];
    if "close" in last then Some(last["close"]) else None
  }

  /** `process_symbol`. */
  function ProcessSymbol(symbol: string, fetched: Option<Ohlcv>, positions: seq<Record>,
                         flags: F2BuySignal.Flags, forward: Option<string>): Processed
  {
    if fetched.None? || fetched.value == [] then Processed(None, [], [])
    else
      var buy := OpenFor(positions, symbol) == [] && AllFlags(flags);
      var r := Signal(symbol, buy, false, [], [], LastClose(fetched.value));
      var errors := if forward.Some? then ["[" + symbol + "] Failed to send signal to F3: " + forward.value] else [];
      Processed(Some(r), [r], errors)
  }

  /** No frame, or an empty one, returns None and forwards nothing. */
  lemma NoDataNoSignal(symbol: string, fetched: Option<Ohlcv>, positions: seq<Record>,
                       flags: F2BuySignal.Flags, forward: Option<string>)
    requires fetched.None? || fetched.value == []
    ensures var p := ProcessSymbol(symbol, fetched, positions, flags, forward);
      p.result.None? && p.sent == [] && p.errors == []
  {
  }

  /**
   * With data, the one signal sent is the one returned: a buy exactly when
   * the symbol has no open position and all three flags hold, never a
   * sell, no triggers, and the last close as price when the frame has one.
   */
  lemma SignalOfData(symbol: string, fetched: Option<Ohlcv>, positions: seq<Record>,
                     flags: F2BuySignal.Flags, forward: Option<string>)
    requires fetched.Some? && fetched.value != []
    ensures var p := ProcessSymbol(symbol, fetched, positions, flags, forward);
      var frame := fetched.value;
      p.result.Some? && p.sent == [p.result.value]
      && p.result.value.symbol == symbol
      && (p.result.value.buy <==>
            (forall k :: 0 <= k < |positions| ==> !(positions[k].symbol == symbol && IsOpen(positions[k])))
            && flags.signal1 && flags.signal2 && flags.signal3)
      && !p.result.value.sell && p.result.value.buyTriggers == [] && p.result.value.sellTriggers == []
      && ("close" in frame[|frame| - 1] ==> p.result.value.price == Some(frame[|frame| - 1]["close"]))
      && ("close" !in frame[|frame| - 1] ==> p.result.value.price.None?)
  {
    var keep := (p: Record) => p.symbol == symbol && IsOpen(p);
    FilterEmpty(positions, keep);
  }

  /** A filter keeps nothing exactly when no element passes it. */
  lemma {:induction false} FilterEmpty<T(!new)>(s: seq<T>, keep: T -> bool)
    ensures Filter(s, keep) == [] <==> forall k :: 0 <= k < |s| ==> !keep(s[k])
  {
    if s != [] {
      FilterEmpty(s[1..], keep);
      if !keep(s[0]) {
        forall k | 1 <= k < |s| ensures s[k] == s[1..][k - 1] { }
      }
    }
  }

  /** A failure to forward is logged once and changes neither the result nor what was sent. */
  lemma ForwardFailureIsLogged(symbol: string, fetched: Option<Ohlcv>, positions: seq<Record>,
                               flags: F2BuySignal.Flags, exc: string)
    requires fetched.Some? && fetched.value != []
    ensures var failed := ProcessSymbol(symbol, fetched, positions, flags, Some(exc));
      var ok := ProcessSymbol(symbol, fetched, positions, flags, None);
      failed.result == ok.result && failed.sent == ok.sent
      && ok.errors == [] && failed.errors == ["[" + symbol + "] Failed to send signal to F3: " + exc]
  {
  }

  // ------------------------------------------------------------ the universe

  /** `dict.fromkeys(s)` as a list: first occurrences, in order, skipping what is in `seen`. */
  function DedupeFrom(s: seq<string>, seen: set<string>): seq<string>
    decreases |s|
  {
    if s == [] then []
    else if s[0] in seen then DedupeFrom(s[1..], seen)
    else [s[0]] + DedupeFrom(s[1..], seen + {s[0]})
  }

  function Dedupe(s: seq<string>): seq<string> { DedupeFrom(s, {}) }

  predicate Distinct(s: seq<string>)
  {
    forall i, j :: 0 <= i < j < |s| ==> s[i] != s[j]
  }

  /**
   * The dedupe keeps each symbol not yet seen exactly once, in the order of
   * its first occurrence: the result is distinct, a subsequence of the
   * input, and holds exactly the input's symbols outside `seen`.
   */
  lemma {:induction false} DedupeFromKeeps(s: seq<string>, seen: set<string>)
    ensures var d := DedupeFrom(s, seen);
      Distinct(d) && IsSubsequence(d, s)
      && (forall x :: x in d <==> x in s && x !in seen)
    decreases |s|
  {
    if s != [] {
      var x := s[0];
      if x in seen {
        DedupeFromKeeps(s[1..], seen);
      } else {
        var rest := DedupeFrom(s[1..], seen + {x});
        DedupeFromKeeps(s[1..], seen + {x});
        assert forall k :: 0 <= k < |rest| ==> rest[k] != x;
        assert ([x] + rest)[1..] == rest;
      }
    }
  }

  /** A list without repeats comes back unchanged. */
  lemma {:induction false} DedupeDistinct(s: seq<string>, seen: set<string>)
    requires Distinct(s) && forall k :: 0 <= k < |s| ==> s[k] !in seen
    ensures DedupeFrom(s, seen) == s
    decreases |s|
  {
    if s != [] {
      assert forall k :: 1 <= k < |s| ==> s[k] != s[0];
      DedupeDistinct(s[1..], seen + {s[0]});
    }
  }

  /** The universe's own symbols come first: deduping `a + b` is deduping `a`, then the new symbols of `b`. */
  lemma {:induction false} DedupeAppend(a: seq<string>, b: seq<string>, seen: set<string>)
    ensures DedupeFrom(a + b, seen) == DedupeFrom(a, seen) + DedupeFrom(b, seen + set x | x in a)
    decreases |a|
  {
    if a == [] {
      assert a + b == b;
      assert seen + (set x | x in a) == seen;
    } else {
      assert (a + b)[1..] == a[1..] + b;
      assert (a + b)[0] == a[0];
      if a[0] in seen {
        DedupeAppend(a[1..], b, seen);
        assert seen + (set x | x in a[1..]) == seen + (set x | x in a);
      } else {
        DedupeAppend(a[1..], b, seen + {a[0]});
        assert seen + {a[0]} + (set x | x in a[1..]) == seen + (set x | x in a);
      }
    }
  }

  /** `imported`: the symbols of open positions whose origin is "imported", in list order. */
  function Imported(positions: seq<Record>): (r: seq<string>)
    ensures |r| <= |positions|
    ensures forall k :: 0 <= k < |r| ==>
      exists j :: (0 <= j < |positions| && positions[j].symbol == r[k]
                   && IsOpen(positions[j]) && positions[j].origin == Some("imported"))
    ensures forall j :: 0 <= j < |positions| && IsOpen(positions[j]) && positions[j].origin == Some("imported") ==>
      positions[j].symbol in r
  {
    if positions == [] then []
    else
      var p := positions[0];
      var rest := Imported(positions[1..]);
      assert forall j :: 1 <= j < |positions| ==> positions[j] == positions[1..][j - 1];
      if IsOpen(p) && p.origin == Some("imported") then [p.symbol] + rest else rest
  }

  /** The universe of one iteration: the current one, or a fresh selection when it is empty, then the imported symbols. */
  function Universe(current: seq<string>, selected: seq<string>, positions: seq<Record>): seq<string>
  {
    Dedupe((if current == [] then selected else current) + Imported(positions))
  }

  /**
   * The universe falls back to the selection only when the current one is
   * empty, lists the base symbols first in their order, and then adds each
   * imported symbol not already in it, once.
   */
  lemma UniverseIsMerge(current: seq<string>, selected: seq<string>, positions: seq<Record>)
    ensures var base := if current == [] then selected else current;
      var u := Universe(current, selected, positions);
      Distinct(u)
      && (forall x :: x in u <==> x in base || x in Imported(positions))
      && (Distinct(base) ==> |base| <= |u| && u[..|base|] == base)
  {
    var base := if current == [] then selected else current;
    var imported := Imported(positions);
    DedupeFromKeeps(base + imported, {});
    forall x ensures x in base + imported <==> x in base || x in imported { }
    if Distinct(base) {
      DedupeAppend(base, imported, {});
      DedupeDistinct(base, {});
      assert Universe(current, selected, positions)
        == base + DedupeFrom(imported, {} + set x | x in base);
    }
  }

  /** The `dict.fromkeys` pass as a loop over a `seen` set. */
  method RunDedupe(s: seq<string>) returns (out: seq<string>)
    ensures out == Dedupe(s)
  {
    out := [];
    var seen: set<string> := {};
    var i := 0;
    while i < |s|
      invariant 0 <= i <= |s|
      invariant Dedupe(s) == out + DedupeFrom(s[i..], seen)
    {
      assert s[i..][1..] == s[i + 1..];
      if s[i] !in seen {
        out := out + [s[i]];
        seen := seen + {s[i]};
      }
      i := i + 1;
    }
    assert s[i..] == [];
  }

  // ------------------------------------------------------------ main_loop

  function UpperChar(c: char): char
  {
    if 'a' <= c <= 'z' then (c as int - 32) as char else c
  }

  /** `str.upper()` restricted to ASCII letters. */
  function Upper(s: string): (r: string)
    ensures |r| == |s|
  {
    if s == [] then [] else [UpperChar(s[0])] + Upper(s[1..])
  }

  /** What one pass of the `while True` loop does. */
  datatype Step =
    | Break
    | Wait(thenBreak: bool)
    | Scan(universe: seq<string>, processed: seq<Processed>)
    | SyncFails(universe: seq<string>)

  /** The per-symbol inputs of one scan. */
  datatype Inputs = Inputs(fetch: string -> Option<Ohlcv>, flagsOf: string -> F2BuySignal.Flags,
                           forward: string -> Option<string>)

  function ScanAll(universe: seq<string>, positions: seq<Record>, inp: Inputs): (r: seq<Processed>)
    ensures |r| == |universe|
    ensures forall k :: 0 <= k < |universe| ==>
      r[k] == ProcessSymbol(universe[k], inp.fetch(universe[k]), positions, inp.flagsOf(universe[k]), inp.forward(universe[k]))
  {
    if universe == [] then []
    else
      var u := universe[0];
      var rest := ScanAll(universe[1..], positions, inp);
      [ProcessSymbol(u, inp.fetch(u), positions, inp.flagsOf(u), inp.forward(u))] + rest
  }

  /**
   * One iteration as written: after the status gate and the universe,
   * `position_manager.sync_with_universe` is called, which `PositionManager`
   * does not define, so every ON iteration raises AttributeError before
   * any symbol is processed.
   */
  function IterateAsWritten(status: string, stopSet: bool, current: seq<string>, selected: seq<string>,
                            positions: seq<Record>): Step
  {
    if Upper(status) != "ON" then Wait(stopSet)
    else if stopSet then Break
    else SyncFails(Universe(current, selected, positions))
  }

  /** The iteration with the missing synchronisation left out: every symbol of the universe is processed in order. */
  function Iterate(status: string, stopSet: bool, current: seq<string>, selected: seq<string>,
                   positions: seq<Record>, inp: Inputs): Step
  {
    if Upper(status) != "ON" then Wait(stopSet)
    else if stopSet then Break
    else
      var u := Universe(current, selected, positions);
      Scan(u, ScanAll(u, positions, inp))
  }

  /** Off: only manage positions and sleep, then stop if asked. On: stop if asked before doing anything else. */
  lemma StatusGates(status: string, stopSet: bool, current: seq<string>, selected: seq<string>,
                    positions: seq<Record>, inp: Inputs)
    ensures Upper(status) != "ON" ==> Iterate(status, stopSet, current, selected, positions, inp) == Wait(stopSet)
    ensures Upper(status) == "ON" && stopSet ==> Iterate(status, stopSet, current, selected, positions, inp) == Break
    ensures Upper(status) == "ON" && !stopSet ==>
      Iterate(status, stopSet, current, selected, positions, inp).Scan?
  {
  }

  /** The status is compared case-insensitively: "on" runs a scan. */
  lemma LowerCaseOnRuns(stopSet: bool, current: seq<string>, selected: seq<string>, positions: seq<Record>, inp: Inputs)
    ensures !stopSet ==> Iterate("on", stopSet, current, selected, positions, inp).Scan?
  {
    assert Upper("on") == "ON" by {
      assert Upper("on") == [UpperChar('o')] + Upper("n");
      assert Upper("n") == [UpperChar('n')] + Upper("");
    }
  }

  /** As written, no ON iteration that is not stopping processes a symbol. */
  lemma OnIterationRaises(current: seq<string>, selected: seq<string>, positions: seq<Record>)
    ensures IterateAsWritten("ON", false, current, selected, positions) == SyncFails(Universe(current, selected, positions))
  {
    assert Upper("ON") == "ON" by {
      assert Upper("ON") == [UpperChar('O')] + Upper("N");
      assert Upper("N") == [UpperChar('N')] + Upper("");
    }
  }

  /**
   * Corrected, a scan processes each universe symbol once in order, and the
   * signals it forwards are exactly those of the symbols with data.
   */
  lemma ScanProcessesUniverse(status: string, current: seq<string>, selected: seq<string>,
                              positions: seq<Record>, inp: Inputs)
    requires Upper(status) == "ON"
    ensures var st := Iterate(status, false, current, selected, positions, inp);
      st.Scan? && st.universe == Universe(current, selected, positions)
      && |st.processed| == |st.universe|
      && forall k :: 0 <= k < |st.universe| ==>
           (st.processed[k].sent != [] <==> inp.fetch(st.universe[k]).Some? && inp.fetch(st.universe[k]).value != [])
  {
  }

  /** `main_loop`'s `for symbol in universe` as a loop. */
  method RunScan(universe: seq<string>, positions: seq<Record>, inp: Inputs) returns (processed: seq<Processed>)
    ensures processed == ScanAll(universe, positions, inp)
  {
    processed := [];
    var i := 0;
    while i < |universe|
      invariant 0 <= i <= |universe|
      invariant processed == ScanAll(universe[..i], positions, inp)
    {
      var u := universe[i];
      var p := ProcessSymbol(u, inp.fetch(u), positions, inp.flagsOf(u), inp.forward(u));
      ScanAllSnoc(universe[..i], u, positions, inp);
      assert universe[..i + 1] == universe[..i] + [u];
      processed := processed + [p];
      i := i + 1;
    }
    assert universe[..i] == universe;
  }

  lemma ScanAllSnoc(us: seq<string>, u: string, positions: seq<Record>, inp: Inputs)
    ensures ScanAll(us + [u], positions, inp)
      == ScanAll(us, positions, inp) + [ProcessSymbol(u, inp.fetch(u), positions, inp.flagsOf(u), inp.forward(u))]
  {
  }

  /** One iteration, with the universe built by `RunDedupe` and the scan by `RunScan`. */
  method RunIterate(status: string, stopSet: bool, current: seq<string>, selected: seq<string>,
                    positions: seq<Record>, inp: Inputs) returns (st: Step)
    ensures st == Iterate(status, stopSet, current, selected, positions, inp)
  {
    if Upper(status) != "ON" {
      return Wait(stopSet);
    }
    if stopSet {
      return Break;
    }
    var universe := if current == [] then selected else current;
    universe := RunDedupe(universe + Imported(positions));
    var processed := RunScan(universe, positions, inp);
    st := Scan(universe, processed);
  }
}
