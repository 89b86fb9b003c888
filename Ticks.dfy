/**
 * Upbit's KRW tick sizes, as the repository tabulates them twice: the
 * order helpers search a list of (bound, tick) brackets with a 1000 tick
 * above the last bound, while the universe selector spells the brackets
 * out as a chain of comparisons ending in 500.
 */
module Ticks {

  /** The brackets of `_tick_size` in the order helpers: the first bound the price is below decides. */
  const ExecutionSteps: seq<(real, real)> := [
    (10.0, 0.01), (100.0, 0.1), (1000.0, 1.0), (10000.0, 5.0),
    (100000.0, 10.0), (500000.0, 50.0), (1000000.0, 100.0), (2000000.0, 500.0)]

  /** The bracket loop: the tick of the first step whose bound exceeds the price, else `top`. */
  function StepSearch(price: real, steps: seq<(real, real)>, top: real): real
  {
    if steps == [] then top
    else if price < steps[0].0 then steps[0].1
    else StepSearch(price, steps[1..], top)
  }

  function ExecutionTick(price: real): real
  {
    StepSearch(price, ExecutionSteps, 1000.0)
  }

  /** `_get_tick_size` of the universe selector. */
  function UniverseTick(price: real): real
  {
    if price < 10.0 then 0.01
    else if price < 100.0 then 0.1
    else if price < 1000.0 then 1.0
    else if price < 10000.0 then 5.0
    else if price < 100000.0 then 10.0
    else if price < 500000.0 then 50.0
    else if price < 1000000.0 then 100.0
    else 500.0
  }

  /** The execution table bracket by bracket. */
  lemma ExecutionTickTable(price: real)
    ensures price < 10.0 ==> ExecutionTick(price) == 0.01
    ensures 10.0 <= price < 100.0 ==> ExecutionTick(price) == 0.1
    ensures 100.0 <= price < 1000.0 ==> ExecutionTick(price) == 1.0
    ensures 1000.0 <= price < 10000.0 ==> ExecutionTick(price) == 5.0
    ensures 10000.0 <= price < 100000.0 ==> ExecutionTick(price) == 10.0
    ensures 100000.0 <= price < 500000.0 ==> ExecutionTick(price) == 50.0
    ensures 500000.0 <= price < 1000000.0 ==> ExecutionTick(price) == 100.0
    ensures 1000000.0 <= price < 2000000.0 ==> ExecutionTick(price) == 500.0
    ensures 2000000.0 <= price ==> ExecutionTick(price) == 1000.0
  {
    var s := ExecutionSteps;
    var t7 := StepSearch(price, [(2000000.0, 500.0)], 1000.0);
    var t6 := StepSearch(price, [(1000000.0, 100.0), (2000000.0, 500.0)], 1000.0);
    var t5 := StepSearch(price, [(500000.0, 50.0), (1000000.0, 100.0), (2000000.0, 500.0)], 1000.0);
    var t4 := StepSearch(price, [(100000.0, 10.0)] + s[5..], 1000.0);
    var t3 := StepSearch(price, [(10000.0, 5.0)] + s[4..], 1000.0);
    var t2 := StepSearch(price, [(1000.0, 1.0)] + s[3..], 1000.0);
    var t1 := StepSearch(price, [(100.0, 0.1)] + s[2..], 1000.0);
    assert [(2000000.0, 500.0)][1..] == [];
    assert StepSearch(price, [], 1000.0) == 1000.0;
    assert t7 == if price < 2000000.0 then 500.0 else 1000.0;
    assert t6 == if price < 1000000.0 then 100.0 else t7;
    assert t5 == if price < 500000.0 then 50.0 else t6;
    assert s[5..] == [(500000.0, 50.0), (1000000.0, 100.0), (2000000.0, 500.0)];
    assert t4 == if price < 100000.0 then 10.0 else t5;
    assert s[4..] == [(100000.0, 10.0)] + s[5..];
    assert t3 == if price < 10000.0 then 5.0 else t4;
    assert s[3..] == [(10000.0, 5.0)] + s[4..];
    assert t2 == if price < 1000.0 then 1.0 else t3;
    assert s[2..] == [(1000.0, 1.0)] + s[3..];
    assert t1 == if price < 100.0 then 0.1 else t2;
    assert s[1..] == [(100.0, 0.1)] + s[2..];
    assert ExecutionTick(price) == if price < 10.0 then 0.01 else t1;
  }

  /** The universe table bracket by bracket, with 500 for every price from 1,000,000 on. */
  lemma UniverseTickTable(price: real)
    ensures UniverseTick(price) > 0.0
    ensures 1000000.0 <= price ==> UniverseTick(price) == 500.0
    ensures 500000.0 <= price < 1000000.0 ==> UniverseTick(price) == 100.0
  {
  }

  /** Every tick is positive. */
  lemma ExecutionTickPositive(price: real)
    ensures ExecutionTick(price) > 0.0
  {
    ExecutionTickTable(price);
  }

  /** A higher price never has a smaller tick, in either table. */
  lemma TicksMonotone(p: real, q: real)
    requires p <= q
    ensures ExecutionTick(p) <= ExecutionTick(q)
    ensures UniverseTick(p) <= UniverseTick(q)
  {
    ExecutionTickTable(p);
    ExecutionTickTable(q);
  }

  /** The two tables agree below 2,000,000 and disagree at and above it (1000 against 500). */
  lemma TablesDiffer(price: real)
    ensures price < 2000000.0 ==> ExecutionTick(price) == UniverseTick(price)
    ensures price >= 2000000.0 ==> ExecutionTick(price) == 1000.0 && UniverseTick(price) == 500.0
  {
    ExecutionTickTable(price);
  }
}
