/**
 * The in-memory position list of the order layer (`PositionManager`): it
 * records one dictionary per filled buy and its 1 Hz hold loop only looks
 * at them.
 */
module Positions {
  import opened Common

  /** The fields of a filled order result that `open_position` reads. */
  datatype OrderResult = OrderResult(symbol: string, price: Option<real>, qty: Option<real>)

  /** One position record, with the keys `open_position` writes. */
  datatype Position = Position(
    symbol: string,
    entryTime: real,
    entryPrice: Option<real>,
    qty: Option<real>,
    pyramidCount: int,
    avgdownCount: int,
    status: string)

  /** The record `open_position` builds from an order filled at time `now`. */
  function NewPosition(order: OrderResult, now: real): (p: Position)
    ensures p.symbol == order.symbol && p.entryTime == now
    ensures p.entryPrice == order.price && p.qty == order.qty
    ensures p.pyramidCount == 0 && p.avgdownCount == 0 && p.status == "open"
  {
    Position(order.symbol, now, order.price, order.qty, 0, 0, "open")
  }

  /** What the hold loop logs for one record: its symbol and status. */
  function CheckedEntry(p: Position): (string, string) { (p.symbol, p.status) }

  class PositionManager {
    var positions: seq<Position>

    constructor ()
      ensures positions == []
    {
      positions := [];
    }

    /** `open_position`: appends exactly one record, opened at `now`. */
    method OpenPosition(order: OrderResult, now: real)
      modifies this
      ensures positions == old(positions) + [NewPosition(order, now)]
    {
      positions := positions + [NewPosition(order, now)];
    }

    /**
     * `hold_loop`: visits every record in order and logs its symbol and
     * status; it changes neither the list nor any record.
     */
    method HoldLoop() returns (checked: seq<(string, string)>)
      ensures |checked| == |positions|
      ensures forall i :: 0 <= i < |positions| ==> checked[i] == CheckedEntry(positions[i])
    {
      checked := [];
      var i := 0;
      while i < |positions|
        invariant 0 <= i <= |positions|
        invariant |checked| == i
        invariant forall k :: 0 <= k < i ==> checked[k] == CheckedEntry(positions[k])
      {
        checked := checked + [CheckedEntry(positions[i])];
        i := i + 1;
      }
    }
  }
}
