/**
 * The dashboard's live log table (`static/js/dashboard.js`): the log list
 * loaded from `/api/logs`, kept newest first and at most twenty long as
 * `log` events arrive, and rendered into the `logBody` table.
 *
 * `logList` holds whatever JavaScript value was last assigned to it (None
 * for `undefined`): the load assigns the reply's `logs` as it is. What the
 * page's `fetchJsonRetry` gives is the parameter `reply`, None where it
 * throws.
 */
module DashboardJs {
  import opened Common
  import opened MainJs

  /** The most entries the table keeps. */
  const Keep := 20

  const NoLogs := "없음"

  datatype LogRow = LogRow(time: string, kind: string, action: string, coin: string, price: string, amount: string)

  /** The table's contents: the single '없음' row, or one row per log. */
  datatype LogView = Placeholder | Rows(rows: seq<LogRow>)

  /** `${l.field || ''}`. */
  function OrEmpty(v: Option<Json>, show: Show): string
  {
    if JsTruthy(v) then Interp(v, show) else ""
  }

  /** `l.field !== undefined ? formatNumber(l.field) : ''`: null is defined, and is shown by `formatNumber` as 'null'. */
  function Amount(v: Option<Json>, parseFloat: Option<Json> -> Option<real>, locale: real -> string, show: Show): string
  {
    if v.Some? then FormatNumber(v, parseFloat, locale, show) else ""
  }

  function LogRowOf(l: Obj, parseFloat: Option<Json> -> Option<real>, locale: real -> string, show: Show): LogRow
  {
    LogRow(Interp(Member(l, "time"), show), Interp(Member(l, "type"), show),
           OrEmpty(Member(l, "action"), show), OrEmpty(Member(l, "coin"), show),
           Amount(Member(l, "price"), parseFloat, locale, show), Amount(Member(l, "amount"), parseFloat, locale, show))
  }

  function LogRows(list: seq<Obj>, parseFloat: Option<Json> -> Option<real>, locale: real -> string, show: Show): (r: seq<LogRow>)
    ensures |r| == |list|
    ensures forall k :: 0 <= k < |list| ==> r[k] == LogRowOf(list[k], parseFloat, locale, show)
  {
    if list == [] then [] else [LogRowOf(list[0], parseFloat, locale, show)] + LogRows(list[1..], parseFloat, locale, show)
  }

  /**
   * `updateLogTable(list)` for any value of `list`: None where it throws.
   * An array renders its entries (an empty one the placeholder); a value
   * whose `length` is falsy (an empty string, a number, an object without
   * one) renders the placeholder; undefined, null, and a value with a
   * truthy `length` but no `map` throw.
   */
  function LogTableOf(list: Option<Json>, parseFloat: Option<Json> -> Option<real>, locale: real -> string, show: Show): Option<LogView>
  {
    match list
    case None => None
    case Some(JNull) => None
    case Some(JList(items)) =>
      if items == [] then Some(Placeholder)
      else (match Entries(items)
            case Some(logs) => Some(Rows(LogRows(logs, parseFloat, locale, show)))
            case None => None)
    case Some(JText(s, _)) => if s == "" then Some(Placeholder) else None
    case Some(JObject(f)) => if JsTruthy(Member(f, "length")) then None else Some(Placeholder)
    case Some(_) => Some(Placeholder)
  }

  /** An array of log objects renders one row per log, in order; an empty one the placeholder. */
  lemma LogTableOfList(items: seq<Json>, parseFloat: Option<Json> -> Option<real>, locale: real -> string, show: Show)
    requires forall k :: 0 <= k < |items| ==> items[k].JObject?
    ensures items == [] ==> LogTableOf(Some(JList(items)), parseFloat, locale, show) == Some(Placeholder)
    ensures items != [] ==>
      var t := LogTableOf(Some(JList(items)), parseFloat, locale, show);
      t.Some? && t.value.Rows? && |t.value.rows| == |items|
      && forall k :: 0 <= k < |items| ==> t.value.rows[k] == LogRowOf(items[k].fields, parseFloat, locale, show)
  {
  }

  /** Missing action and coin show as empty cells; a missing price or amount too, but a null one shows as `formatNumber(null)`. */
  lemma EmptyCells(l: Obj, parseFloat: Option<Json> -> Option<real>, locale: real -> string, show: Show)
    ensures "action" !in l ==> LogRowOf(l, parseFloat, locale, show).action == ""
    ensures "coin" !in l ==> LogRowOf(l, parseFloat, locale, show).coin == ""
    ensures "price" !in l ==> LogRowOf(l, parseFloat, locale, show).price == ""
    ensures "price" in l && l["price"] == JNull && parseFloat(Some(JNull)).None? ==>
      LogRowOf(l, parseFloat, locale, show).price == show(JNull)
  {
  }

  /** The new `logList` of a `log` event, None where `unshift` throws because the list is not an array. */
  function Pushed(logList: Option<Json>, log: Json): Option<seq<Json>>
  {
    if logList.Some? && logList.value.JList? then Some(Head([log] + logList.value.items, Keep)) else None
  }

  /** The newest log first, the earlier ones after it in order, and never more than twenty. */
  lemma PushedKeepsNewest(items: seq<Json>, log: Json)
    ensures var r := Pushed(Some(JList(items)), log).value;
      |r| == Min(|items| + 1, Keep) && r[0] == log
      && forall k :: 1 <= k < |r| ==> r[k] == items[k - 1]
  {
    var r := Pushed(Some(JList(items)), log).value;
    forall k | 1 <= k < |r| ensures r[k] == items[k - 1] {
      assert r[k] == ([log] + items)[k];
    }
  }

  /** The table's element and the script's `logList`. */
  class LogBoard {
    var logList: Option<Json>
    var body: Option<LogView>
    var consoleErrors: nat

    /** The page's start: an empty list and whatever the table shows. */
    constructor (hasBody: bool)
      ensures logList == Some(JList([])) && consoleErrors == 0
      ensures hasBody ==> body == Some(Placeholder)
      ensures !hasBody ==> body == None
    {
      logList := Some(JList([]));
      body := if hasBody then Some(Placeholder) else None;
      consoleErrors := 0;
    }

    /** `updateLogTable(logList)`; an exception is caught by the caller and logged to the console. */
    method Render(parseFloat: Option<Json> -> Option<real>, locale: real -> string, show: Show) returns (raised: bool)
      modifies this
      ensures raised <==> old(body).Some? && LogTableOf(logList, parseFloat, locale, show).None?
      ensures old(body).Some? && !raised ==> body == LogTableOf(logList, parseFloat, locale, show)
      ensures old(body).None? || raised ==> body == old(body)
      ensures logList == old(logList) && consoleErrors == old(consoleErrors)
    {
      raised := false;
      if body.Some? {
        var t := LogTableOf(logList, parseFloat, locale, show);
        if t.None? {
          return true;
        }
        body := t;
      }
    }

    /**
     * `loadLogs`: a reply with result 'success' replaces the list by its
     * `logs`, whatever that is, and renders it; any other reply changes
     * nothing; an exception, from the fetch or the render, is logged to the
     * console.
     */
    method LoadLogs(reply: Option<Json>, parseFloat: Option<Json> -> Option<real>, locale: real -> string, show: Show)
      modifies this
      ensures reply.None? ==> logList == old(logList) && body == old(body) && consoleErrors == old(consoleErrors) + 1
      ensures reply.Some? && !(JsTruthy(reply) && IsText(Prop(reply.value, "result").value, "success")) ==>
        logList == old(logList) && body == old(body) && consoleErrors == old(consoleErrors)
      ensures reply.Some? && JsTruthy(reply) && IsText(Prop(reply.value, "result").value, "success") ==>
        logList == Prop(reply.value, "logs").value
        && (old(body).Some? && LogTableOf(logList, parseFloat, locale, show).Some? ==>
              body == LogTableOf(logList, parseFloat, locale, show) && consoleErrors == old(consoleErrors))
        && (old(body).Some? && LogTableOf(logList, parseFloat, locale, show).None? ==>
              body == old(body) && consoleErrors == old(consoleErrors) + 1)
        && (old(body).None? ==> body == None && consoleErrors == old(consoleErrors))
    {
      if reply.None? {
        consoleErrors := consoleErrors + 1;
        return;
      }
      var data := reply.value;
      if JsTruthy(reply) && IsText(Prop(data, "result").value, "success") {
        logList := Prop(data, "logs").value;
        var raised := Render(parseFloat, locale, show);
        if raised {
          consoleErrors := consoleErrors + 1;
        }
      }
    }

    /**
     * The `log` socket event: the entry goes in front, the list is cut to
     * twenty, and the table is rendered again. A list that is not an array
     * makes `unshift` throw, and nothing changes.
     */
    method OnLog(log: Json, parseFloat: Option<Json> -> Option<real>, locale: real -> string, show: Show) returns (raised: bool)
      modifies this
      ensures Pushed(old(logList), log).None? ==> raised && logList == old(logList) && body == old(body)
      ensures Pushed(old(logList), log).Some? ==>
        logList == Some(JList(Pushed(old(logList), log).value))
        && (raised <==> old(body).Some? && LogTableOf(logList, parseFloat, locale, show).None?)
        && (old(body).Some? && !raised ==> body == LogTableOf(logList, parseFloat, locale, show))
        && (old(body).None? || raised ==> body == old(body))
      ensures consoleErrors == old(consoleErrors)
    {
      var next := Pushed(logList, log);
      if next.None? {
        return true;
      }
      logList := Some(JList(next.value));
      raised := Render(parseFloat, locale, show);
    }
  }

  /** However many events arrive, an array list stays an array of at most twenty entries, newest first. */
  method LogsStayBounded(board: LogBoard, logs: seq<Json>, parseFloat: Option<Json> -> Option<real>, locale: real -> string, show: Show)
    requires board.logList.Some? && board.logList.value.JList? && |board.logList.value.items| <= Keep
    modifies board
    ensures board.logList.Some? && board.logList.value.JList? && |board.logList.value.items| <= Keep
    ensures logs != [] ==> board.logList.value.items != [] && board.logList.value.items[0] == logs[|logs| - 1]
  {
    var i := 0;
    while i < |logs|
      invariant 0 <= i <= |logs|
      invariant board.logList.Some? && board.logList.value.JList? && |board.logList.value.items| <= Keep
      invariant i > 0 ==> board.logList.value.items != [] && board.logList.value.items[0] == logs[i - 1]
    {
      PushedKeepsNewest(board.logList.value.items, logs[i]);
      var _ := board.OnLog(logs[i], parseFloat, locale, show);
      i := i + 1;
    }
  }
}
