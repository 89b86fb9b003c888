/**
 * The strategy settings page (`static/js/strategy.js`): the strategy table
 * loaded from `/api/strategies` (or twenty-five defaults when that fails),
 * sorted by priority, the master toggle, saving the rows back, and
 * restoring the defaults.
 *
 * The table's rows hold what the inputs hold: the toggle's state and the
 * texts of the name, the two conditions and the priority. `String(n)` and
 * unary `+` on the priority text are the parameters `showNum` and `number`
 * (None for NaN); the clock's readings are parameters too.
 */
module StrategyJs {
  import opened Common
  import MainJs

  /** A strategy as the API sends it. */
  datatype Strategy = Strategy(active: bool, name: string, buy: string, sell: string, priority: real)

  /** A row of the table, as its inputs hold it. */
  datatype Row = Row(active: bool, name: string, buy: string, sell: string, priority: string)

  /** A row as the save posts it. */
  datatype Saved = Saved(active: bool, name: string, buy: string, sell: string, priority: real, updated: string)

  /** The requests the page sends. */
  datatype Post = SaveRows(rows: seq<Saved>) | RestoreDefaults | FetchList

  /** What a `fetch` gives: a rejected promise, or a response that is or is not `ok`. */
  datatype Response = Rejected | Status(ok: bool)

  const Moderate := "중도적"

  const DefaultNames: seq<string> := [
    "M-BREAK", "VOL-BRK", "RSI-PULL", "ADX-TREND", "MA-CROSS",
    "Boll-BB", "KDJ-OSC", "MACD-BOOST", "CCI-REV", "OBV-PEAK",
    "TEMA-PUMP", "Ichimoku", "SAR-SWING", "FIBO-PIVOT", "HTF-ALIGN",
    "VWAP-EDGE", "ROC-MOM", "ATR-STOP", "STOCH-RDY", "KD-RANGE",
    "PSAR-TRAIL", "BB-BREAK", "VOL-EXP", "ADX-DM", "RSI-BIAS"]

  /** The default entries: inactive, both conditions moderate, numbered by position from 1. */
  function Defaults(names: seq<string>): (r: seq<Strategy>)
    ensures |r| == |names|
    ensures forall k :: 0 <= k < |names| ==> r[k] == Strategy(false, names[k], Moderate, Moderate, (k + 1) as real)
  {
    seq(|names|, k requires 0 <= k < |names| => Strategy(false, names[k], Moderate, Moderate, (k + 1) as real))
  }

  function Priority(s: Strategy): real { s.priority }

  /** `init`: the fetched array, or the defaults when the fetch fails, is not `ok`, or its JSON is falsy. */
  function Initial(fetched: Option<seq<Strategy>>): seq<Strategy>
  {
    if fetched.Some? then fetched.value else Defaults(DefaultNames)
  }

  /** Twenty-five defaults, inactive, already in priority order, so sorting them changes nothing. */
  lemma DefaultTable()
    ensures |Initial(None)| == 25
    ensures forall k :: 0 <= k < 25 ==> Initial(None)[k].priority == (k + 1) as real && !Initial(None)[k].active
    ensures SortBy(Initial(None), Priority) == Initial(None)
  {
    var d := Defaults(DefaultNames);
    assert ChainedBy(d, Priority) by {
      forall i | 0 <= i < |d| - 1 ensures Priority(d[i]) <= Priority(d[i + 1]) {
        assert d[i].priority == (i + 1) as real && d[i + 1].priority == (i + 2) as real;
      }
    }
    SortFixed(d, Priority);
  }

  /** An empty array is truthy: it is rendered empty, not replaced by the defaults. */
  lemma EmptyListIsKept()
    ensures Initial(Some([])) == []
  {
  }

  /** `makeRow`. */
  function MakeRow(o: Strategy, showNum: real -> string): Row
  {
    Row(o.active, o.name, o.buy, o.sell, showNum(o.priority))
  }

  function MakeRows(s: seq<Strategy>, showNum: real -> string): (r: seq<Row>)
    ensures |r| == |s|
    ensures forall k :: 0 <= k < |s| ==> r[k] == MakeRow(s[k], showNum)
  {
    seq(|s|, k requires 0 <= k < |s| => MakeRow(s[k], showNum))
  }

  /** `applyToggleAll`: every toggle set to the master toggle's state. */
  function Toggled(rows: seq<Row>, on: bool): (r: seq<Row>)
    ensures |r| == |rows|
    ensures forall k :: 0 <= k < |rows| ==> r[k] == rows[k].(active := on)
  {
    seq(|rows|, k requires 0 <= k < |rows| => rows[k].(active := on))
  }

  /** `+text || 99`: the number the text reads as, and 99 for 0, NaN, or text that is not a number. */
  function SavedPriority(text: string, number: string -> Option<real>): (r: real)
    ensures number(text).Some? && number(text).value != 0.0 ==> r == number(text).value
    ensures number(text).None? || number(text) == Some(0.0) ==> r == 99.0
  {
    match number(text)
    case Some(n) => if n != 0.0 then n else 99.0
    case None => 99.0
  }

  /** The rows as posted: row `k` stamped with the clock's reading at that row. */
  function SavedRows(rows: seq<Row>, number: string -> Option<real>, iso: nat -> string): (r: seq<Saved>)
    ensures |r| == |rows|
    ensures forall k :: 0 <= k < |rows| ==>
      r[k] == Saved(rows[k].active, rows[k].name, rows[k].buy, rows[k].sell, SavedPriority(rows[k].priority, number), iso(k))
  {
    seq(|rows|, k requires 0 <= k < |rows| =>
      Saved(rows[k].active, rows[k].name, rows[k].buy, rows[k].sell, SavedPriority(rows[k].priority, number), iso(k)))
  }

  /**
   * Saving a freshly rendered table posts each strategy back in priority
   * order with its name, conditions and priority as loaded (a priority of 0
   * comes back as 99), but with the master toggle's state as `active`.
   */
  lemma RenderThenSave(loaded: seq<Strategy>, on: bool, showNum: real -> string, number: string -> Option<real>, iso: nat -> string)
    requires forall p :: number(showNum(p)) == Some(p)
    ensures var sorted := SortBy(loaded, Priority);
      var saved := SavedRows(Toggled(MakeRows(sorted, showNum), on), number, iso);
      |saved| == |loaded|
      && (forall k :: 0 <= k < |saved| ==>
            saved[k].active == on && saved[k].name == sorted[k].name
            && saved[k].buy == sorted[k].buy && saved[k].sell == sorted[k].sell
            && saved[k].priority == (if sorted[k].priority != 0.0 then sorted[k].priority else 99.0))
      && multiset(sorted) == multiset(loaded) && SortedBy(sorted, Priority)
  {
    var sorted := SortBy(loaded, Priority);
    var rows := Toggled(MakeRows(sorted, showNum), on);
    forall k | 0 <= k < |rows| ensures SavedPriority(rows[k].priority, number) == (if sorted[k].priority != 0.0 then sorted[k].priority else 99.0) {
      assert rows[k].priority == showNum(sorted[k].priority);
      assert number(showNum(sorted[k].priority)) == Some(sorted[k].priority);
    }
  }

  /** The table, the master toggle, the 'last saved' text, and what the page has shown and sent. */
  class StrategyPage {
    var rows: seq<Row>
    var toggleAll: bool
    var lastSaved: string
    var alerts: seq<MainJs.Alert>
    var dispatched: seq<seq<Saved>>
    var sent: seq<Post>

    /** `applyToggleAll`, one toggle at a time. */
    method ApplyToggleAll()
      modifies this
      ensures rows == Toggled(old(rows), toggleAll)
      ensures toggleAll == old(toggleAll) && lastSaved == old(lastSaved)
      ensures alerts == old(alerts) && dispatched == old(dispatched) && sent == old(sent)
    {
      var i := 0;
      while i < |rows|
        invariant 0 <= i <= |rows| == |old(rows)|
        invariant forall k :: 0 <= k < i ==> rows[k] == old(rows)[k].(active := toggleAll)
        invariant forall k :: i <= k < |rows| ==> rows[k] == old(rows)[k]
        invariant toggleAll == old(toggleAll) && lastSaved == old(lastSaved)
        invariant alerts == old(alerts) && dispatched == old(dispatched) && sent == old(sent)
      {
        rows := rows[i := rows[i].(active := toggleAll)];
        i := i + 1;
      }
    }

    /** The master toggle's `change` event. */
    method ChangeToggleAll(on: bool)
      modifies this
      ensures toggleAll == on && rows == Toggled(old(rows), on)
      ensures lastSaved == old(lastSaved) && alerts == old(alerts) && dispatched == old(dispatched) && sent == old(sent)
    {
      toggleAll := on;
      ApplyToggleAll();
    }

    /**
     * `renderTable`: the array is sorted in place by priority (stably), the
     * table rebuilt from it in that order with every toggle set to the
     * master toggle, and the 'last saved' text set to the clock.
     */
    method RenderTable(arr: array<Strategy>, showNum: real -> string, now: string)
      modifies this, arr
      ensures arr[..] == SortBy(old(arr[..]), Priority)
      ensures rows == Toggled(MakeRows(arr[..], showNum), toggleAll)
      ensures lastSaved == now && toggleAll == old(toggleAll)
      ensures alerts == old(alerts) && dispatched == old(dispatched) && sent == old(sent)
    {
      var sorted := SortBy(arr[..], Priority);
      forall i | 0 <= i < arr.Length {
        arr[i] := sorted[i];
      }
      assert arr[..] == sorted;
      rows := MakeRows(sorted, showNum);
      lastSaved := now;
      ApplyToggleAll();
    }

    /** `init`: the fetched array, or the defaults, rendered. */
    method Init(fetched: Option<seq<Strategy>>, showNum: real -> string, now: string)
      modifies this
      ensures rows == Toggled(MakeRows(SortBy(Initial(fetched), Priority), showNum), toggleAll)
      ensures lastSaved == now && toggleAll == old(toggleAll)
      ensures alerts == old(alerts) && dispatched == old(dispatched)
      ensures sent == old(sent) + [FetchList]
    {
      sent := sent + [FetchList];
      var data := Initial(fetched);
      var arr := new Strategy[|data|](k requires 0 <= k < |data| => data[k]);
      assert arr[..] == data;
      RenderTable(arr, showNum, now);
    }

    /**
     * The save button: the rows are posted; an `ok` response shows
     * '저장되었습니다.', announces the rows and updates 'last saved'; any
     * other response shows '저장 실패'; a rejected request does nothing more.
     */
    method Save(number: string -> Option<real>, iso: nat -> string, response: Response, now: string)
      modifies this
      ensures sent == old(sent) + [SaveRows(SavedRows(old(rows), number, iso))]
      ensures rows == old(rows) && toggleAll == old(toggleAll)
      ensures response == Status(true) ==>
        alerts == old(alerts) + [MainJs.Alert("저장되었습니다.", "알림")]
        && dispatched == old(dispatched) + [SavedRows(old(rows), number, iso)] && lastSaved == now
      ensures response == Status(false) ==>
        alerts == old(alerts) + [MainJs.Alert("저장 실패", "에러")] && dispatched == old(dispatched) && lastSaved == old(lastSaved)
      ensures response == Rejected ==>
        alerts == old(alerts) && dispatched == old(dispatched) && lastSaved == old(lastSaved)
    {
      var saved := SavedRows(rows, number, iso);
      sent := sent + [SaveRows(saved)];
      match response {
        case Rejected =>
        case Status(ok) =>
          if ok {
            alerts := alerts + [MainJs.Alert("저장되었습니다.", "알림")];
            dispatched := dispatched + [saved];
            lastSaved := now;
          } else {
            alerts := alerts + [MainJs.Alert("저장 실패", "에러")];
          }
      }
    }

    /**
     * The restore button: nothing without confirmation; an `ok` restore
     * fetches the list again, renders it and shows '복원 완료'; any other
     * response shows '복원 실패'.
     */
    method Restore(answer: bool, response: Response, list: Option<seq<Strategy>>, showNum: real -> string, now: string)
      modifies this
      ensures !answer ==> sent == old(sent) && rows == old(rows) && alerts == old(alerts) && lastSaved == old(lastSaved)
      ensures answer ==> |sent| > |old(sent)| && sent[|old(sent)|] == RestoreDefaults
      ensures answer && response == Status(true) && list.Some? ==>
        sent == old(sent) + [RestoreDefaults, FetchList]
        && rows == Toggled(MakeRows(SortBy(list.value, Priority), showNum), toggleAll)
        && alerts == old(alerts) + [MainJs.Alert("복원 완료", "알림")] && lastSaved == now
      ensures answer && response == Status(false) ==>
        sent == old(sent) + [RestoreDefaults] && rows == old(rows)
        && alerts == old(alerts) + [MainJs.Alert("복원 실패", "에러")]
      ensures answer && (response == Rejected || (response == Status(true) && list.None?)) ==>
        rows == old(rows) && alerts == old(alerts) && lastSaved == old(lastSaved)
      ensures toggleAll == old(toggleAll) && dispatched == old(dispatched)
    {
      if !answer {
        return;
      }
      sent := sent + [RestoreDefaults];
      match response {
        case Rejected =>
        case Status(ok) =>
          if ok {
            sent := sent + [FetchList];
            if list.Some? {
              var data := list.value;
              var arr := new Strategy[|data|](k requires 0 <= k < |data| => data[k]);
              assert arr[..] == data;
              RenderTable(arr, showNum, now);
              alerts := alerts + [MainJs.Alert("복원 완료", "알림")];
            }
          } else {
            alerts := alerts + [MainJs.Alert("복원 실패", "에러")];
          }
      }
    }
  }

  /** The master toggle decides every row's state after a render, whatever the loaded `active` says. */
  lemma ToggleOverridesLoaded(loaded: seq<Strategy>, on: bool, showNum: real -> string)
    ensures var rows := Toggled(MakeRows(SortBy(loaded, Priority), showNum), on);
      forall k :: 0 <= k < |rows| ==> rows[k].active == on
  {
  }
}
