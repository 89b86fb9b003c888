/**
 * The dashboard's shared script (`static/js/main.js`): the confirmation
 * modal, `callApi`, the delegated `data-api` click handler, the position,
 * alert, balance, signal, status and account views, and the refresh buttons.
 *
 * JavaScript values are `Json` values, with None for `undefined`;
 * `show` is the text a template literal gives a value (`${v}`). What
 * `fetch` and `resp.json()` produce is the parameter `outcome`. The DOM is
 * a view-model: each element the script writes is a field holding its
 * rows or text, None where the page has no such element.
 */
module MainJs {
  import opened Common

  type Obj = map<string, Json>

  type Show = Json -> string

  // ------------------------------------------------------------ JavaScript values

  /** JavaScript truthiness, `undefined` being None: unlike Python, empty arrays and objects are true. */
  predicate JsTruthy(v: Option<Json>)
  {
    match v
    case None => false
    case Some(JNull) => false
    case Some(JBool(b)) => b
    case Some(JNum(n)) => n != 0.0
    case Some(JText(s, _)) => s != ""
    case Some(JList(_)) => true
    case Some(JObject(_)) => true
  }

  /** `v.key`: None where it throws (on null), `undefined` for a missing key or a value without properties. */
  function Prop(v: Json, key: string): Option<Option<Json>>
  {
    match v
    case JNull => None
    case JObject(f) => Some(if key in f then Some(f[key]) else None)
    case _ => Some(None)
  }

  /** `${v}`. */
  function Interp(v: Option<Json>, show: Show): string
  {
    if v.Some? then show(v.value) else "undefined"
  }

  /**
   * `el.textContent = v`: the attribute is a nullable string, so undefined
   * and null leave the element empty; any other value is converted as `${v}`.
   */
  function TextContent(v: Option<Json>, show: Show): (r: string)
    ensures v.None? || v == Some(JNull) ==> r == ""
    ensures v.Some? && v.value != JNull ==> r == Interp(v, show)
  {
    if v.None? || v.value == JNull then "" else show(v.value)
  }

  /** `x === 'text'`. */
  predicate IsText(v: Option<Json>, t: string) { v.Some? && v.value.JText? && v.value.s == t }

  /** The object a list entry's properties are read from; None for null, where reading one throws. */
  function Entries(items: seq<Json>): (r: Option<seq<Obj>>)
    ensures r.Some? <==> forall k :: 0 <= k < |items| ==> items[k] != JNull
    ensures r.Some? ==> |r.value| == |items|
    ensures r.Some? ==> forall k :: 0 <= k < |items| && items[k].JObject? ==> r.value[k] == items[k].fields
  {
    if items == [] then Some([])
    else if items[0] == JNull then None
    else
      match Entries(items[1..])
      case None => None
      case Some(rest) => Some([if items[0].JObject? then items[0].fields else map[]] + rest)
  }

  function Member(o: Obj, key: string): Option<Json> { if key in o then Some(o[key]) else None }

  // ------------------------------------------------------------ showConfirm

  datatype Button = Ok | Cancel

  /** `showConfirm`: `window.confirm`'s answer without a modal, else whether OK was pressed. */
  function ShowConfirm(hasModal: bool, windowAnswer: bool, pressed: Button): bool
  {
    if !hasModal then windowAnswer else pressed == Ok
  }

  /** The confirmation modal's state: its text, the listeners on its buttons, and whether it is shown. */
  class ConfirmModal {
    var body: string
    var listeners: set<Button>
    var visible: bool

    constructor ()
      ensures listeners == {} && !visible
    {
      body := "";
      listeners := {};
      visible := false;
    }

    /** The promise's executor: the message is shown and one listener put on each button. */
    method Open(message: string)
      modifies this
      ensures body == message && listeners == {Ok, Cancel} && visible
    {
      body := message;
      listeners := {Ok, Cancel};
      visible := true;
    }

    /** `ok` or `cancel`: both listeners are removed, the modal hidden, and the promise resolved. */
    method Press(b: Button) returns (answer: bool)
      requires b in listeners
      modifies this
      ensures answer == ShowConfirm(true, false, b)
      ensures listeners == {} && !visible && body == old(body)
    {
      listeners := {};
      visible := false;
      answer := b == Ok;
    }
  }

  /** Either answer is a full round: open, press, and no listener is left behind. */
  method ConfirmRound(modal: ConfirmModal, message: string, b: Button) returns (answer: bool)
    modifies modal
    ensures answer <==> b == Ok
    ensures modal.listeners == {} && !modal.visible && modal.body == message
  {
    modal.Open(message);
    answer := modal.Press(b);
  }

  /** The modal decides when there is one; otherwise the browser's confirm does. */
  lemma ConfirmAnswers(hasModal: bool, windowAnswer: bool, pressed: Button)
    ensures hasModal ==> (ShowConfirm(hasModal, windowAnswer, pressed) <==> pressed == Ok)
    ensures !hasModal ==> ShowConfirm(hasModal, windowAnswer, pressed) == windowAnswer
  {
  }

  // ------------------------------------------------------------ callApi

  /** A request as `fetch` sends it: the body is the form data as JSON, absent for no data. */
  datatype Request = Request(url: string, verb: string, body: Option<map<string, string>>)

  datatype Alert = Alert(message: string, title: string)

  const ConnectionError := "서버 연결 오류. 네트워크 또는 서버를 확인해 주세요."

  function ConnectionAlert(): Alert { Alert(ConnectionError, "에러") }

  /** What the network gives: no response, a body that is not JSON, or the parsed JSON. */
  datatype FetchOutcome = NetworkError | NotJson | Parsed(v: Json)

  /** One call: the request sent, the alerts shown, and the value returned (None for `null`). */
  datatype ApiCall = ApiCall(request: Request, alerts: seq<Alert>, result: Option<Json>)

  /** `callApi(url, data, method)`. */
  function CallApi(url: string, data: Option<map<string, string>>, verb: string,
                   outcome: FetchOutcome, show: Show): ApiCall
  {
    var request := Request(url, verb, data);
    match outcome
    case Parsed(v) =>
      (match Prop(v, "message")
       case None => ApiCall(request, [ConnectionAlert()], None)
       case Some(m) => ApiCall(request, if JsTruthy(m) then [Alert(show(m.value), "알림")] else [], Some(v)))
    case _ => ApiCall(request, [ConnectionAlert()], None)
  }

  /**
   * One request is sent whatever happens. A parsed reply is returned, and
   * its message shown whenever it has one, success or not; a network or
   * parse failure (or a `null` reply) shows the connection alert and returns
   * null. There is no second attempt.
   */
  lemma CallApiOutcomes(url: string, data: Option<map<string, string>>, verb: string,
                        outcome: FetchOutcome, show: Show)
    ensures var c := CallApi(url, data, verb, outcome, show);
      c.request == Request(url, verb, data)
      && (outcome.NetworkError? || outcome.NotJson? || outcome == Parsed(JNull) ==>
            c.result.None? && c.alerts == [ConnectionAlert()])
      && (forall f :: outcome == Parsed(JObject(f)) ==>
            c.result == Some(JObject(f))
            && (JsTruthy(Member(f, "message")) ==> c.alerts == [Alert(show(f["message"]), "알림")])
            && (!JsTruthy(Member(f, "message")) ==> c.alerts == []))
  {
  }

  // ------------------------------------------------------------ the delegated data-api handler

  /**
   * The element a click reaches: its `data-*` attributes in order, the
   * fields of its form (None without one), and whether it is a button that
   * was on the page when the script ran (and so also has its own listener).
   */
  datatype Clicked = Clicked(dataset: seq<(string, string)>, form: Option<seq<(string, string)>>, atLoad: bool)

  /** `Object.fromEntries`: a later entry for a key wins. */
  function FromEntries(entries: seq<(string, string)>): map<string, string>
    decreases |entries|
  {
    if entries == [] then map[]
    else FromEntries(entries[..|entries| - 1])[entries[|entries| - 1].0 := entries[|entries| - 1].1]
  }

  /** The `forEach` over `btn.dataset`: every entry but `api` overrides the form's field. */
  function Overlay(data: map<string, string>, dataset: seq<(string, string)>): map<string, string>
    decreases |dataset|
  {
    if dataset == [] then data
    else
      var (k, v) := dataset[0];
      Overlay(if k != "api" then data[k := v] else data, dataset[1..])
  }

  /** The payload the delegated handler sends. */
  function Payload(b: Clicked): map<string, string>
  {
    Overlay(if b.form.Some? then FromEntries(b.form.value) else map[], b.dataset)
  }

  /** The last value of `key` among the entries, if any. */
  function LastValue(entries: seq<(string, string)>, key: string): Option<string>
    decreases |entries|
  {
    if entries == [] then None
    else if entries[|entries| - 1].0 == key then Some(entries[|entries| - 1].1)
    else LastValue(entries[..|entries| - 1], key)
  }

  lemma {:induction false} FromEntriesLast(entries: seq<(string, string)>, key: string)
    ensures key in FromEntries(entries) <==> LastValue(entries, key).Some?
    ensures key in FromEntries(entries) ==> FromEntries(entries)[key] == LastValue(entries, key).value
    decreases |entries|
  {
    if entries != [] {
      FromEntriesLast(entries[..|entries| - 1], key);
    }
  }

  /** The last value of `key` among `rest`, or `before` when `rest` has none. */
  function LastOr(rest: seq<(string, string)>, key: string, before: Option<string>): Option<string>
  {
    var l := LastValue(rest, key);
    if l.Some? then l else before
  }

  lemma {:induction false} LastValueCons(e: (string, string), rest: seq<(string, string)>, key: string)
    ensures LastValue([e] + rest, key) == LastOr(rest, key, if e.0 == key then Some(e.1) else None)
    decreases |rest|
  {
    if rest != [] {
      var s := [e] + rest;
      assert s[..|s| - 1] == [e] + rest[..|rest| - 1];
      LastValueCons(e, rest[..|rest| - 1], key);
    } else {
      assert [e] + rest == [e];
      assert ([e] + rest)[..0] == [];
    }
  }

  lemma {:induction false} OverlayValue(data: map<string, string>, dataset: seq<(string, string)>, key: string)
    requires key != "api"
    ensures var r := Overlay(data, dataset);
      var before := if key in data then Some(data[key]) else None;
      (key in r <==> LastOr(dataset, key, before).Some?)
      && (key in r ==> r[key] == LastOr(dataset, key, before).value)
    decreases |dataset|
  {
    if dataset != [] {
      var (k, v) := dataset[0];
      var data' := if k != "api" then data[k := v] else data;
      OverlayValue(data', dataset[1..], key);
      LastValueCons(dataset[0], dataset[1..], key);
      assert [dataset[0]] + dataset[1..] == dataset;
    }
  }

  lemma {:induction false} OverlayApi(data: map<string, string>, dataset: seq<(string, string)>)
    ensures "api" in Overlay(data, dataset) <==> "api" in data
    ensures "api" in data ==> Overlay(data, dataset)["api"] == data["api"]
    decreases |dataset|
  {
    if dataset != [] {
      var (k, v) := dataset[0];
      OverlayApi(if k != "api" then data[k := v] else data, dataset[1..]);
    }
  }

  /**
   * The payload: every `data-*` attribute but `api` overrides the form
   * field of the same name (the last attribute wins); every other key keeps
   * the form's value; `api` is only ever what the form has.
   */
  lemma PayloadFields(b: Clicked, key: string)
    ensures var p := Payload(b);
      var form := if b.form.Some? then FromEntries(b.form.value) else map[];
      (key != "api" && LastValue(b.dataset, key).Some? ==> key in p && p[key] == LastValue(b.dataset, key).value)
      && (key != "api" && LastValue(b.dataset, key).None? ==> (key in p <==> key in form) && (key in p ==> p[key] == form[key]))
      && (key == "api" ==> (key in p <==> key in form) && (key in p ==> p[key] == form[key]))
  {
    var form := if b.form.Some? then FromEntries(b.form.value) else map[];
    if key == "api" {
      OverlayApi(form, b.dataset);
    } else {
      OverlayValue(form, b.dataset, key);
    }
  }

  /** The `forEach` over the dataset, entry by entry. */
  method RunPayload(b: Clicked) returns (data: map<string, string>)
    ensures data == Payload(b)
  {
    data := map[];
    if b.form.Some? {
      data := FromEntries(b.form.value);
    }
    ghost var start := data;
    var i := 0;
    while i < |b.dataset|
      invariant 0 <= i <= |b.dataset|
      invariant Overlay(start, b.dataset) == Overlay(data, b.dataset[i..])
    {
      assert b.dataset[i..][1..] == b.dataset[i + 1..];
      var (k, v) := b.dataset[i];
      if k != "api" {
        data := data[k := v];
      }
      i := i + 1;
    }
    assert b.dataset[i..] == [];
  }

  /** The URLs whose success reloads the status. */
  predicate ReloadsStatus(api: string) { api == "/save" || api == "/api/save-settings" }

  function DataApi(b: Clicked): string { var a := LastValue(b.dataset, "api"); if a.Some? then a.value else "" }

  /** The requests one click sends through the delegated handler: none when the confirmation is declined. */
  function Delegated(b: Clicked, answer: bool, outcome: FetchOutcome, show: Show): seq<Request>
  {
    if JsTruthy(if LastValue(b.dataset, "confirm").Some? then Some(Text(LastValue(b.dataset, "confirm").value)) else None) && !answer then []
    else
      var api := DataApi(b);
      var call := CallApi(api, Some(Payload(b)), "POST", outcome, show);
      var success := call.result.Some? && Prop(call.result.value, "result").Some? && IsText(Prop(call.result.value, "result").value, "success");
      [call.request] + (if ReloadsStatus(api) && success then [Request("/api/status", "GET", None)] else [])
  }

  function Text(s: string): Json { JText(s, None) }

  /**
   * Every request one click sends: a button that was on the page when the
   * script ran first sends through its own listener — without asking, with
   * only its form's fields (or no body at all) — and then the delegated
   * handler sends again.
   */
  function ClickRequests(b: Clicked, answer: bool, own: FetchOutcome, outcome: FetchOutcome, show: Show): seq<Request>
  {
    var api := DataApi(b);
    var first := if b.atLoad && api != "" then [Request(api, "POST", if b.form.Some? then Some(FromEntries(b.form.value)) else None)] else [];
    first + Delegated(b, answer, outcome, show)
  }

  /** A declined confirmation sends nothing through the delegated handler. */
  lemma DeclinedSendsNothing(b: Clicked, outcome: FetchOutcome, show: Show)
    requires LastValue(b.dataset, "confirm").Some? && LastValue(b.dataset, "confirm").value != ""
    ensures Delegated(b, false, outcome, show) == []
  {
  }

  /**
   * The status is reloaded only after '/save' or '/api/save-settings'
   * answers with result 'success'; any other reply or URL sends just the one request.
   */
  lemma StatusReloadOnlyAfterSave(b: Clicked, outcome: FetchOutcome, show: Show)
    requires LastValue(b.dataset, "confirm").None?
    ensures var d := Delegated(b, true, outcome, show);
      d[0] == Request(DataApi(b), "POST", Some(Payload(b)))
      && (|d| == 2 <==>
            ReloadsStatus(DataApi(b)) && outcome.Parsed? && outcome.v.JObject?
            && IsText(Member(outcome.v.fields, "result"), "success"))
      && (|d| == 2 ==> d[1] == Request("/api/status", "GET", None))
      && 1 <= |d| <= 2
  {
  }

  /** A button present at load with a data-api and no confirmation sends twice per click. */
  lemma LoadedButtonSendsTwice(b: Clicked, own: FetchOutcome, outcome: FetchOutcome, show: Show)
    requires b.atLoad && DataApi(b) != "" && LastValue(b.dataset, "confirm").None?
    ensures var r := ClickRequests(b, true, own, outcome, show);
      |r| >= 2 && r[0].url == DataApi(b) && r[1].url == DataApi(b)
      && r[0].body == (if b.form.Some? then Some(FromEntries(b.form.value)) else None)
      && r[1].body == Some(Payload(b))
  {
  }

  /** Even when the confirmation is declined, the button's own listener has already sent. */
  lemma LoadedButtonIgnoresConfirmation(b: Clicked, own: FetchOutcome, outcome: FetchOutcome, show: Show)
    requires b.atLoad && DataApi(b) != ""
    requires LastValue(b.dataset, "confirm").Some? && LastValue(b.dataset, "confirm").value != ""
    ensures |ClickRequests(b, false, own, outcome, show)| == 1
  {
  }

  // ------------------------------------------------------------ the views

  /**
   * A row of the `positionBody` table: a numbered position from the socket,
   * or an unnumbered balance from `/api/balances`, which renders into the
   * same table. Its sell button carries the same coin text.
   */
  datatype PositionRow =
    | Position(number: nat, coin: string, entry: string, trendColor: string, trend: string, signal: string, caption: string)
    | Balance(coin: string, pnl: string, entry: string, trendColor: string, trend: string, signal: string, caption: string)

  datatype SignalRow = SignalRow(number: nat, coin: string, cells: seq<string>, signalClass: string, signal: string)

  function PositionRows(list: seq<Obj>, from: nat, show: Show): (r: seq<PositionRow>)
    ensures |r| == |list|
    ensures forall k :: 0 <= k < |list| ==>
      r[k].Position? && r[k].number == from + k + 1 && r[k].coin == Interp(Member(list[k], "coin"), show)
    decreases |list|
  {
    if list == [] then []
    else
      var p := list[0];
      [Position(from + 1, Interp(Member(p, "coin"), show), Interp(Member(p, "entry"), show),
                Interp(Member(p, "trend_color"), show), Interp(Member(p, "trend"), show),
                Interp(Member(p, "signal"), show), Interp(Member(p, "signal_label"), show))]
        + PositionRows(list[1..], from + 1, show)
  }

  /** One balance row of `updateBalanceTable`. */
  function BalanceRow(p: Obj, show: Show): (r: PositionRow)
    ensures r.Balance? && r.coin == Interp(Member(p, "coin"), show) && r.pnl == Interp(Member(p, "pnl"), show) + " %"
  {
    Balance(Interp(Member(p, "coin"), show), Interp(Member(p, "pnl"), show) + " %", Interp(Member(p, "entry"), show),
            Interp(Member(p, "trend_color"), show), Interp(Member(p, "trend"), show),
            Interp(Member(p, "signal"), show), Interp(Member(p, "signal_label"), show))
  }

  function BalanceRows(list: seq<Obj>, show: Show): (r: seq<PositionRow>)
    ensures |r| == |list|
    ensures forall k :: 0 <= k < |list| ==>
      r[k] == BalanceRow(list[k], show)
  {
    if list == [] then []
    else
      var head := BalanceRow(list[0], show);
      var rest := BalanceRows(list[1..], show);
      [head] + rest
  }

  function SignalRows(list: seq<Obj>, from: nat, show: Show): (r: seq<SignalRow>)
    ensures |r| == |list|
    ensures forall k :: 0 <= k < |list| ==> r[k].number == from + k + 1 && r[k].coin == Interp(Member(list[k], "coin"), show)
    decreases |list|
  {
    if list == [] then []
    else
      var s := list[0];
      var cells := [Interp(Member(s, "trend"), show), Interp(Member(s, "volatility"), show), Interp(Member(s, "volume"), show),
                    Interp(Member(s, "strength"), show), Interp(Member(s, "gc"), show), Interp(Member(s, "rsi"), show)];
      [SignalRow(from + 1, Interp(Member(s, "coin"), show), cells, Interp(Member(s, "signal_class"), show), Interp(Member(s, "signal"), show))]
        + SignalRows(list[1..], from + 1, show)
  }

  const WaitingAlerts := "실시간 알림 대기중......"

  function AlertLine(a: Obj, show: Show): string
  {
    "[" + Interp(Member(a, "time"), show) + "] " + Interp(Member(a, "message"), show)
  }

  /** The lines of the live-alert box: one "[time] message" per alert, or the waiting placeholder. */
  function AlertLines(list: seq<Obj>, show: Show): (r: seq<string>)
    ensures list == [] ==> r == [WaitingAlerts]
    ensures list != [] ==> |r| == |list| && forall k :: 0 <= k < |list| ==> r[k] == AlertLine(list[k], show)
  {
    if list == [] then [WaitingAlerts] else Lines(list, show)
  }

  function Lines(list: seq<Obj>, show: Show): (r: seq<string>)
    ensures |r| == |list| && forall k :: 0 <= k < |list| ==> r[k] == AlertLine(list[k], show)
  {
    if list == [] then [] else [AlertLine(list[0], show)] + Lines(list[1..], show)
  }

  /** What the refresh buttons do. */
  datatype Route = ReloadBalance | ReloadBuyMonitor | EmitRefresh(kind: string) | NoRoute

  /** 'balances' and 'signals' reload here; anything else asks the server, when there is a socket. */
  function RefreshRoute(kind: string, hasSocket: bool): (r: Route)
    ensures kind == "balances" ==> r == ReloadBalance
    ensures kind == "signals" ==> r == ReloadBuyMonitor
    ensures kind != "balances" && kind != "signals" ==> (r == EmitRefresh(kind) <==> hasSocket) && (r == NoRoute <==> !hasSocket)
  {
    if kind == "balances" then ReloadBalance
    else if kind == "signals" then ReloadBuyMonitor
    else if hasSocket then EmitRefresh(kind)
    else NoRoute
  }

  /** What a reload does with the reply: render the list, show the server's message, do nothing, or show the connection alert. */
  datatype Reload = Render(items: seq<Obj>) | ShowMessage(message: string) | Quiet | Connection

  /**
   * `reloadBalance` and `reloadBuyMonitor`: result 'success' with a truthy
   * payload renders it; otherwise a message is shown as an error; any
   * exception shows the connection alert. The table update returns before
   * `list.map` when the page has no table (`hasBody` false), so only with a
   * table does a payload that is not an array, or holds null, throw.
   */
  function ReloadOf(outcome: FetchOutcome, key: string, hasBody: bool, show: Show): Reload
  {
    if !outcome.Parsed? || outcome.v == JNull then Connection
    else
      var v := outcome.v;
      var payload := Prop(v, key).value;
      if IsText(Prop(v, "result").value, "success") && JsTruthy(payload) then
        (if payload.value.JList? then
           (match Entries(payload.value.items)
            case Some(items) => Render(items)
            case None => if hasBody then Connection else Quiet)
         else if hasBody then Connection else Quiet)
      else if JsTruthy(Prop(v, "message").value) then ShowMessage(show(Prop(v, "message").value.value))
      else Quiet
  }

  /** A successful reply with a list of objects renders exactly that list. */
  lemma ReloadRendersOnSuccess(f: Obj, key: string, items: seq<Json>, hasBody: bool, show: Show)
    requires f == map["result" := Text("success"), key := JList(items)] && key != "result"
    requires forall k :: 0 <= k < |items| ==> items[k].JObject?
    ensures ReloadOf(Parsed(JObject(f)), key, hasBody, show).Render?
    ensures |ReloadOf(Parsed(JObject(f)), key, hasBody, show).items| == |items|
    ensures forall k :: 0 <= k < |items| ==> ReloadOf(Parsed(JObject(f)), key, hasBody, show).items[k] == items[k].fields
  {
    assert Member(f, key) == Some(JList(items));
  }

  /** A failed call shows the connection alert; a reply without success shows its message when it has one. */
  lemma ReloadFailures(outcome: FetchOutcome, key: string, hasBody: bool, show: Show)
    ensures outcome.NetworkError? || outcome.NotJson? ==> ReloadOf(outcome, key, hasBody, show) == Connection
    ensures forall f: Obj :: outcome == Parsed(JObject(f)) && !IsText(Member(f, "result"), "success") ==>
      (JsTruthy(Member(f, "message")) ==> ReloadOf(outcome, key, hasBody, show) == ShowMessage(show(f["message"])))
      && (!JsTruthy(Member(f, "message")) ==> ReloadOf(outcome, key, hasBody, show) == Quiet)
  {
  }

  /**
   * Without the table on the page nothing a parsed reply holds can throw:
   * the connection alert comes only from the request or the JSON parse.
   * With the table, a successful reply whose truthy payload is not an
   * array does throw.
   */
  lemma MissingTableNeverThrows(outcome: FetchOutcome, key: string, show: Show)
    ensures ReloadOf(outcome, key, false, show) == Connection <==> !outcome.Parsed? || outcome.v == JNull
    ensures outcome.Parsed? && outcome.v.JObject? && IsText(Member(outcome.v.fields, "result"), "success")
            && JsTruthy(Member(outcome.v.fields, key)) && !Member(outcome.v.fields, key).value.JList? ==>
      ReloadOf(outcome, key, true, show) == Connection
  {
  }

  /** `loadStatus`'s two texts. */
  datatype StatusText = StatusText(running: string, updated: string)

  function StatusOf(v: Json, show: Show): Option<StatusText>
    requires v != JNull
  {
    var status := Prop(v, "status").value;
    if IsText(Prop(v, "result").value, "success") && JsTruthy(status) then
      var s := status.value;
      Some(StatusText(if JsTruthy(Prop(s, "running").value) then "실행중" else "정지",
                      "업데이트: " + Interp(Prop(s, "updated").value, show)))
    else None
  }

  /** A running status reads '실행중', anything else '정지'; the time line is prefixed with '업데이트: '. */
  lemma StatusTexts(running: Json, updated: Json, show: Show)
    ensures var v := JObject(map["result" := Text("success"), "status" := JObject(map["running" := running, "updated" := updated])]);
      StatusOf(v, show) == Some(StatusText(if JsTruthy(Some(running)) then "실행중" else "정지", "업데이트: " + show(updated)))
  {
    var s := JObject(map["running" := running, "updated" := updated]);
    var f := map["result" := Text("success"), "status" := s];
    assert Member(f, "status") == Some(s);
    assert Member(f, "result") == Some(Text("success"));
  }

  /** `formatNumber`: a value `parseFloat` cannot read is shown as it is, a number in the locale's format. */
  function FormatNumber(val: Option<Json>, parseFloat: Option<Json> -> Option<real>, locale: real -> string, show: Show): string
  {
    match parseFloat(val)
    case None => Interp(val, show)
    case Some(n) => locale(n)
  }

  lemma FormatNumberCases(val: Option<Json>, parseFloat: Option<Json> -> Option<real>, locale: real -> string, show: Show)
    ensures parseFloat(val).None? ==> FormatNumber(val, parseFloat, locale, show) == Interp(val, show)
    ensures forall n :: parseFloat(val) == Some(n) ==> FormatNumber(val, parseFloat, locale, show) == locale(n)
  {
  }

  /** `reloadAccount`'s three texts, when the reply is a success with an account. */
  datatype AccountText = AccountText(cash: string, total: string, pnl: string)

  function AccountOf(v: Json, parseFloat: Option<Json> -> Option<real>, locale: real -> string, show: Show): Option<AccountText>
    requires v != JNull
  {
    var account := Prop(v, "account").value;
    if IsText(Prop(v, "result").value, "success") && JsTruthy(account) then
      var a := account.value;
      Some(AccountText(FormatNumber(Prop(a, "cash").value, parseFloat, locale, show) + " 원",
                       FormatNumber(Prop(a, "total").value, parseFloat, locale, show) + " 원",
                       Interp(Prop(a, "pnl").value, show) + " %"))
    else None
  }

  /** Cash and total are formatted numbers ending in ' 원'; the profit is shown as sent, with ' %'. */
  lemma AccountTexts(cash: Json, total: Json, pnl: Json, parseFloat: Option<Json> -> Option<real>, locale: real -> string, show: Show)
    ensures var v := JObject(map["result" := Text("success"), "account" := JObject(map["cash" := cash, "total" := total, "pnl" := pnl])]);
      AccountOf(v, parseFloat, locale, show) ==
        Some(AccountText(FormatNumber(Some(cash), parseFloat, locale, show) + " 원",
                         FormatNumber(Some(total), parseFloat, locale, show) + " 원",
                         show(pnl) + " %"))
  {
    var a := JObject(map["cash" := cash, "total" := total, "pnl" := pnl]);
    var f := map["result" := Text("success"), "account" := a];
    assert Member(f, "account") == Some(a);
    assert Member(f, "result") == Some(Text("success"));
  }

  // ------------------------------------------------------------ the page

  /** The parts of the page the script writes, None where the page lacks the element. */
  class Page {
    var positionBody: Option<seq<PositionRow>>
    var signalBody: Option<seq<SignalRow>>
    var liveAlerts: Option<seq<string>>
    var alertList: Option<seq<string>>
    var botStatus: Option<string>
    var updateTime: Option<string>
    var accountCash: Option<string>
    var accountTotal: Option<string>
    var accountPnl: Option<string>
    var shown: seq<Alert>
    var sent: seq<Request>
    var emitted: seq<string>
    var consoleErrors: nat

    /**
     * `updatePositions` (the `positions` socket event): 1-based rows, one
     * per position in order; a null entry throws and changes nothing.
     */
    method UpdatePositions(list: seq<Json>, show: Show)
      modifies this
      ensures old(positionBody).Some? && Entries(list).Some? ==> positionBody == Some(PositionRows(Entries(list).value, 0, show))
      ensures old(positionBody).None? || Entries(list).None? ==> positionBody == old(positionBody)
      ensures old(positionBody).Some? && Entries(list).Some? ==>
        forall k :: 0 <= k < |list| ==> positionBody.value[k].Position? && positionBody.value[k].number == k + 1
      ensures signalBody == old(signalBody) && liveAlerts == old(liveAlerts) && alertList == old(alertList)
      ensures shown == old(shown) && sent == old(sent) && emitted == old(emitted)
    {
      var items := Entries(list);
      if positionBody.Some? && items.Some? {
        positionBody := Some(PositionRows(items.value, 0, show));
      }
    }

    /**
     * `updateAlerts` (the `alerts` socket event): the live box gets one
     * line per alert or the placeholder, and the list box a copy of it; a
     * list box without a live box, or a null alert, throws (`raised`) and
     * stops there.
     */
    method UpdateAlerts(list: seq<Json>, show: Show) returns (raised: bool)
      modifies this
      ensures var items := Entries(list);
        var failsInBox := old(liveAlerts).Some? && list != [] && items.None?;
        (raised <==> failsInBox || (old(liveAlerts).None? && old(alertList).Some?))
        && (old(liveAlerts).Some? && !failsInBox ==> liveAlerts == Some(AlertLines(items.value, show)) && (old(alertList).Some? ==> alertList == liveAlerts))
        && (old(liveAlerts).None? || failsInBox ==> liveAlerts == old(liveAlerts) && alertList == old(alertList))
        && (old(alertList).None? ==> alertList == None)
      ensures positionBody == old(positionBody) && shown == old(shown) && sent == old(sent) && emitted == old(emitted)
    {
      raised := false;
      if liveAlerts.Some? {
        var items := Entries(list);
        if list != [] && items.None? {
          return true;
        }
        liveAlerts := Some(AlertLines(if list == [] then [] else items.value, show));
      }
      if alertList.Some? {
        if liveAlerts.None? {
          raised := true;
        } else {
          alertList := liveAlerts;
        }
      }
    }

    /**
     * The `notification` socket event: a truthy message is shown as a live
     * alert, and a new line with the message's text (empty for a missing or
     * null one) goes at the top of both alert boxes; a null event throws.
     */
    method OnNotification(data: Json, show: Show) returns (raised: bool)
      modifies this
      ensures raised <==> data == JNull
      ensures !raised ==>
        var m := Prop(data, "message").value;
        (shown == old(shown) + (if JsTruthy(m) then [Alert(show(m.value), "실시간 알림")] else []))
        && (old(liveAlerts).Some? ==> liveAlerts == Some([TextContent(m, show)] + old(liveAlerts).value))
        && (old(alertList).Some? ==> alertList == Some([TextContent(m, show)] + old(alertList).value))
        && (old(liveAlerts).None? ==> liveAlerts == None) && (old(alertList).None? ==> alertList == None)
      ensures raised ==> shown == old(shown) && liveAlerts == old(liveAlerts) && alertList == old(alertList)
      ensures positionBody == old(positionBody) && sent == old(sent) && emitted == old(emitted)
    {
      if data == JNull {
        return true;
      }
      raised := false;
      var m := Prop(data, "message").value;
      if JsTruthy(m) {
        shown := shown + [Alert(show(m.value), "실시간 알림")];
      }
      if liveAlerts.Some? {
        liveAlerts := Some([TextContent(m, show)] + liveAlerts.value);
      }
      if alertList.Some? {
        alertList := Some([TextContent(m, show)] + alertList.value);
      }
    }

    /** A refresh button: the two reloads run here, anything else is emitted to the server. */
    method Refresh(kind: string, hasSocket: bool, outcome: FetchOutcome, show: Show)
      modifies this
      ensures RefreshRoute(kind, hasSocket) == EmitRefresh(kind) ==> emitted == old(emitted) + [kind] && sent == old(sent) && shown == old(shown)
      ensures RefreshRoute(kind, hasSocket) == NoRoute ==> emitted == old(emitted) && sent == old(sent) && shown == old(shown)
      ensures RefreshRoute(kind, hasSocket) == ReloadBalance ==> sent == old(sent) + [Request("/api/balances", "GET", None)] && emitted == old(emitted)
      ensures RefreshRoute(kind, hasSocket) == ReloadBuyMonitor ==> sent == old(sent) + [Request("/api/signals", "GET", None)] && emitted == old(emitted)
    {
      match RefreshRoute(kind, hasSocket) {
        case ReloadBalance => ReloadBalances(outcome, show);
        case ReloadBuyMonitor => ReloadBuyMonitorTable(outcome, show);
        case EmitRefresh(k) => emitted := emitted + [k];
        case NoRoute =>
      }
    }

    method ShowReload(r: Reload)
      modifies this
      ensures r.ShowMessage? ==> shown == old(shown) + [Alert(r.message, "에러")]
      ensures r.Connection? ==> shown == old(shown) + [ConnectionAlert()]
      ensures r.Render? || r.Quiet? ==> shown == old(shown)
      ensures sent == old(sent) && emitted == old(emitted) && positionBody == old(positionBody) && signalBody == old(signalBody)
    {
      if r.ShowMessage? {
        shown := shown + [Alert(r.message, "에러")];
      } else if r.Connection? {
        shown := shown + [ConnectionAlert()];
      }
    }

    /** `reloadBalance`: the balances replace the rows of the position table, unnumbered. */
    method ReloadBalances(outcome: FetchOutcome, show: Show)
      modifies this
      ensures sent == old(sent) + [Request("/api/balances", "GET", None)]
      ensures var r := ReloadOf(outcome, "balances", old(positionBody).Some?, show);
        (r.Render? && old(positionBody).Some? ==> positionBody == Some(BalanceRows(r.items, show)))
        && (!(r.Render? && old(positionBody).Some?) ==> positionBody == old(positionBody))
        && (r.ShowMessage? ==> shown == old(shown) + [Alert(r.message, "에러")])
        && (r.Connection? ==> shown == old(shown) + [ConnectionAlert()])
        && (r.Render? || r.Quiet? ==> shown == old(shown))
      ensures emitted == old(emitted) && signalBody == old(signalBody)
    {
      sent := sent + [Request("/api/balances", "GET", None)];
      var r := ReloadOf(outcome, "balances", positionBody.Some?, show);
      if r.Render? && positionBody.Some? {
        positionBody := Some(BalanceRows(r.items, show));
      }
      ShowReload(r);
    }

    /** `reloadBuyMonitor`: the signals replace the rows of the signal table, numbered from 1. */
    method ReloadBuyMonitorTable(outcome: FetchOutcome, show: Show)
      modifies this
      ensures sent == old(sent) + [Request("/api/signals", "GET", None)]
      ensures var r := ReloadOf(outcome, "signals", old(signalBody).Some?, show);
        (r.Render? && old(signalBody).Some? ==> signalBody == Some(SignalRows(r.items, 0, show)))
        && (!(r.Render? && old(signalBody).Some?) ==> signalBody == old(signalBody))
        && (r.ShowMessage? ==> shown == old(shown) + [Alert(r.message, "에러")])
        && (r.Connection? ==> shown == old(shown) + [ConnectionAlert()])
        && (r.Render? || r.Quiet? ==> shown == old(shown))
      ensures emitted == old(emitted) && positionBody == old(positionBody)
    {
      sent := sent + [Request("/api/signals", "GET", None)];
      var r := ReloadOf(outcome, "signals", signalBody.Some?, show);
      if r.Render? && signalBody.Some? {
        signalBody := Some(SignalRows(r.items, 0, show));
      }
      ShowReload(r);
    }

    /** `loadStatus`. */
    method LoadStatus(outcome: FetchOutcome, show: Show)
      modifies this
      ensures sent == old(sent) + [Request("/api/status", "GET", None)]
      ensures !outcome.Parsed? || outcome.v == JNull ==>
        shown == old(shown) + [ConnectionAlert()] && botStatus == old(botStatus) && updateTime == old(updateTime)
      ensures outcome.Parsed? && outcome.v != JNull && StatusOf(outcome.v, show).Some? ==>
        (old(botStatus).Some? ==> botStatus == Some(StatusOf(outcome.v, show).value.running))
        && (old(updateTime).Some? ==> updateTime == Some(StatusOf(outcome.v, show).value.updated))
        && shown == old(shown)
      ensures outcome.Parsed? && outcome.v != JNull && StatusOf(outcome.v, show).None? ==>
        botStatus == old(botStatus) && updateTime == old(updateTime)
        && shown == old(shown) + (var m := Prop(outcome.v, "message").value; if JsTruthy(m) then [Alert(show(m.value), "에러")] else [])
      ensures emitted == old(emitted) && positionBody == old(positionBody)
    {
      sent := sent + [Request("/api/status", "GET", None)];
      if !outcome.Parsed? || outcome.v == JNull {
        shown := shown + [ConnectionAlert()];
        return;
      }
      var st := StatusOf(outcome.v, show);
      if st.Some? {
        if botStatus.Some? {
          botStatus := Some(st.value.running);
        }
        if updateTime.Some? {
          updateTime := Some(st.value.updated);
        }
      } else {
        var m := Prop(outcome.v, "message").value;
        if JsTruthy(m) {
          shown := shown + [Alert(show(m.value), "에러")];
        }
      }
    }

    /** `reloadAccount` (every ten seconds): failures only reach the console, never an alert. */
    method ReloadAccount(outcome: FetchOutcome, parseFloat: Option<Json> -> Option<real>, locale: real -> string, show: Show)
      modifies this
      ensures sent == old(sent) + [Request("/api/account", "GET", None)]
      ensures shown == old(shown)
      ensures !outcome.Parsed? || outcome.v == JNull ==>
        consoleErrors == old(consoleErrors) + 1
        && accountCash == old(accountCash) && accountTotal == old(accountTotal) && accountPnl == old(accountPnl)
      ensures outcome.Parsed? && outcome.v != JNull ==>
        consoleErrors == old(consoleErrors)
        && var a := AccountOf(outcome.v, parseFloat, locale, show);
        (a.Some? && old(accountCash).Some? ==> accountCash == Some(a.value.cash))
        && (a.Some? && old(accountTotal).Some? ==> accountTotal == Some(a.value.total))
        && (a.Some? && old(accountPnl).Some? ==> accountPnl == Some(a.value.pnl))
        && (a.None? ==> accountCash == old(accountCash) && accountTotal == old(accountTotal) && accountPnl == old(accountPnl))
      ensures emitted == old(emitted) && positionBody == old(positionBody)
    {
      sent := sent + [Request("/api/account", "GET", None)];
      if !outcome.Parsed? || outcome.v == JNull {
        consoleErrors := consoleErrors + 1;
        return;
      }
      var a := AccountOf(outcome.v, parseFloat, locale, show);
      if a.Some? {
        if accountCash.Some? {
          accountCash := Some(a.value.cash);
        }
        if accountTotal.Some? {
          accountTotal := Some(a.value.total);
        }
        if accountPnl.Some? {
          accountPnl := Some(a.value.pnl);
        }
      }
    }
  }

  /** After a position update the balance reload replaces every row with an unnumbered balance row. */
  method BalancesReplacePositions(page: Page, positions: seq<Json>, balances: seq<Json>, show: Show)
    requires page.positionBody.Some?
    requires forall k :: 0 <= k < |balances| ==> balances[k].JObject?
    modifies page
    ensures page.positionBody.Some?
    ensures |page.positionBody.value| == |balances|
    ensures forall k :: 0 <= k < |balances| ==> page.positionBody.value[k].Balance?
  {
    page.UpdatePositions(positions, show);
    var f := map["result" := Text("success"), "balances" := JList(balances)];
    ReloadRendersOnSuccess(f, "balances", balances, true, show);
    page.ReloadBalances(Parsed(JObject(f)), show);
  }
}
