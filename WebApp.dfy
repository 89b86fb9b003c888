/**
 * The dashboard's Flask handlers (`app.py`) over the module-global
 * `settings`, `positions` and `alerts`: the bot's running flag, the
 * settings merge, the saved user data, and the manual buy and sell buttons.
 *
 * The request body is the parameter `body` (None where `get_json(silent=True)`
 * finds no JSON), the clock's `'%H:%M'` text and the timestamp text are
 * parameters, the trader's start and stop are the text of the exception they
 * raise (None when they return), and `show` stands for an f-string's `{coin}`.
 * Socket emits, logging and Telegram messages are left out; `notify_error`'s
 * message is kept in `errors`.
 *
 * `update_timestamp` is called by four handlers but neither defined nor
 * imported in `app.py`. The `...AsWritten` functions state what the handlers
 * do as written (a NameError after the state has changed); the others, which
 * the `Dashboard` class follows, give it the meaning of
 * `RuntimeSettings.update_timestamp` in `bot/runtime_settings.py`: setting
 * `updated` to the current time.
 */
module WebApp {
  import opened Common

  type Show = Json -> string

  /** One entry of `alerts`: `{"time": …, "message": …}`. */
  datatype Alert = Alert(time: string, message: string)

  type Record = map<string, Json>

  /** A handler's answer: a JSON reply with its HTTP code, or Flask's own 500 page for an exception outside `try`. */
  datatype Reply =
    | Reply(code: int, result: string, message: string, status: Option<map<string, Json>>)
    | ServerError

  datatype AppState = AppState(settings: map<string, Json>, positions: seq<Record>, alerts: seq<Alert>,
                               errors: seq<string>, saved: Option<Json>)

  predicate ValidSettings(settings: map<string, Json>) { "running" in settings && "updated" in settings }

  const NameErrorText := "name 'update_timestamp' is not defined"

  function Text(s: string): Json { JText(s, None) }

  /** The initial `settings` dict. */
  function InitialSettings(): map<string, Json>
  {
    map["running" := JBool(false), "strategy" := Text("M-BREAK"), "TP" := JNum(0.02), "SL" := JNum(0.01),
        "funds" := JNum(1000000.0), "max_amount" := JNum(500000.0), "buy_amount" := JNum(100000.0),
        "max_positions" := JNum(5.0), "slippage" := JNum(0.1), "balance_action" := Text("alert"),
        "run_time" := Text("09:00-22:00"), "rebalance" := Text("1d"), "event_stop" := Text(""),
        "backtest" := Text("OFF"), "candle" := Text("5m"), "fee" := JNum(0.05), "tune" := Text(""),
        "ai_opt" := Text("OFF"), "exchange" := Text("UPBIT"), "tg_on" := JBool(true),
        "events" := JList([Text("BUY"), Text("SELL"), Text("STOP")]),
        "notify_from" := Text("08:00"), "notify_to" := Text("22:00"), "updated" := Text("2025-05-18")]
  }

  /** The bot starts stopped, and the status can be read. */
  lemma InitialSettingsValid()
    ensures ValidSettings(InitialSettings()) && InitialSettings()["running"] == JBool(false)
  {
  }

  // ------------------------------------------------------------ get_status

  /** `get_status`: exactly the running flag and the update time. */
  function GetStatus(settings: map<string, Json>): (r: map<string, Json>)
    requires ValidSettings(settings)
    ensures r.Keys == {"running", "updated"}
    ensures r["running"] == settings["running"] && r["updated"] == settings["updated"]
  {
    map["running" := settings["running"], "updated" := settings["updated"]]
  }

  function Fail(st: AppState, prefix: string, exc: string): AppState
  {
    st.(errors := st.errors + [prefix + exc])
  }

  function ErrorReply(message: string): Reply { Reply(500, "error", message, None) }

  /** `update_timestamp`, as `RuntimeSettings` defines it. */
  function Stamp(settings: map<string, Json>, stamp: string): map<string, Json>
  {
    settings["updated" := Text(stamp)]
  }

  // ------------------------------------------------------------ manual_sell, manual_buy

  /** `(request.get_json(silent=True) or {}).get('coin')`: None where the body is a truthy non-object and `.get` raises. */
  function CoinOf(body: Option<Json>): Option<Json>
  {
    if body.None? || !Truthy(body.value) then Some(JNull)
    else if body.value.JObject? then Some(Get(body.value.fields, "coin", JNull))
    else None
  }

  predicate Keeps(coin: Json, p: Record) { "coin" in p && p["coin"] != coin }

  /** `manual_sell`. */
  function ManualSell(st: AppState, body: Option<Json>, now: string, show: Show): (AppState, Reply)
  {
    match CoinOf(body)
    case None => (st, ServerError)
    case Some(coin) =>
      if !Truthy(coin) then (Fail(st, "수동 매도 실패: ", "Invalid coin"), ErrorReply("수동 매도 실패"))
      else if exists k :: 0 <= k < |st.positions| && "coin" !in st.positions[k] then
        (Fail(st, "수동 매도 실패: ", "'coin'"), ErrorReply("수동 매도 실패"))
      else
        var kept := Filter(st.positions, (p: Record) => Keeps(coin, p));
        var alert := Alert(now, show(coin) + " 매도");
        (st.(positions := kept, alerts := [alert] + st.alerts), Reply(200, "success", show(coin) + " 매도 요청", None))
  }

  /** A missing or empty coin is refused: positions and alerts stay as they were. */
  lemma SellWithoutCoinChangesNothing(st: AppState, body: Option<Json>, now: string, show: Show)
    requires CoinOf(body).Some? && !Truthy(CoinOf(body).value)
    ensures var (st', reply) := ManualSell(st, body, now, show);
      st'.positions == st.positions && st'.alerts == st.alerts && st'.settings == st.settings
      && reply == ErrorReply("수동 매도 실패") && st'.errors == st.errors + ["수동 매도 실패: Invalid coin"]
  {
    assert "수동 매도 실패: " + "Invalid coin" == "수동 매도 실패: Invalid coin";
  }

  /**
   * A sale removes every position on the coin, keeps all others in their
   * order, and puts exactly one alert in front of the old ones.
   */
  lemma SellRemovesTheCoin(st: AppState, body: Option<Json>, now: string, show: Show)
    requires CoinOf(body).Some? && Truthy(CoinOf(body).value)
    requires forall k :: 0 <= k < |st.positions| ==> "coin" in st.positions[k]
    ensures var coin := CoinOf(body).value;
      var (st', reply) := ManualSell(st, body, now, show);
      reply.Reply? && reply.code == 200
      && (forall k :: 0 <= k < |st'.positions| ==> "coin" in st'.positions[k] && st'.positions[k]["coin"] != coin)
      && IsSubsequence(st'.positions, st.positions)
      && (forall k :: 0 <= k < |st.positions| && st.positions[k]["coin"] != coin ==> st.positions[k] in st'.positions)
      && st'.alerts == [Alert(now, show(coin) + " 매도")] + st.alerts
      && st'.settings == st.settings
  {
    var coin := CoinOf(body).value;
    var keep := (p: Record) => Keeps(coin, p);
    FilterIsSubsequence(st.positions, keep);
    FilterKeeps(st.positions, keep);
  }

  /** Exactly the elements that pass a filter survive it. */
  lemma {:induction false} FilterKeeps<T(!new)>(s: seq<T>, keep: T -> bool)
    ensures forall k :: 0 <= k < |Filter(s, keep)| ==> keep(Filter(s, keep)[k])
    ensures forall k :: 0 <= k < |s| && keep(s[k]) ==> s[k] in Filter(s, keep)
  {
    if s != [] {
      FilterKeeps(s[1..], keep);
      assert forall k :: 1 <= k < |s| ==> s[k] == s[1..][k - 1];
    }
  }

  /** A position record without a coin makes the comprehension raise KeyError: nothing changes. */
  lemma SellOverRecordWithoutCoin(st: AppState, body: Option<Json>, now: string, show: Show, k: nat)
    requires CoinOf(body).Some? && Truthy(CoinOf(body).value)
    requires k < |st.positions| && "coin" !in st.positions[k]
    ensures var (st', reply) := ManualSell(st, body, now, show);
      st'.positions == st.positions && st'.alerts == st.alerts && reply == ErrorReply("수동 매도 실패")
  {
  }

  /** The record `manual_buy` appends. */
  function BoughtPosition(coin: Json): Record
  {
    map["coin" := coin, "entry" := JNum(50.0), "trend" := JNum(50.0), "trend_color" := Text("green"),
        "signal" := Text("sell-wait"), "signal_label" := Text("관망")]
  }

  /** `manual_buy`. */
  function ManualBuy(st: AppState, body: Option<Json>, now: string, show: Show): (AppState, Reply)
  {
    match CoinOf(body)
    case None => (st, ServerError)
    case Some(coin) =>
      if !Truthy(coin) then (Fail(st, "수동 매수 실패: ", "Invalid coin"), ErrorReply("수동 매수 실패"))
      else
        var alert := Alert(now, show(coin) + " 매수");
        (st.(positions := st.positions + [BoughtPosition(coin)], alerts := [alert] + st.alerts),
         Reply(200, "success", show(coin) + " 매수 요청", None))
  }

  /**
   * A buy appends exactly one record of the fixed shape after the old
   * positions and puts one alert in front; without a coin nothing changes.
   */
  lemma BuyAppendsOne(st: AppState, body: Option<Json>, now: string, show: Show)
    requires CoinOf(body).Some?
    ensures var coin := CoinOf(body).value;
      var (st', reply) := ManualBuy(st, body, now, show);
      (Truthy(coin) ==>
         |st'.positions| == |st.positions| + 1 && st'.positions[..|st.positions|] == st.positions
         && st'.positions[|st.positions|]["coin"] == coin
         && st'.positions[|st.positions|].Keys == {"coin", "entry", "trend", "trend_color", "signal", "signal_label"}
         && |st'.alerts| == |st.alerts| + 1 && st'.alerts[1..] == st.alerts
         && st'.alerts[0].message == show(coin) + " 매수")
      && (!Truthy(coin) ==> st'.positions == st.positions && st'.alerts == st.alerts && reply.Reply? && reply.code == 500)
  {
    var coin := CoinOf(body).value;
    if Truthy(coin) {
      var p := BoughtPosition(coin);
      assert p.Keys == {"coin", "entry", "trend", "trend_color", "signal", "signal_label"};
    }
  }

  // ------------------------------------------------------------ save_settings

  /** `save_settings` as written: a JSON object is merged into `settings`, then the NameError is reported. */
  function SaveSettingsAsWritten(st: AppState, body: Option<Json>): (AppState, Reply)
  {
    if body.None? || !body.value.JObject? then (Fail(st, "설정 저장 실패: ", "Invalid JSON"), ErrorReply("설정 저장 실패"))
    else (Fail(st.(settings := st.settings + body.value.fields), "설정 저장 실패: ", NameErrorText), ErrorReply("설정 저장 실패"))
  }

  /** `save_settings` with the timestamp: the merged settings, `updated` set, and the status in the reply. */
  function SaveSettings(st: AppState, body: Option<Json>, stamp: string): (AppState, Reply)
    requires ValidSettings(st.settings)
  {
    if body.None? || !body.value.JObject? then (Fail(st, "설정 저장 실패: ", "Invalid JSON"), ErrorReply("설정 저장 실패"))
    else
      var settings := Stamp(st.settings + body.value.fields, stamp);
      (st.(settings := settings), Reply(200, "success", "저장 완료", Some(GetStatus(settings))))
  }

  /** As written, every object body changes the settings and still answers with the error. */
  lemma SaveSettingsFailsAfterMerge(st: AppState, fields: map<string, Json>)
    ensures var (st', reply) := SaveSettingsAsWritten(st, Some(JObject(fields)));
      st'.settings == st.settings + fields && reply == ErrorReply("설정 저장 실패")
      && st'.errors == st.errors + ["설정 저장 실패: " + NameErrorText]
  {
  }

  /**
   * Corrected, a non-object body is refused with the settings unchanged;
   * an object's keys take its values, other keys keep theirs, `updated` is
   * the new time, and the reply carries that status.
   */
  lemma SaveSettingsMerges(st: AppState, body: Option<Json>, stamp: string)
    requires ValidSettings(st.settings)
    ensures var (st', reply) := SaveSettings(st, body, stamp);
      ValidSettings(st'.settings)
      && (body.None? || !body.value.JObject? ==> st'.settings == st.settings && reply == ErrorReply("설정 저장 실패"))
      && (body.Some? && body.value.JObject? ==>
            var f := body.value.fields;
            st'.settings["updated"] == Text(stamp)
            && (forall k :: k in f && k != "updated" ==> k in st'.settings && st'.settings[k] == f[k])
            && (forall k :: k in st.settings && k !in f && k != "updated" ==> k in st'.settings && st'.settings[k] == st.settings[k])
            && st'.settings.Keys == st.settings.Keys + f.Keys
            && reply == Reply(200, "success", "저장 완료", Some(GetStatus(st'.settings))))
  {
  }

  // ------------------------------------------------------------ start_bot, stop_bot

  /** `start_bot` as written: the flag is set before `trader.start()`, and the NameError follows even when the trader starts. */
  function StartBotAsWritten(st: AppState, startRaises: Option<string>): (AppState, Reply)
  {
    var st1 := st.(settings := st.settings["running" := JBool(true)]);
    var exc := if startRaises.Some? then startRaises.value else NameErrorText;
    (Fail(st1, "봇 시작 실패: ", exc), ErrorReply("봇 시작 실패"))
  }

  function StartBot(st: AppState, startRaises: Option<string>, stamp: string): (AppState, Reply)
    requires ValidSettings(st.settings)
  {
    var st1 := st.(settings := st.settings["running" := JBool(true)]);
    if startRaises.Some? then (Fail(st1, "봇 시작 실패: ", startRaises.value), ErrorReply("봇 시작 실패"))
    else
      var settings := Stamp(st1.settings, stamp);
      (st1.(settings := settings), Reply(200, "success", "봇이 시작되었습니다.", Some(GetStatus(settings))))
  }

  /** As written, starting never succeeds and always leaves the bot marked running. */
  lemma StartBotNeverSucceeds(st: AppState, startRaises: Option<string>)
    ensures var (st', reply) := StartBotAsWritten(st, startRaises);
      st'.settings["running"] == JBool(true) && reply == ErrorReply("봇 시작 실패")
  {
  }

  /**
   * Corrected, the bot is marked running whether or not the trader starts;
   * only a start that returns answers success, with running true in the status.
   */
  lemma StartBotMarksRunning(st: AppState, startRaises: Option<string>, stamp: string)
    requires ValidSettings(st.settings)
    ensures var (st', reply) := StartBot(st, startRaises, stamp);
      st'.settings["running"] == JBool(true)
      && (startRaises.Some? <==> reply == ErrorReply("봇 시작 실패"))
      && (startRaises.None? ==> reply.Reply? && reply.status.Some? && reply.status.value["running"] == JBool(true))
  {
  }

  function StopBotAsWritten(st: AppState, stopRaises: Option<string>): (AppState, Reply)
  {
    var st1 := st.(settings := st.settings["running" := JBool(false)]);
    var exc := if stopRaises.Some? then stopRaises.value else NameErrorText;
    (Fail(st1, "봇 중지 실패: ", exc), ErrorReply("봇 중지 실패"))
  }

  function StopBot(st: AppState, stopRaises: Option<string>, stamp: string): (AppState, Reply)
    requires ValidSettings(st.settings)
  {
    var st1 := st.(settings := st.settings["running" := JBool(false)]);
    if stopRaises.Some? then (Fail(st1, "봇 중지 실패: ", stopRaises.value), ErrorReply("봇 중지 실패"))
    else
      var settings := Stamp(st1.settings, stamp);
      (st1.(settings := settings), Reply(200, "success", "봇이 정지되었습니다.", Some(GetStatus(settings))))
  }

  /** Stopping clears the flag first: the bot is marked stopped even when `trader.stop()` raises. */
  lemma StopBotClearsRunning(st: AppState, stopRaises: Option<string>, stamp: string)
    requires ValidSettings(st.settings)
    ensures StopBotAsWritten(st, stopRaises).0.settings["running"] == JBool(false)
    ensures StopBotAsWritten(st, stopRaises).1 == ErrorReply("봇 중지 실패")
    ensures var (st', reply) := StopBot(st, stopRaises, stamp);
      st'.settings["running"] == JBool(false) && (stopRaises.Some? <==> reply == ErrorReply("봇 중지 실패"))
  {
  }

  // ------------------------------------------------------------ /save

  /** `/save` as written: no JSON is a 400; otherwise the data is written, then the NameError is reported. */
  function SaveAsWritten(st: AppState, body: Option<Json>, writeRaises: Option<string>): (AppState, Reply)
  {
    if body.None? then (st, Reply(400, "error", "Invalid JSON", None))
    else if writeRaises.Some? then (Fail(st, "저장 실패: ", writeRaises.value), ErrorReply("저장 실패"))
    else (Fail(st.(saved := body), "저장 실패: ", NameErrorText), ErrorReply("저장 실패"))
  }

  function Save(st: AppState, body: Option<Json>, writeRaises: Option<string>, stamp: string): (AppState, Reply)
    requires ValidSettings(st.settings)
  {
    if body.None? then (st, Reply(400, "error", "Invalid JSON", None))
    else if writeRaises.Some? then (Fail(st, "저장 실패: ", writeRaises.value), ErrorReply("저장 실패"))
    else
      var settings := Stamp(st.settings, stamp);
      (st.(saved := body, settings := settings), Reply(200, "success", "", Some(GetStatus(settings))))
  }

  /** No JSON body is answered with 400 and changes nothing; as written, a saved body still answers 500. */
  lemma SaveRejectsMissingBody(st: AppState, body: Option<Json>, writeRaises: Option<string>, stamp: string)
    requires ValidSettings(st.settings)
    ensures body.None? ==>
      SaveAsWritten(st, body, writeRaises) == (st, Reply(400, "error", "Invalid JSON", None))
      && Save(st, body, writeRaises, stamp) == (st, Reply(400, "error", "Invalid JSON", None))
    ensures body.Some? && writeRaises.None? ==>
      SaveAsWritten(st, body, writeRaises).0.saved == body && SaveAsWritten(st, body, writeRaises).1 == ErrorReply("저장 실패")
    ensures body.Some? && writeRaises.None? ==>
      Save(st, body, writeRaises, stamp).0.saved == body && Save(st, body, writeRaises, stamp).1.code == 200
  {
  }

  // ------------------------------------------------------------ the globals

  /** The module globals the handlers change. */
  class Dashboard {
    var settings: map<string, Json>
    var positions: seq<Record>
    var alerts: seq<Alert>
    var errors: seq<string>
    var saved: Option<Json>

    predicate Valid()
      reads this
    {
      ValidSettings(settings)
    }

    function State(): AppState
      reads this
    {
      AppState(settings, positions, alerts, errors, saved)
    }

    constructor (positions0: seq<Record>)
      ensures Valid()
      ensures settings == InitialSettings() && positions == positions0 && alerts == [] && errors == [] && saved == None
    {
      settings := InitialSettings();
      positions := positions0;
      alerts := [];
      errors := [];
      saved := None;
      InitialSettingsValid();
    }

    method Set(st: AppState)
      modifies this
      ensures State() == st
    {
      settings := st.settings;
      positions := st.positions;
      alerts := st.alerts;
      errors := st.errors;
      saved := st.saved;
    }

    method PostManualSell(body: Option<Json>, now: string, show: Show) returns (reply: Reply)
      requires Valid()
      modifies this
      ensures Valid()
      ensures (State(), reply) == ManualSell(old(State()), body, now, show)
    {
      var r := ManualSell(State(), body, now, show);
      Set(r.0);
      reply := r.1;
    }

    method PostManualBuy(body: Option<Json>, now: string, show: Show) returns (reply: Reply)
      requires Valid()
      modifies this
      ensures Valid()
      ensures (State(), reply) == ManualBuy(old(State()), body, now, show)
    {
      var r := ManualBuy(State(), body, now, show);
      Set(r.0);
      reply := r.1;
    }

    method PostSaveSettings(body: Option<Json>, stamp: string) returns (reply: Reply)
      requires Valid()
      modifies this
      ensures Valid()
      ensures (State(), reply) == SaveSettings(old(State()), body, stamp)
    {
      SaveSettingsMerges(State(), body, stamp);
      var r := SaveSettings(State(), body, stamp);
      Set(r.0);
      reply := r.1;
    }

    method PostStartBot(startRaises: Option<string>, stamp: string) returns (reply: Reply)
      requires Valid()
      modifies this
      ensures Valid()
      ensures (State(), reply) == StartBot(old(State()), startRaises, stamp)
    {
      var r := StartBot(State(), startRaises, stamp);
      Set(r.0);
      reply := r.1;
    }

    method PostStopBot(stopRaises: Option<string>, stamp: string) returns (reply: Reply)
      requires Valid()
      modifies this
      ensures Valid()
      ensures (State(), reply) == StopBot(old(State()), stopRaises, stamp)
    {
      var r := StopBot(State(), stopRaises, stamp);
      Set(r.0);
      reply := r.1;
    }

    method PostSave(body: Option<Json>, writeRaises: Option<string>, stamp: string) returns (reply: Reply)
      requires Valid()
      modifies this
      ensures Valid()
      ensures (State(), reply) == Save(old(State()), body, writeRaises, stamp)
    {
      var r := Save(State(), body, writeRaises, stamp);
      Set(r.0);
      reply := r.1;
    }

    function Status(): (r: map<string, Json>)
      requires Valid()
      reads this
      ensures r.Keys == {"running", "updated"}
      ensures r["running"] == settings["running"] && r["updated"] == settings["updated"]
    {
      GetStatus(settings)
    }
  }
}
