/**
 * Final strategy selection of the ML pipeline: the backtest summaries that
 * meet fixed quality thresholds, ranked by Sharpe ratio, the best `TOP_N`
 * kept, and the monitoring list derived from them.
 */
module SelectStrategies {
  import opened Common

  const MinWinRate: real := 0.50
  const MinAvgRoi: real := 0.001
  const MinSharpe: real := 1.0
  const MaxMdd: real := 0.10
  const MinEntries: int := 20
  const TopN: nat := 10

  /** `_to_float`: `float(v)`, or the default where that conversion raises. */
  function ToFloat(v: Json, default: real): (r: real)
    ensures FloatOf(v).Some? ==> r == FloatOf(v).value
    ensures FloatOf(v).None? ==> r == default
  {
    match FloatOf(v)
    case Some(x) => x
    case None => default
  }

  /** The drawdown as read: "mdd", and "max_drawdown" only when "mdd" is absent. */
  function MddValue(summary: map<string, Json>): Json
  {
    Get(summary, "mdd", Get(summary, "max_drawdown", JNum(0.0)))
  }

  /** `passes_criteria` on a summary object. */
  predicate Passes(summary: map<string, Json>)
  {
    && ToFloat(Get(summary, "win_rate", JNull), 0.0) >= MinWinRate
    && ToFloat(Get(summary, "avg_roi", JNull), 0.0) >= MinAvgRoi
    && ToFloat(Get(summary, "sharpe", JNull), 0.0) >= MinSharpe
    && Abs(ToFloat(MddValue(summary), 0.0)) <= MaxMdd
    && Trunc(ToFloat(Get(summary, "total_entries", JNull), 0.0)) >= MinEntries
  }

  /** Python `abs(v)` on a JSON value; None where it raises (text, null, lists, objects). */
  function AbsValue(v: Json): (r: Option<Json>)
    ensures r.Some? <==> v.JNum? || v.JBool?
    ensures r.Some? ==> r.value.JNum? && r.value.n >= 0.0 && r.value.n == Abs(FloatOf(v).value)
  {
    match v
    case JNum(n) => Some(JNum(Abs(n)))
    case JBool(b) => Some(JNum(if b then 1.0 else 0.0))
    case _ => None
  }

  /**
   * One `*_summary.json` file: its stem, its decoded content (None when it
   * cannot be read) and the decoded `{symbol}_best_params.json` (None when
   * that cannot be read).
   */
  datatype SummaryFile = SummaryFile(stem: string, summary: Option<Json>, params: Option<Json>)

  datatype Record = Record(
    symbol: string,
    winRate: Json,
    avgRoi: Json,
    sharpe: Json,
    maxDrawdown: Json,
    totalEntries: Json,
    params: Json)

  function SymbolOf(f: SummaryFile): string { BeforeFirst(f.stem, '_') }

  /** The record built for a file whose summary object passed; None where `abs` raises. */
  function RecordOf(f: SummaryFile, summary: map<string, Json>): Option<Record>
  {
    match AbsValue(MddValue(summary))
    case None => None
    case Some(mdd) =>
      Some(Record(SymbolOf(f),
        Get(summary, "win_rate", JNum(0.0)),
        Get(summary, "avg_roi", JNum(0.0)),
        Get(summary, "sharpe", JNum(0.0)),
        mdd,
        Get(summary, "total_entries", JNum(0.0)),
        if f.params.Some? then f.params.value else JObject(map[])))
  }

  /** The outcome of one loop iteration: skip (None), a record, or an exception (Fail). */
  datatype Outcome = Skip | Keep(rec: Record) | Fail

  function Process(f: SummaryFile): Outcome
  {
    match f.summary
    case None => Skip
    case Some(v) =>
      if !v.JObject? then Fail
      else if !Passes(v.fields) then Skip
      else match RecordOf(f, v.fields)
        case None => Fail
        case Some(rec) => Keep(rec)
  }

  /** The records gathered by the loop, in file order; None when an iteration raises. */
  function Candidates(files: seq<SummaryFile>): Option<seq<Record>>
  {
    if files == [] then Some([])
    else
      match Process(files[0])
      case Fail => None
      case Skip => Candidates(files[1..])
      case Keep(rec) =>
        match Candidates(files[1..])
        case None => None
        case Some(rest) => Some([rec] + rest)
  }

  /** The sort key `x.get("sharpe", 0)`, read as a number. */
  function SharpeKey(rec: Record): real { ToFloat(rec.sharpe, 0.0) }

  function Descending(rec: Record): real { -SharpeKey(rec) }

  /** `s[:n]`. */
  function Take<T>(s: seq<T>, n: nat): (r: seq<T>)
    ensures |r| == Min(n, |s|)
  {
    if n < |s| then s[..n] else s
  }

  /** `select_strategies`: the candidates sorted by descending Sharpe (stable), first `topN`. */
  function Selection(files: seq<SummaryFile>, topN: nat): Option<seq<Record>>
  {
    match Candidates(files)
    case None => None
    case Some(c) => Some(Take(SortBy(c, Descending), topN))
  }

  /** `pre` in front of a gathered list, an exception staying an exception. */
  function Prepend<T>(pre: seq<T>, o: Option<seq<T>>): Option<seq<T>>
  {
    match o
    case None => None
    case Some(rest) => Some(pre + rest)
  }

  lemma PrependTwice<T>(a: seq<T>, b: seq<T>, o: Option<seq<T>>)
    ensures Prepend(a + b, o) == Prepend(a, Prepend(b, o))
  {
    if o.Some? { assert (a + b) + o.value == a + (b + o.value); }
  }

  lemma PrependNothing<T>(o: Option<seq<T>>)
    ensures Prepend([], o) == o
  {
    if o.Some? { assert [] + o.value == o.value; }
  }

  method SelectStrategies(files: seq<SummaryFile>, topN: nat) returns (r: Option<seq<Record>>)
    ensures r == Selection(files, topN)
  {
    var strategies: seq<Record> := [];
    var i := 0;
    assert files[0..] == files;
    PrependNothing(Candidates(files));
    while i < |files|
      invariant 0 <= i <= |files|
      invariant Candidates(files) == Prepend(strategies, Candidates(files[i..]))
    {
      assert files[i..][0] == files[i] && files[i..][1..] == files[i + 1..];
      var f := files[i];
      i := i + 1;
      if f.summary.None? {
        continue;
      }
      var summary := f.summary.value;
      if !summary.JObject? {
        return None;
      }
      if !Passes(summary.fields) {
        continue;
      }
      var rec := RecordOf(f, summary.fields);
      if rec.None? {
        return None;
      }
      PrependTwice(strategies, [rec.value], Candidates(files[i..]));
      strategies := strategies + [rec.value];
    }
    assert files[i..] == [];
    assert strategies + [] == strategies;
    var sorted := SortBy(strategies, Descending);
    r := Some(Take(sorted, topN));
  }

  // --------------------------------------------------------------- properties

  /** A record is a candidate exactly when some file produced it. */
  lemma {:induction false} CandidatesOrigin(files: seq<SummaryFile>)
    requires Candidates(files).Some?
    ensures forall rec :: rec in Candidates(files).value <==>
      exists k :: 0 <= k < |files| && Process(files[k]) == Keep(rec)
    ensures forall k :: 0 <= k < |files| ==> Process(files[k]) != Fail
  {
    if files != [] {
      CandidatesOrigin(files[1..]);
      forall rec ensures rec in Candidates(files).value <==>
        exists k :: 0 <= k < |files| && Process(files[k]) == Keep(rec)
      {
        KeptByCons(files, rec);
      }
      forall k | 0 < k < |files| ensures Process(files[k]) != Fail {
        assert files[k] == files[1..][k - 1];
      }
    }
  }

  /** Some file keeps `rec` exactly when the first one does or one of the rest does. */
  lemma KeptByCons(files: seq<SummaryFile>, rec: Record)
    requires files != []
    ensures (exists k :: 0 <= k < |files| && Process(files[k]) == Keep(rec))
      <==> Process(files[0]) == Keep(rec) || exists k :: 0 <= k < |files[1..]| && Process(files[1..][k]) == Keep(rec)
  {
    if exists k :: 0 <= k < |files| && Process(files[k]) == Keep(rec) {
      var k :| 0 <= k < |files| && Process(files[k]) == Keep(rec);
      if k > 0 { assert Process(files[1..][k - 1]) == Keep(rec); }
    }
    if exists k :: 0 <= k < |files[1..]| && Process(files[1..][k]) == Keep(rec) {
      var k :| 0 <= k < |files[1..]| && Process(files[1..][k]) == Keep(rec);
      assert Process(files[k + 1]) == Keep(rec);
    }
  }

  /** The loop fails exactly when some file is not a JSON object, or passes with an `abs`-less drawdown. */
  lemma {:induction false} CandidatesFail(files: seq<SummaryFile>)
    ensures Candidates(files).None? <==> exists k :: 0 <= k < |files| && Process(files[k]) == Fail
  {
    if files != [] {
      CandidatesFail(files[1..]);
      if exists k :: 0 <= k < |files[1..]| && Process(files[1..][k]) == Fail {
        var k :| 0 <= k < |files[1..]| && Process(files[1..][k]) == Fail;
        assert Process(files[k + 1]) == Fail;
      }
      if exists k :: 0 <= k < |files| && Process(files[k]) == Fail {
        var k :| 0 <= k < |files| && Process(files[k]) == Fail;
        if k > 0 { assert Process(files[1..][k - 1]) == Fail; }
      }
    }
  }

  /** A kept record passed the thresholds and is named after its file's stem. */
  lemma KeptRecordPasses(f: SummaryFile, rec: Record)
    requires Process(f) == Keep(rec)
    ensures f.summary.Some? && f.summary.value.JObject? && Passes(f.summary.value.fields)
    ensures rec.symbol == BeforeFirst(f.stem, '_')
    ensures rec.sharpe == Get(f.summary.value.fields, "sharpe", JNum(0.0))
    ensures rec.maxDrawdown.JNum? && rec.maxDrawdown.n <= MaxMdd
    ensures f.params.Some? ==> rec.params == f.params.value
    ensures f.params.None? ==> rec.params == JObject(map[])
  {
  }

  /** The first `n` of a sorted list: sorted, drawn from the list, and no better element left behind. */
  lemma TakeSortedIsBest<T>(c: seq<T>, key: T -> real, n: nat)
    ensures var r := Take(SortBy(c, key), n);
      && SortedBy(r, key)
      && (forall y :: y in r ==> y in c)
      && (forall x :: x in c ==> x in r || forall y :: y in r ==> key(y) <= key(x))
  {
    var s := SortBy(c, key);
    var r := Take(s, n);
    assert forall i :: 0 <= i < |r| ==> r[i] == s[i];
    forall y | y in r ensures y in c {
      assert y in multiset(s);
    }
    forall x | x in c ensures x in r || forall y :: y in r ==> key(y) <= key(x) {
      assert x in multiset(s);
      var k :| 0 <= k < |s| && s[k] == x;
      if k < |r| {
        assert r[k] == x;
      } else {
        forall y | y in r ensures key(y) <= key(x) {
          var i :| 0 <= i < |r| && r[i] == y;
        }
      }
    }
  }

  /**
   * The selection holds at most `topN` records, in descending Sharpe order,
   * each produced by a file that passed; every passing record left out
   * ranks no higher than any record selected.
   */
  lemma SelectionIsTopN(files: seq<SummaryFile>, topN: nat)
    requires Selection(files, topN).Some?
    ensures var r := Selection(files, topN).value;
      var c := Candidates(files).value;
      && |r| == Min(topN, |c|)
      && (forall i, j :: 0 <= i < j < |r| ==> SharpeKey(r[i]) >= SharpeKey(r[j]))
      && (forall rec :: rec in r ==> exists k :: 0 <= k < |files| && Process(files[k]) == Keep(rec))
      && (forall x :: x in c ==> x in r || forall y :: y in r ==> SharpeKey(x) <= SharpeKey(y))
  {
    var c := Candidates(files).value;
    TakeSortedIsBest(c, Descending, topN);
    CandidatesOrigin(files);
  }

  /** With no summary files there is nothing to select. */
  lemma NoFilesNoSelection(topN: nat)
    ensures Selection([], topN) == Some([])
  {
  }

  // ------------------------------------------------------- monitoring list

  datatype MonitorEntry = MonitorEntry(symbol: string, threshPct: real, lossPct: real)

  /** The entry for one record; Skip for an empty symbol, Fail where `.get` or `float` raises. */
  datatype EntryOutcome = NoEntry | Entry(e: MonitorEntry) | EntryFails

  function EntryOf(rec: Record): EntryOutcome
  {
    if rec.symbol == "" then NoEntry
    else if !rec.params.JObject? then EntryFails
    else
      var t := FloatOf(Get(rec.params.fields, "thresh_pct", JNum(0.0)));
      var l := FloatOf(Get(rec.params.fields, "loss_pct", JNum(0.0)));
      if t.None? || l.None? then EntryFails
      else Entry(MonitorEntry(rec.symbol, t.value, l.value))
  }

  /** The list `save_monitoring_list` writes; None where building it raises. */
  function MonitoringList(records: seq<Record>): Option<seq<MonitorEntry>>
  {
    if records == [] then Some([])
    else
      match EntryOf(records[0])
      case EntryFails => None
      case NoEntry => MonitoringList(records[1..])
      case Entry(e) =>
        match MonitoringList(records[1..])
        case None => None
        case Some(rest) => Some([e] + rest)
  }

  method BuildMonitoringList(records: seq<Record>) returns (r: Option<seq<MonitorEntry>>)
    ensures r == MonitoringList(records)
  {
    var data: seq<MonitorEntry> := [];
    var i := 0;
    assert records[0..] == records;
    PrependNothing(MonitoringList(records));
    while i < |records|
      invariant 0 <= i <= |records|
      invariant MonitoringList(records) == Prepend(data, MonitoringList(records[i..]))
    {
      assert records[i..][0] == records[i] && records[i..][1..] == records[i + 1..];
      var outcome := EntryOf(records[i]);
      i := i + 1;
      match outcome {
        case EntryFails => return None;
        case NoEntry =>
        case Entry(e) =>
          PrependTwice(data, [e], MonitoringList(records[i..]));
          data := data + [e];
      }
    }
    assert records[i..] == [];
    assert data + [] == data;
    r := Some(data);
  }

  /** Every entry comes from a record with that symbol and carries its parameters as numbers. */
  lemma {:induction false} MonitoringListFaithful(records: seq<Record>)
    requires MonitoringList(records).Some?
    ensures |MonitoringList(records).value| <= |records|
    ensures forall e :: e in MonitoringList(records).value ==>
      e.symbol != "" && exists k :: 0 <= k < |records| && EntryOf(records[k]) == Entry(e)
    ensures forall k :: 0 <= k < |records| && records[k].symbol != "" ==>
      exists e :: e in MonitoringList(records).value && e.symbol == records[k].symbol
  {
    if records != [] {
      MonitoringListFaithful(records[1..]);
      var rest := MonitoringList(records[1..]).value;
      forall e | e in rest
        ensures exists k :: 0 <= k < |records| && EntryOf(records[k]) == Entry(e)
      {
        var k :| 0 <= k < |records[1..]| && EntryOf(records[1..][k]) == Entry(e);
        assert records[k + 1] == records[1..][k];
      }
      forall k | 0 < k < |records| && records[k].symbol != ""
        ensures exists e :: e in MonitoringList(records).value && e.symbol == records[k].symbol
      {
        assert records[k] == records[1..][k - 1];
      }
    }
  }

  // --------------------------------------------------------------- examples

  /** The summary of the repository's threshold test passes. */
  lemma PassingSummaryExample()
    ensures Passes(map["win_rate" := JNum(0.6), "avg_roi" := JNum(0.003), "sharpe" := JNum(1.2),
                       "mdd" := JNum(-0.05), "total_entries" := JNum(60.0)])
  {
  }

  /** The repository's selection test: one passing file, `TOP_N` = 1, its parameters carried over. */
  lemma SelectionExample()
    ensures var summary := map["win_rate" := JNum(0.6), "avg_roi" := JNum(0.003), "sharpe" := JNum(1.3),
                               "mdd" := JNum(-0.05), "total_entries" := JNum(60.0)];
      var params := JObject(map["p" := JNum(1.0)]);
      var r := Selection([SummaryFile("AAA_summary", Some(JObject(summary)), Some(params))], 1);
      r.Some? && |r.value| == 1 && r.value[0].symbol == "AAA" && r.value[0].params == params
  {
    var summary := map["win_rate" := JNum(0.6), "avg_roi" := JNum(0.003), "sharpe" := JNum(1.3),
                       "mdd" := JNum(-0.05), "total_entries" := JNum(60.0)];
    var params := JObject(map["p" := JNum(1.0)]);
    var f := SummaryFile("AAA_summary", Some(JObject(summary)), Some(params));
    var rec := ExampleKept(summary, params);
    SingleSelection(f, rec);
  }

  /** The example summary passes, and its file is kept as a record for AAA with its parameters. */
  lemma ExampleKept(summary: map<string, Json>, params: Json) returns (rec: Record)
    requires summary == map["win_rate" := JNum(0.6), "avg_roi" := JNum(0.003), "sharpe" := JNum(1.3),
                            "mdd" := JNum(-0.05), "total_entries" := JNum(60.0)]
    ensures Process(SummaryFile("AAA_summary", Some(JObject(summary)), Some(params))) == Keep(rec)
    ensures rec.symbol == "AAA" && rec.params == params
  {
    ExamplePasses(summary);
    ExampleStem();
    rec := KeptWhenPasses(SummaryFile("AAA_summary", Some(JObject(summary)), Some(params)), summary);
  }

  lemma ExamplePasses(summary: map<string, Json>)
    requires summary == map["win_rate" := JNum(0.6), "avg_roi" := JNum(0.003), "sharpe" := JNum(1.3),
                            "mdd" := JNum(-0.05), "total_entries" := JNum(60.0)]
    ensures Passes(summary) && MddValue(summary).JNum?
  {
    assert MddValue(summary) == JNum(-0.05);
  }

  lemma ExampleStem()
    ensures BeforeFirst("AAA_summary", '_') == "AAA"
  {
  }

  /** A file whose summary object passes with a numeric drawdown is kept, under its stem's symbol and with its parameters. */
  lemma KeptWhenPasses(f: SummaryFile, summary: map<string, Json>) returns (rec: Record)
    requires f.summary == Some(JObject(summary)) && Passes(summary) && MddValue(summary).JNum?
    ensures Process(f) == Keep(rec)
    ensures rec.symbol == SymbolOf(f) && rec.params == (if f.params.Some? then f.params.value else JObject(map[]))
  {
    rec := RecordOf(f, summary).value;
  }

  /** A single kept file is the whole selection. */
  lemma SingleSelection(f: SummaryFile, rec: Record)
    requires Process(f) == Keep(rec)
    ensures Selection([f], 1) == Some([rec])
  {
    assert [f][1..] == [];
    assert Candidates([f][1..]) == Some([]);
    assert [rec] + [] == [rec];
    assert Candidates([f]) == Some([rec]);
  }
}
