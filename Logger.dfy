/**
 * The in-memory trade log of the helpers package: a module-level deque of at
 * most 100 entries, newest first, fed by `log_trade` and `log_config_change`
 * and read by `get_recent_logs`. An entry is a Python dict, kept here as a
 * list of (key, value) pairs in insertion order, because the order of its
 * keys becomes the CSV header. The clock is a parameter (`now`); writing the
 * CSV file is I/O and is represented only by whether it succeeded.
 */
module Logger {
  import opened Common

  /** `deque(maxlen=100)`. */
  const MaxLen: nat := 100

  /** A dict in insertion order. */
  type Fields = seq<(string, Json)>

  /** `d.update(data)`: the pairs of `data` put one after the other. */
  function Update(d: Fields, data: Fields): Fields
    decreases |data|
  {
    if data == [] then d else Update(Put(d, data[0].0, data[0].1), data[1..])
  }

  function Str(s: string): Json { JText(s, None) }

  /** The dict `log_trade` builds: time and type first, then the caller's data merged in. */
  function TradeEntry(now: string, eventType: string, data: Fields): Fields
  {
    Update([("time", Str(now)), ("type", Str(eventType))], data)
  }

  /** The dict `log_config_change` builds. */
  function ConfigEntry(now: string, category: string, key: string, before: Json, after: Json): Fields
  {
    [("time", Str(now)), ("category", Str(category)), ("key", Str(key)), ("before", before), ("after", after)]
  }

  /** `appendleft` on a full bounded deque drops the entry at the right end, the oldest. */
  function Pushed(s: seq<Fields>, e: Fields): (r: seq<Fields>)
    ensures |r| == Min(|s| + 1, MaxLen)
  {
    ([e] + s)[..Min(|s| + 1, MaxLen)]
  }

  function Reverse<T>(s: seq<T>): (r: seq<T>)
    ensures |r| == |s|
  {
    if s == [] then [] else Reverse(s[1..]) + [s[0]]
  }

  /** Entries pushed one after the other, first `es[0]`. */
  function PushAll(s: seq<Fields>, es: seq<Fields>): seq<Fields>
    decreases |es|
  {
    if es == [] then s else PushAll(Pushed(s, es[0]), es[1..])
  }

  /** One push: the new entry comes first, nothing is lost below capacity, the oldest goes at capacity. */
  lemma PushedShape(s: seq<Fields>, e: Fields)
    requires |s| <= MaxLen
    ensures |Pushed(s, e)| <= MaxLen
    ensures Pushed(s, e)[0] == e
    ensures |s| < MaxLen ==> Pushed(s, e) == [e] + s
    ensures |s| == MaxLen ==> Pushed(s, e) == [e] + s[..MaxLen - 1]
  {
    if |s| == MaxLen {
      assert ([e] + s)[..MaxLen] == [e] + s[..MaxLen - 1];
    }
  }

  /** After any pushes, the buffer holds the newest entries, newest first, above the old contents, capped at 100. */
  lemma {:induction false} PushAllNewestFirst(s: seq<Fields>, es: seq<Fields>)
    requires |s| <= MaxLen
    ensures PushAll(s, es) == (Reverse(es) + s)[..Min(|es| + |s|, MaxLen)]
    decreases |es|
  {
    if es == [] {
      assert Reverse(es) + s == s;
    } else {
      var p := Pushed(s, es[0]);
      PushAllNewestFirst(p, es[1..]);
      var m := Min(|s| + 1, MaxLen);
      var n := Min(|es| + |s|, MaxLen);
      var rev := Reverse(es[1..]);
      assert Reverse(es) == rev + [es[0]];
      assert Min(|es[1..]| + |p|, MaxLen) == n;
      assert Reverse(es) + s == rev + ([es[0]] + s);
      assert (rev + p)[..n] == (rev + ([es[0]] + s))[..n] by {
        forall i | 0 <= i < n
          ensures (rev + p)[i] == (rev + ([es[0]] + s))[i]
        {
          if i >= |rev| {
            assert i - |rev| < m;
          }
        }
      }
    }
  }

  /** From an empty log, the buffer is always the last (at most) 100 entries logged, newest first. */
  lemma RecentLogsAreNewestFirst(es: seq<Fields>)
    ensures PushAll([], es) == Reverse(es)[..Min(|es|, MaxLen)]
  {
    PushAllNewestFirst([], es);
    assert Reverse(es) + [] == Reverse(es);
  }

  /** `update` never moves an existing key: the old keys are a prefix of the new ones. */
  lemma {:induction false} UpdateKeepsKeyOrder(d: Fields, data: Fields)
    ensures |Keys(d)| <= |Keys(Update(d, data))|
    ensures Keys(Update(d, data))[..|d|] == Keys(d)
    decreases |data|
  {
    if data != [] {
      var p := Put(d, data[0].0, data[0].1);
      KeysOfPut(d, data[0].0, data[0].1);
      UpdateKeepsKeyOrder(p, data[1..]);
      assert Keys(p)[..|d|] == Keys(d);
    }
  }

  /** `update` with a dict: its keys win, every other key keeps its old value. */
  lemma {:induction false} LookupUpdate(d: Fields, data: Fields, q: string)
    requires DistinctKeys(data)
    ensures Lookup(Update(d, data), q) == if Lookup(data, q).Some? then Lookup(data, q) else Lookup(d, q)
    decreases |data|
  {
    if data != [] {
      var p := Put(d, data[0].0, data[0].1);
      assert DistinctKeys(data[1..]) by {
        forall i, j | 0 <= i < j < |data[1..]| ensures data[1..][i].0 != data[1..][j].0 {
          assert data[1..][i] == data[i + 1] && data[1..][j] == data[j + 1];
        }
      }
      LookupUpdate(p, data[1..], q);
      LookupPut(d, data[0].0, data[0].1, q);
      if q == data[0].0 {
        LookupAbsent(data[1..], q);
      }
    }
  }

  /**
   * A trade entry begins with the keys time and type, in that order; the
   * caller's data may overwrite their values; every data value is present.
   */
  lemma TradeEntryShape(now: string, eventType: string, data: Fields, q: string)
    requires DistinctKeys(data)
    ensures |TradeEntry(now, eventType, data)| >= 2
    ensures Keys(TradeEntry(now, eventType, data))[..2] == ["time", "type"]
    ensures Lookup(TradeEntry(now, eventType, data), "time")
      == if Lookup(data, "time").Some? then Lookup(data, "time") else Some(Str(now))
    ensures Lookup(TradeEntry(now, eventType, data), "type")
      == if Lookup(data, "type").Some? then Lookup(data, "type") else Some(Str(eventType))
    ensures Lookup(data, q).Some? ==> Lookup(TradeEntry(now, eventType, data), q) == Lookup(data, q)
  {
    var base: Fields := [("time", Str(now)), ("type", Str(eventType))];
    UpdateKeepsKeyOrder(base, data);
    assert Keys(base) == ["time", "type"];
    LookupUpdate(base, data, "time");
    LookupUpdate(base, data, "type");
    LookupUpdate(base, data, q);
  }

  /** The module-level `_recent_logs` deque, with the functions that feed and read it. */
  class RecentLogs {
    var entries: seq<Fields>

    predicate Valid()
      reads this
    {
      |entries| <= MaxLen
    }

    constructor ()
      ensures Valid() && entries == []
    {
      entries := [];
    }

    method AppendLeft(e: Fields)
      requires Valid()
      modifies this
      ensures Valid()
      ensures entries == Pushed(old(entries), e)
    {
      if |entries| == MaxLen {
        entries := [e] + entries[..MaxLen - 1];
      } else {
        entries := [e] + entries;
      }
    }

    /**
     * `log_trade`: the entry is pushed before the CSV write is attempted, and
     * a failing write is swallowed; `row` is what the CSV writer receives, the
     * same dict that was pushed, or None when the write fails.
     */
    method LogTrade(now: string, eventType: string, data: Fields, writeSucceeds: bool) returns (row: Option<Fields>)
      requires Valid()
      modifies this
      ensures Valid()
      ensures entries == Pushed(old(entries), TradeEntry(now, eventType, data))
      ensures row == if writeSucceeds then Some(entries[0]) else None
    {
      var entry := [("time", Str(now)), ("type", Str(eventType))];
      var i := 0;
      while i < |data|
        invariant 0 <= i <= |data|
        invariant Update(entry, data[i..]) == TradeEntry(now, eventType, data)
      {
        assert data[i..][1..] == data[i + 1..];
        entry := Put(entry, data[i].0, data[i].1);
        i := i + 1;
      }
      assert data[i..] == [];
      AppendLeft(entry);
      row := if writeSucceeds then Some(entry) else None;
    }

    /** `log_config_change`: the same buffer, the same front. */
    method LogConfigChange(now: string, category: string, key: string, before: Json, after: Json, writeSucceeds: bool)
      returns (row: Option<Fields>)
      requires Valid()
      modifies this
      ensures Valid()
      ensures entries == Pushed(old(entries), ConfigEntry(now, category, key, before, after))
      ensures row == if writeSucceeds then Some(entries[0]) else None
    {
      var entry := ConfigEntry(now, category, key, before, after);
      AppendLeft(entry);
      row := if writeSucceeds then Some(entry) else None;
    }

    /** `get_recent_logs`: the newest `limit` entries (all but the last -limit when negative); the buffer is not changed. */
    method GetRecentLogs(limit: int) returns (r: seq<Fields>)
      ensures r == Head(entries, limit)
      ensures limit >= 0 ==> |r| == Min(limit, |entries|)
      ensures forall i :: 0 <= i < |r| ==> r[i] == entries[i]
    {
      var n := if limit >= 0 then Min(limit, |entries|) else Max(|entries| + limit, 0);
      r := entries[..n];
    }
  }
}
