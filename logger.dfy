/** The activity log: a bounded list of entries, newest first, and the listeners that are told of
    each new entry. */
module Logger {

  /** The kinds of entry; `info`, `success`, … are `log` with the kind fixed. */
  datatype Kind = Info | Success | Warning | Error | Git | Ai | GitHub

  /** The clock and the random part of an entry: its id and its ISO timestamp. */
  datatype Stamp = Stamp(id: int, iso: string)

  datatype LogEntry = LogEntry(id: int, timestamp: string, kind: Kind, message: string, data: map<string, string>)

  /** A listener, by identity (the function object the caller registered). */
  type ListenerId = nat

  /** One call of a listener with an entry; `threw` records that the call raised, which the
      logger reports on the console and otherwise ignores. */
  datatype Delivery = Delivery(listener: ListenerId, entry: LogEntry, threw: bool)

  /** The handle `addListener` returns: calling it removes that listener. */
  datatype Remover = Remover(listener: ListenerId)

  const MaxLogs: nat := 1000
  const DefaultLimit: int := 100

  predicate Distinct(ls: seq<ListenerId>) {
    forall i, j :: 0 <= i < j < |ls| ==> ls[i] != ls[j]
  }

  /** The list after `unshift(entry)` and the cut to the first `MaxLogs`: the new entry first,
      then as many of the older ones, newest first, as still fit. */
  function Pushed(logs: seq<LogEntry>, entry: LogEntry): (r: seq<LogEntry>)
    ensures |r| == if |logs| < MaxLogs then |logs| + 1 else MaxLogs
    ensures r[0] == entry
    ensures r[1..] == logs[..|r| - 1]
  {
    var all := [entry] + logs;
    var r := if |all| > MaxLogs then all[..MaxLogs] else all;
    assert r[1..] == logs[..|r| - 1];
    r
  }

  /** The calls `forEach` makes for one entry: every listener, in insertion order, once. */
  function Notified(listeners: seq<ListenerId>, entry: LogEntry, failing: set<ListenerId>): (d: seq<Delivery>)
    ensures |d| == |listeners|
    ensures forall k :: 0 <= k < |d| ==> d[k] == Delivery(listeners[k], entry, listeners[k] in failing)
  {
    if listeners == [] then []
    else Notified(listeners[..|listeners| - 1], entry, failing)
           + [Delivery(listeners[|listeners| - 1], entry, listeners[|listeners| - 1] in failing)]
  }

  /** With distinct listeners, each registered listener is called exactly once, failing or not. */
  lemma EachListenerOnce(listeners: seq<ListenerId>, entry: LogEntry, failing: set<ListenerId>, l: ListenerId)
    requires Distinct(listeners) && l in listeners
    ensures var d := Notified(listeners, entry, failing);
      |set k | 0 <= k < |d| && d[k].listener == l| == 1
  {
    var d := Notified(listeners, entry, failing);
    var k :| 0 <= k < |listeners| && listeners[k] == l;
    forall k' | 0 <= k' < |d| && d[k'].listener == l
      ensures k' == k
    {
      assert listeners[k'] == l;
    }
    assert (set k' | 0 <= k' < |d| && d[k'].listener == l) == {k};
  }

  /** `logs.slice(0, limit)`: a negative limit counts back from the end. */
  function SliceFromStart(logs: seq<LogEntry>, limit: int): (r: seq<LogEntry>)
    ensures |r| <= |logs| && r == logs[..|r|]
    ensures limit >= 0 ==> |r| == if limit < |logs| then limit else |logs|
    ensures limit < 0 ==> |r| == if |logs| + limit > 0 then |logs| + limit else 0
  {
    var end := if limit < 0 then (if |logs| + limit > 0 then |logs| + limit else 0)
               else if limit < |logs| then limit else |logs|;
    logs[..end]
  }

  /** The listener set after `add`: appended unless already present (a set keeps the first
      insertion's place). */
  function Added(ls: seq<ListenerId>, l: ListenerId): (r: seq<ListenerId>)
    ensures l in r && forall x :: x in r <==> x in ls || x == l
  {
    if l in ls then ls else ls + [l]
  }

  /** The listener set after `delete`. */
  function Removed(ls: seq<ListenerId>, l: ListenerId): (r: seq<ListenerId>)
    ensures l !in r && forall x :: x in r <==> x in ls && x != l
    ensures Distinct(ls) ==> Distinct(r)
  {
    if ls == [] then []
    else
      var rest := Removed(ls[1..], l);
      assert Distinct(ls) ==> Distinct(ls[1..]) && ls[0] !in ls[1..];
      (if ls[0] == l then [] else [ls[0]]) + rest
  }

  lemma AddedKeepsDistinct(ls: seq<ListenerId>, l: ListenerId)
    requires Distinct(ls)
    ensures Distinct(Added(ls, l))
  {
  }

  /** Calling the remover `addListener` returned undoes the registration of a new listener. */
  lemma {:induction false} RemoveUndoesAdd(ls: seq<ListenerId>, l: ListenerId)
    requires l !in ls
    ensures Removed(Added(ls, l), l) == ls
  {
    RemovedAbsent(ls, l);
    RemovedLast(ls, l);
  }

  lemma {:induction false} RemovedAbsent(ls: seq<ListenerId>, l: ListenerId)
    requires l !in ls
    ensures Removed(ls, l) == ls
  {
    if ls != [] {
      RemovedAbsent(ls[1..], l);
    }
  }

  lemma {:induction false} RemovedLast(ls: seq<ListenerId>, l: ListenerId)
    ensures Removed(ls + [l], l) == Removed(ls, l)
  {
    if ls == [] {
      assert Removed([l], l) == [] + Removed([], l);
    } else {
      assert (ls + [l])[1..] == ls[1..] + [l];
      RemovedLast(ls[1..], l);
    }
  }

  /** Logging two entries in turn puts the later one first and the earlier one second. */
  lemma NewestFirst(logs: seq<LogEntry>, first: LogEntry, second: LogEntry)
    ensures var r := Pushed(Pushed(logs, first), second);
      r[0] == second && |r| >= 2 && r[1] == first
  {
    var p := Pushed(logs, first);
    var r := Pushed(p, second);
    assert r[1..][0] == p[..|r| - 1][0];
  }

  /** The logger object. */
  class ActivityLogger {
    var logs: seq<LogEntry>
    var listeners: seq<ListenerId>
    /** Every listener call made so far, in order. */
    var delivered: seq<Delivery>
    const maxLogs: nat

    ghost predicate Valid()
      reads this
    {
      maxLogs == MaxLogs && |logs| <= maxLogs && Distinct(listeners)
    }

    constructor ()
      ensures Valid()
      ensures logs == [] && listeners == [] && delivered == []
    {
      logs := [];
      listeners := [];
      delivered := [];
      maxLogs := MaxLogs;
    }

    /** `log(type, message, data)`: the entry goes in front, the list is cut back to the newest
        `maxLogs`, and every listener is called with the entry, a throwing one not stopping the
        rest. */
    method Log(kind: Kind, message: string, data: map<string, string>, stamp: Stamp,
               failing: set<ListenerId>) returns (entry: LogEntry)
      requires Valid()
      modifies this
      ensures Valid()
      ensures entry == LogEntry(stamp.id, stamp.iso, kind, message, data)
      ensures logs == Pushed(old(logs), entry)
      ensures listeners == old(listeners)
      ensures delivered == old(delivered) + Notified(listeners, entry, failing)
    {
      entry := LogEntry(stamp.id, stamp.iso, kind, message, data);
      logs := [entry] + logs;
      if |logs| > maxLogs {
        logs := logs[..maxLogs];
      }
      assert logs == Pushed(old(logs), entry);
      var i := 0;
      while i < |listeners|
        invariant 0 <= i <= |listeners|
        invariant logs == Pushed(old(logs), entry) && listeners == old(listeners)
        invariant delivered == old(delivered) + Notified(listeners[..i], entry, failing)
      {
        var l := listeners[i];
        delivered := delivered + [Delivery(l, entry, l in failing)];
        assert listeners[..i + 1][..i] == listeners[..i];
        i := i + 1;
      }
      assert listeners[..i] == listeners;
    }

    /** `addListener(listener)`: registers it and hands back its remover. */
    method AddListener(l: ListenerId) returns (remover: Remover)
      requires Valid()
      modifies this
      ensures Valid()
      ensures listeners == Added(old(listeners), l)
      ensures remover == Remover(l)
      ensures logs == old(logs) && delivered == old(delivered)
    {
      AddedKeepsDistinct(listeners, l);
      listeners := Added(listeners, l);
      remover := Remover(l);
    }

    /** `removeListener(listener)`, which is also what calling a remover does. */
    method RemoveListener(l: ListenerId)
      requires Valid()
      modifies this
      ensures Valid()
      ensures listeners == Removed(old(listeners), l)
      ensures logs == old(logs) && delivered == old(delivered)
    {
      listeners := Removed(listeners, l);
    }

    /** `getLogs(limit = 100)`: the first `limit` entries, newest first; a negative limit
        leaves out that many of the oldest. */
    function GetLogs(limit: int := DefaultLimit): (r: seq<LogEntry>)
      reads this
      ensures |r| <= |logs| && r == logs[..|r|]
      ensures 0 <= limit <= |logs| ==> |r| == limit
      ensures limit >= |logs| ==> r == logs
      ensures limit < 0 ==> |r| == if |logs| + limit > 0 then |logs| + limit else 0
    {
      SliceFromStart(logs, limit)
    }

    /** `clear()`: empties the list and logs that it did, so one `info` entry remains. */
    method Clear(stamp: Stamp, failing: set<ListenerId>)
      requires Valid()
      modifies this
      ensures Valid()
      ensures logs == [LogEntry(stamp.id, stamp.iso, Info, "Activity log cleared", map[])]
      ensures listeners == old(listeners)
      ensures delivered == old(delivered) + Notified(listeners, logs[0], failing)
    {
      logs := [];
      var entry := Log(Info, "Activity log cleared", map[], stamp, failing);
    }
  }
}
