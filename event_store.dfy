/** The event store: a bounded in-memory FIFO of events plus an append-only
    log file holding one record per line. */
module EventLog {
  import opened PyValues

  /** `max_events_in_memory` of the configuration and `maxlen`'s default. */
  const DefaultMaxLen: nat := 200

  /** The log file on disk. A line is modelled as the record it encodes. */
  class LogFile {
    var present: bool
    var lines: seq<Event>

    ghost predicate Valid()
      reads this
    {
      !present ==> lines == []
    }

    constructor (present: bool, lines: seq<Event>)
      requires !present ==> lines == []
      ensures Valid() && this.present == present && this.lines == lines
    {
      this.present := present;
      this.lines := lines;
    }
  }

  /** The record `add` stores: a copy of the event in which `timestamp`
      defaults to the current UTC time and `confidence` to None. */
  function WithDefaults(event: Event, now: string): (r: Event)
    ensures r.Keys == event.Keys + {"timestamp", "confidence"}
    ensures forall k :: k in event ==> r[k] == event[k]
    ensures "timestamp" !in event ==> r["timestamp"] == VStr(now)
    ensures "confidence" !in event ==> r["confidence"] == VNone
  {
    SetDefault(SetDefault(event, "timestamp", VStr(now)), "confidence", VNone)
  }

  /** `deque.append` on a deque bounded by `cap`: the result holds the last
      `min(|s| + 1, cap)` elements of `s + [x]`. */
  function BoundedAppend<T>(s: seq<T>, x: T, cap: nat): (r: seq<T>)
    requires |s| <= cap
    ensures |r| == Min(|s| + 1, cap)
    ensures r == (s + [x])[|s| + 1 - |r|..]
  {
    if |s| < cap then s + [x]
    else if cap == 0 then []
    else s[1..] + [x]
  }

  /** Appending to a full deque evicts exactly its oldest entry; below the
      bound nothing is evicted. */
  lemma BoundedAppendEvicts<T>(s: seq<T>, x: T, cap: nat)
    requires |s| <= cap
    ensures |s| < cap ==> BoundedAppend(s, x, cap) == s + [x]
    ensures 0 < |s| == cap ==> BoundedAppend(s, x, cap) == s[1..] + [x]
    ensures 0 < cap ==> BoundedAppend(s, x, cap)[|BoundedAppend(s, x, cap)| - 1] == x
  {
    var r := BoundedAppend(s, x, cap);
    if 0 < |s| == cap {
      assert r == (s + [x])[1..];
      assert (s + [x])[1..] == s[1..] + [x];
    }
  }

  /** If `a` is the tail of `b`, then a bounded append of `x` to `a` is the
      tail of `b + [x]`. */
  lemma BoundedAppendSuffix<T>(a: seq<T>, b: seq<T>, x: T, cap: nat)
    requires |a| <= cap && IsSuffix(a, b)
    ensures IsSuffix(BoundedAppend(a, x, cap), b + [x])
  {
    var r := BoundedAppend(a, x, cap);
    var k := |a| + 1 - |r|;
    assert r == (a + [x])[k..];
    assert a + [x] == (b + [x])[|b| - |a|..];
    assert (b + [x])[|b| - |a|..][k..] == (b + [x])[|b| - |a| + k..];
  }

  class EventStore {
    const logPath: string
    const maxlen: nat
    const file: LogFile
    /** The deque `_events`, oldest first. */
    var events: seq<Event>

    /** The deque respects its bound, and the memory is always the tail of
        the log: both receive the same records in the same order. */
    ghost predicate Valid()
      reads this, file
    {
      file.Valid() && file.present &&
      |events| <= maxlen &&
      IsSuffix(events, file.lines)
    }

    /** Opens a store on `file`; an absent log is created empty, an existing
        one is kept as it is. */
    constructor (logPath: string, maxlen: nat, file: LogFile)
      requires file.Valid()
      modifies file
      ensures Valid()
      ensures this.logPath == logPath && this.maxlen == maxlen && this.file == file
      ensures events == []
      ensures old(file.present) ==> file.lines == old(file.lines)
      ensures !old(file.present) ==> file.lines == []
    {
      this.logPath := logPath;
      this.maxlen := maxlen;
      this.file := file;
      events := [];
      new;
      if !file.present {
        file.present := true;
        file.lines := [];
      }
    }

    /** `add(event)`: the defaulted copy goes to memory (evicting the oldest
        entry when full) and, as one new line, to the end of the log. */
    method Add(event: Event, now: string)
      requires Valid()
      modifies this, file
      ensures Valid()
      ensures events == BoundedAppend(old(events), WithDefaults(event, now), maxlen)
      ensures file.lines == old(file.lines) + [WithDefaults(event, now)]
      ensures file.present
    {
      var record := WithDefaults(event, now);
      BoundedAppendSuffix(events, file.lines, record, maxlen);
      events := BoundedAppend(events, record, maxlen);
      file.lines := file.lines + [record];
    }

    /** `latest(n)`: Python's `list(events)[-n:]`. */
    method Latest(n: int) returns (r: seq<Event>)
      requires Valid()
      ensures n >= 1 ==> r == events[|events| - Min(n, |events|)..]
      ensures n == 0 ==> r == events
      ensures n < 0 ==> r == events[Min(-n, |events|)..]
    {
      r := SliceFrom(events, -n);
    }

    /** `clear_memory()`: the memory is emptied, the log is untouched. */
    method ClearMemory()
      requires Valid()
      modifies this
      ensures Valid()
      ensures events == [] && file.lines == old(file.lines)
    {
      events := [];
    }
  }

  /** The last `cap` elements of `s`: what a deque bounded by `cap` holds
      after receiving the elements of `s` in order. */
  function Window<T>(s: seq<T>, cap: nat): (r: seq<T>)
    ensures |r| == Min(|s|, cap) && IsSuffix(r, s)
    ensures |s| <= cap ==> r == s
  {
    s[|s| - Min(|s|, cap)..]
  }

  /** A bounded append to a window is the window of the longer sequence, so
      any number of adds leaves the last `cap` records in memory. */
  lemma {:induction false} BoundedAppendWindow<T>(s: seq<T>, x: T, cap: nat)
    ensures BoundedAppend(Window(s, cap), x, cap) == Window(s + [x], cap)
  {
    var w := Window(s, cap);
    var r := BoundedAppend(w, x, cap);
    var k := |w| + 1 - |r|;
    assert w + [x] == (s + [x])[|s| - |w|..];
    assert r == (s + [x])[|s| - |w|..][k..];
    assert (s + [x])[|s| - |w|..][k..] == (s + [x])[|s| - |w| + k..];
  }
}
