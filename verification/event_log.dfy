/** The shared event table of one room workspace (components/TableContext.tsx).

    The provider keeps a list of rows and exposes `addRow`, which PREPENDS
    the new row: the stored list is newest-first. The wall-clock reading
    that becomes the row's timestamp is a parameter. */
module EventLog {
  import opened Outcome

  /** One displayed row: the locale time string and the event text. */
  datatype Row = Row(timestamp: string, eventValue: string)

  type Log = seq<Row>

  /** One agent callback as it arrives: its value and the clock reading. */
  datatype Arrival = Arrival(eventValue: string, now: string)

  /** The provider's initial state: no rows. */
  function Empty(): (log: Log)
    ensures |log| == 0
  {
    []
  }

  /** `addRow(eventValue)`: the new row goes to index 0 and every prior row
      moves down by one place, keeping its value and relative order. */
  function AddRow(log: Log, eventValue: string, now: string): (r: Log)
    ensures |r| == |log| + 1
    ensures r[0].eventValue == eventValue && r[0].timestamp == now
    ensures forall i :: 0 <= i < |log| ==> r[i + 1] == log[i]
  {
    [Row(now, eventValue)] + log
  }

  /** The row an arrival turns into. */
  function RowFor(a: Arrival): Row
  {
    Row(a.now, a.eventValue)
  }

  /** Rows in arrival order, oldest first: the independent reference. */
  function ArrivalRows(arrivals: seq<Arrival>): (rows: seq<Row>)
    ensures |rows| == |arrivals|
    ensures forall i :: 0 <= i < |arrivals| ==> rows[i] == RowFor(arrivals[i])
  {
    seq(|arrivals|, i requires 0 <= i < |arrivals| => RowFor(arrivals[i]))
  }

  /** Sequence reversal, defined element by element from the back. */
  function Reverse<T>(s: seq<T>): (r: seq<T>)
    ensures |r| == |s|
  {
    if |s| == 0 then [] else [s[|s| - 1]] + Reverse(s[..|s| - 1])
  }

  /** The log after the arrivals have been added one at a time, in order. */
  function Replay(log: Log, arrivals: seq<Arrival>): (r: Log)
    ensures |r| == |log| + |arrivals|
    decreases |arrivals|
  {
    if |arrivals| == 0 then log
    else Replay(AddRow(log, arrivals[0].eventValue, arrivals[0].now), arrivals[1..])
  }

  /** The row at position i of a reversal is the row at the mirrored place. */
  lemma {:induction false} ReverseIndex<T>(s: seq<T>, i: int)
    requires 0 <= i < |s|
    ensures Reverse(s)[i] == s[|s| - 1 - i]
    decreases |s|
  {
    if i > 0 {
      ReverseIndex(s[..|s| - 1], i - 1);
    }
  }

  /** Reversing twice gives back the original sequence. */
  lemma {:induction false} ReverseInvolution<T>(s: seq<T>)
    ensures Reverse(Reverse(s)) == s
  {
    forall i | 0 <= i < |s|
      ensures Reverse(Reverse(s))[i] == s[i]
    {
      ReverseIndex(Reverse(s), i);
      ReverseIndex(s, |s| - 1 - i);
    }
  }

  /** The arrival rows of a non-empty list: its first row, then the rows of
      the rest. */
  lemma {:induction false} ArrivalRowsTail(arrivals: seq<Arrival>)
    requires |arrivals| > 0
    ensures ArrivalRows(arrivals)[0] == RowFor(arrivals[0])
    ensures ArrivalRows(arrivals)[1..] == ArrivalRows(arrivals[1..])
  {
  }

  /** One step of `Replay`: the first arrival is added, then the rest. */
  lemma {:induction false} ReplayStep(log: Log, arrivals: seq<Arrival>)
    requires |arrivals| > 0
    ensures Replay(log, arrivals) == Replay([RowFor(arrivals[0])] + log, arrivals[1..])
  {
  }

  lemma {:induction false} AppendAssoc<T>(a: seq<T>, b: seq<T>, c: seq<T>)
    ensures a + (b + c) == (a + b) + c
  {
  }

  /** Adding rows on top of a log puts the new rows, newest first, above it. */
  lemma {:induction false} ReplayOnto(log: Log, arrivals: seq<Arrival>)
    ensures Replay(log, arrivals) == Reverse(ArrivalRows(arrivals)) + log
    decreases |arrivals|
  {
    if |arrivals| > 0 {
      var head := [RowFor(arrivals[0])];
      var rows := ArrivalRows(arrivals);
      var older := Reverse(ArrivalRows(arrivals[1..]));
      ReplayStep(log, arrivals);
      ReplayOnto(head + log, arrivals[1..]);
      assert Replay(log, arrivals) == older + (head + log);
      ArrivalRowsTail(arrivals);
      ReverseSplit(rows);
      assert Reverse(rows) == older + head;
      AppendAssoc(older, head, log);
    }
  }

  /** Reversal of a non-empty sequence ends with its first element. */
  lemma {:induction false} ReverseSplit<T>(s: seq<T>)
    requires |s| > 0
    ensures Reverse(s) == Reverse(s[1..]) + [s[0]]
    decreases |s|
  {
    if |s| > 1 {
      var n := |s|;
      ReverseSplit(s[..n - 1]);
      assert s[..n - 1][1..] == s[1..][..n - 2];
      assert s[..n - 1][0] == s[0];
      assert s[1..][n - 2] == s[n - 1];
    }
  }

  /** From an empty log, `addRow(v1) ... addRow(vn)` stores `[vn, ..., v1]`:
      the stored order is exactly the reverse of arrival order. */
  lemma {:induction false} StoredIsReverseOfArrival(arrivals: seq<Arrival>)
    ensures Replay(Empty(), arrivals) == Reverse(ArrivalRows(arrivals))
  {
    ReplayOnto([], arrivals);
    assert Reverse(ArrivalRows(arrivals)) + [] == Reverse(ArrivalRows(arrivals));
  }

  /** The row stored at index i is the (i+1)-th most recent arrival. */
  lemma {:induction false} StoredIndex(arrivals: seq<Arrival>, i: int)
    requires 0 <= i < |arrivals|
    ensures Replay(Empty(), arrivals)[i] == RowFor(arrivals[|arrivals| - 1 - i])
  {
    var rows := ArrivalRows(arrivals);
    var stored := Replay(Empty(), arrivals);
    StoredIsReverseOfArrival(arrivals);
    assert stored == Reverse(rows);
    ReverseIndex(rows, i);
    assert stored[i] == rows[|rows| - 1 - i];
  }

  /** Re-reading the stored log from the bottom recovers the arrival order. */
  lemma {:induction false} ArrivalOrderRecoverable(arrivals: seq<Arrival>)
    ensures Reverse(Replay(Empty(), arrivals)) == ArrivalRows(arrivals)
  {
    StoredIsReverseOfArrival(arrivals);
    ReverseInvolution(ArrivalRows(arrivals));
  }

  /** Three callbacks "BP 120/80", "Incision made", "Closing": the table shows
      them newest first. */
  lemma ThreeCallbacksNewestFirst(t1: string, t2: string, t3: string)
    ensures Replay(Empty(), [Arrival("BP 120/80", t1), Arrival("Incision made", t2), Arrival("Closing", t3)])
      == [Row(t3, "Closing"), Row(t2, "Incision made"), Row(t1, "BP 120/80")]
  {
    var arrivals := [Arrival("BP 120/80", t1), Arrival("Incision made", t2), Arrival("Closing", t3)];
    StoredIndex(arrivals, 0);
    StoredIndex(arrivals, 1);
    StoredIndex(arrivals, 2);
  }

  const MissingProvider := "useTable must be used within a TableProvider"

  /** `useTable()`: the provider's log, or a thrown error outside a provider. */
  function UseTable(provider: Option<Log>): (r: Result<Log>)
    ensures r.Ok? <==> provider.Some?
    ensures r.Ok? ==> r.value == provider.value
    ensures r.Err? ==> r.msg == MissingProvider
  {
    match provider
    case Some(log) => Ok(log)
    case None => Err(MissingProvider)
  }
}
