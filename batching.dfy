/**
 * The batching worker `processQueue` (main.go:169-188). It waits on two events:
 * a record arriving from the queue, which is appended to the accumulator and
 * flushes it once it holds `batchSize` records, and a timer tick, which flushes
 * a non-empty accumulator. A flushed batch is handed to `sendBatch` and the
 * accumulator starts over empty.
 *
 * `Step` and `Run` state the worker's behaviour on values; the class
 * `BatchAssembler` is the worker's loop body, proved to follow `Step`.
 */
module Batching {
  import opened Otlp

  datatype Event = Arrival(record: LogRecord) | Tick

  /** The accumulator, and every batch flushed so far, oldest first. */
  datatype State = State(batch: seq<LogRecord>, flushed: seq<seq<LogRecord>>)

  const Initial := State([], [])

  /** The records a batch list holds, in order. */
  function Flatten(batches: seq<seq<LogRecord>>): seq<LogRecord> {
    if batches == [] then []
    else Flatten(batches[..|batches| - 1]) + batches[|batches| - 1]
  }

  /** The record an event delivers, if any. */
  function Delivered(e: Event): seq<LogRecord> {
    if e.Arrival? then [e.record] else []
  }

  /** The records a sequence of events delivers, in order. */
  function Arrivals(events: seq<Event>): seq<LogRecord> {
    if events == [] then []
    else Arrivals(events[..|events| - 1]) + Delivered(events[|events| - 1])
  }

  /** The events of records arriving one after another. */
  function Arrive(records: seq<LogRecord>): (events: seq<Event>)
    ensures |events| == |records|
    ensures forall i :: 0 <= i < |records| ==> events[i] == Arrival(records[i])
  {
    if records == [] then []
    else Arrive(records[..|records| - 1]) + [Arrival(records[|records| - 1])]
  }

  /**
   * One event. A flush happens on an arrival exactly when the accumulator then
   * holds at least `batchSize` records, and on a tick exactly when it is
   * non-empty; a flush hands over everything accumulated, never an empty batch,
   * and empties the accumulator. Without a flush the accumulator just gains the
   * event's record.
   */
  function Step(batchSize: int, s: State, e: Event): (t: State)
    ensures s.flushed <= t.flushed && |t.flushed| <= |s.flushed| + 1
    ensures e.Arrival? ==> (|t.flushed| > |s.flushed| <==> |s.batch| + 1 >= batchSize)
    ensures e.Tick? ==> (|t.flushed| > |s.flushed| <==> s.batch != [])
    ensures |t.flushed| > |s.flushed| ==>
              t.batch == [] && t.flushed[|s.flushed|] == s.batch + Delivered(e) != []
    ensures |t.flushed| == |s.flushed| ==> t.batch == s.batch + Delivered(e)
  {
    match e
    case Arrival(r) =>
      var b := s.batch + [r];
      if |b| >= batchSize then State([], s.flushed + [b]) else State(b, s.flushed)
    case Tick =>
      if |s.batch| > 0 then State([], s.flushed + [s.batch]) else s
  }

  /** The worker's state after a sequence of events: Step applied to each in
      order. Flushes are only ever added: the earlier history is kept, and there
      are at most as many new flushes as events. */
  function Run(batchSize: int, s: State, events: seq<Event>): (t: State)
    ensures s.flushed <= t.flushed && |t.flushed| <= |s.flushed| + |events|
  {
    if events == [] then s
    else Step(batchSize, Run(batchSize, s, events[..|events| - 1]), events[|events| - 1])
  }

  /** A tick on an empty accumulator changes nothing and flushes nothing. */
  lemma IdleTick(batchSize: int, s: State)
    requires s.batch == []
    ensures Step(batchSize, s, Tick) == s
  {
  }

  /** Nothing is lost or reordered by one event. */
  lemma StepConserves(batchSize: int, s: State, e: Event)
    ensures Flatten(Step(batchSize, s, e).flushed) + Step(batchSize, s, e).batch
            == Flatten(s.flushed) + s.batch + Delivered(e)
  {
  }

  /**
   * Nothing is lost or reordered: the flushed batches, then the accumulator,
   * hold exactly the records received, in the order received.
   */
  lemma {:induction false} RunConserves(batchSize: int, s: State, events: seq<Event>)
    ensures Flatten(Run(batchSize, s, events).flushed) + Run(batchSize, s, events).batch
            == Flatten(s.flushed) + s.batch + Arrivals(events)
  {
    if events != [] {
      var init, last := events[..|events| - 1], events[|events| - 1];
      RunConserves(batchSize, s, init);
      StepConserves(batchSize, Run(batchSize, s, init), last);
    }
  }

  /** With a positive threshold the accumulator stays below it after every event
      (each step alone keeps it there, by the contract of Step). */
  lemma RunBounded(batchSize: int, s: State, events: seq<Event>)
    requires batchSize >= 1 && |s.batch| < batchSize
    ensures |Run(batchSize, s, events).batch| < batchSize
  {
  }

  /**
   * A flush caused by an arrival hands over exactly `batchSize` records (when the
   * threshold is positive and the accumulator is below it, as RunBounded keeps
   * it); one caused by a tick hands over fewer, but at least one.
   */
  lemma FlushSizes(batchSize: int, s: State, e: Event)
    requires batchSize >= 1 && |s.batch| < batchSize
    requires |Step(batchSize, s, e).flushed| > |s.flushed|
    ensures e.Arrival? ==> |Step(batchSize, s, e).flushed[|s.flushed|]| == batchSize
    ensures e.Tick? ==> 1 <= |Step(batchSize, s, e).flushed[|s.flushed|]| < batchSize
  {
  }

  /** Every batch ever flushed is non-empty. */
  lemma {:induction false} RunFlushesNonEmpty(batchSize: int, s: State, events: seq<Event>)
    requires forall i :: 0 <= i < |s.flushed| ==> s.flushed[i] != []
    ensures forall i :: 0 <= i < |Run(batchSize, s, events).flushed| ==> Run(batchSize, s, events).flushed[i] != []
  {
    if events != [] {
      RunFlushesNonEmpty(batchSize, s, events[..|events| - 1]);
    }
  }

  /** Running two event sequences one after the other. */
  lemma {:induction false} RunAppend(batchSize: int, s: State, first: seq<Event>, second: seq<Event>)
    ensures Run(batchSize, s, first + second) == Run(batchSize, Run(batchSize, s, first), second)
  {
    if second != [] {
      var init, last := second[..|second| - 1], second[|second| - 1];
      assert (first + second)[..|first + second| - 1] == first + init;
      RunAppend(batchSize, s, first, init);
    } else {
      assert first + second == first;
    }
  }

  /** Running a single event is taking one step. */
  lemma RunOne(batchSize: int, s: State, e: Event)
    ensures Run(batchSize, s, [e]) == Step(batchSize, s, e)
  {
  }

  lemma ArriveAppend(a: seq<LogRecord>, b: seq<LogRecord>)
    ensures Arrive(a + b) == Arrive(a) + Arrive(b)
  {
  }

  /** Arrivals that keep the accumulator below the threshold only accumulate. */
  lemma {:induction false} ArrivalsBelowThreshold(batchSize: int, s: State, records: seq<LogRecord>)
    requires |s.batch| + |records| < batchSize
    ensures Run(batchSize, s, Arrive(records)) == State(s.batch + records, s.flushed)
  {
    if records != [] {
      var init := records[..|records| - 1];
      assert Arrive(records)[..|records| - 1] == Arrive(init);
      ArrivalsBelowThreshold(batchSize, s, init);
      assert init + [records[|records| - 1]] == records;
    }
  }

  /** With `batchSize` 10, the tenth of ten records flushes all ten. */
  lemma TenRecordsFlush(ten: seq<LogRecord>)
    requires |ten| == 10
    ensures Run(10, Initial, Arrive(ten)) == State([], [ten])
  {
    var nine, tenth := ten[..9], ten[9];
    assert ten == nine + [tenth];
    ArriveAppend(nine, [tenth]);
    RunAppend(10, Initial, Arrive(nine), Arrive([tenth]));
    ArrivalsBelowThreshold(10, Initial, nine);
    assert Initial.batch + nine == nine;
    assert Arrive([tenth]) == [Arrival(tenth)];
    RunOne(10, State(nine, []), Arrival(tenth));
  }

  /**
   * With `batchSize` 10, fifteen records and then a tick give exactly two
   * flushes: the first ten records on reaching the threshold, the other five on
   * the tick.
   */
  lemma FifteenRecordsThenTick(records: seq<LogRecord>)
    requires |records| == 15
    ensures Run(10, Initial, Arrive(records)).flushed == [records[..10]]
    ensures Run(10, Initial, Arrive(records) + [Tick]) == State([], [records[..10], records[10..]])
  {
    var ten, rest := records[..10], records[10..];
    assert records == ten + rest;
    ArriveAppend(ten, rest);
    RunAppend(10, Initial, Arrive(ten), Arrive(rest));
    TenRecordsFlush(ten);
    var afterTen := State([], [ten]);
    ArrivalsBelowThreshold(10, afterTen, rest);
    assert afterTen.batch + rest == rest;
    var afterAll := Run(10, Initial, Arrive(records));
    assert afterAll == State(rest, [ten]);
    RunAppend(10, Initial, Arrive(records), [Tick]);
    RunOne(10, afterAll, Tick);
  }

  /**
   * With `batchSize` 10 and fewer than ten records, nothing is flushed until the
   * tick, which flushes all of them at once.
   */
  lemma FewRecordsThenTick(records: seq<LogRecord>)
    requires 0 < |records| < 10
    ensures Run(10, Initial, Arrive(records)).flushed == []
    ensures Run(10, Initial, Arrive(records) + [Tick]) == State([], [records])
  {
    ArrivalsBelowThreshold(10, Initial, records);
    var pending := Run(10, Initial, Arrive(records));
    assert pending == State(records, []);
    RunAppend(10, Initial, Arrive(records), [Tick]);
    RunOne(10, pending, Tick);
  }

  /** The worker's loop state: the accumulator `batch` of `processQueue`. */
  class BatchAssembler {
    const batchSize: goInt
    var batch: seq<LogRecord>
    /** Every batch handed to the exporter so far. */
    ghost var flushed: seq<seq<LogRecord>>
    /** Every record taken from the queue so far. */
    ghost var received: seq<LogRecord>

    ghost function Snapshot(): State
      reads this
    {
      State(batch, flushed)
    }

    ghost predicate Valid()
      reads this
    {
      && Flatten(flushed) + batch == received
      && (batchSize >= 1 ==> |batch| < batchSize as int)
      && forall i :: 0 <= i < |flushed| ==> flushed[i] != []
    }

    constructor (batchSize: goInt)
      ensures Valid()
      ensures this.batchSize == batchSize
      ensures batch == [] && flushed == [] && received == []
    {
      this.batchSize := batchSize;
      batch := [];
      flushed := [];
      received := [];
    }

    /**
     * A record arrives: append it, and flush when the accumulator has reached
     * `batchSize`. Returns the batch to send, if one was flushed.
     */
    method OnRecord(r: LogRecord) returns (send: Option<seq<LogRecord>>)
      requires Valid()
      modifies this
      ensures Valid()
      ensures Snapshot() == Step(batchSize as int, old(Snapshot()), Arrival(r))
      ensures received == old(received) + [r]
      ensures send == if |flushed| > |old(flushed)| then Some(flushed[|flushed| - 1]) else None
    {
      StepConserves(batchSize as int, Snapshot(), Arrival(r));
      batch := batch + [r];
      received := received + [r];
      if |batch| >= batchSize as int {
        send := Some(batch);
        flushed := flushed + [batch];
        batch := [];
      } else {
        send := None;
      }
    }

    /** The timer fires: flush the accumulator if it holds anything. */
    method OnTick() returns (send: Option<seq<LogRecord>>)
      requires Valid()
      modifies this
      ensures Valid()
      ensures Snapshot() == Step(batchSize as int, old(Snapshot()), Tick)
      ensures received == old(received)
      ensures send == if |flushed| > |old(flushed)| then Some(flushed[|flushed| - 1]) else None
    {
      StepConserves(batchSize as int, Snapshot(), Tick);
      if |batch| > 0 {
        send := Some(batch);
        flushed := flushed + [batch];
        batch := [];
      } else {
        send := None;
      }
    }
  }
}
