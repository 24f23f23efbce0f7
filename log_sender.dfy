/**
 * `LogSender` (main.go:101-189): the producer entry point `Log`, the bounded
 * queue behind it, and the worker that drains the queue into batches and hands
 * each batch to `sendBatch`. The worker's `select` is the caller's choice of
 * which method to invoke next: `Receive` when a record is taken from the
 * queue, `Tick` when the timer fires.
 */
module Sender {
  import opened Otlp
  import opened LogEntry
  import opened LogQueue
  import opened Batching
  import opened Exporter

  class LogSender {
    const endpoint: string
    /** `fmt.Sprintf("%v", _)`, used for attribute values of kinds without a case of their own. */
    const render: OtherValue -> string
    const queue: BoundedQueue
    const assembler: BatchAssembler
    /** Every record the queue has accepted, in order of acceptance. */
    ghost var accepted: seq<LogRecord>

    ghost predicate Valid()
      reads this, queue, queue.data, assembler
    {
      && queue.Valid()
      && assembler.Valid()
      && accepted == assembler.received + queue.Contents
    }

    /** NewLogSender: an empty queue of `Capacity` records and an empty accumulator. */
    constructor (endpoint: string, batchSize: goInt, render: OtherValue -> string)
      ensures Valid()
      ensures fresh(queue) && fresh(queue.data) && fresh(assembler)
      ensures this.endpoint == endpoint && this.render == render && assembler.batchSize == batchSize
      ensures queue.Contents == [] && assembler.batch == [] && assembler.flushed == [] && accepted == []
    {
      this.endpoint := endpoint;
      this.render := render;
      queue := new BoundedQueue();
      assembler := new BatchAssembler(batchSize);
      accepted := [];
    }

    /**
     * Builds the record and offers it to the queue without blocking. The result
     * says whether it was queued; a record that finds the queue full is dropped
     * and nothing else changes.
     */
    method Log(now: uint64, severityText: string, severityNumber: goInt, message: string,
               attrs: Option<map<string, HostValue>>)
      returns (queued: bool)
      requires Valid()
      modifies this, queue, queue.data
      ensures Valid()
      ensures queued <==> |old(queue.Contents)| < Capacity
      ensures !queued ==> queue.Contents == old(queue.Contents) && accepted == old(accepted)
      ensures queued ==>
                && |queue.Contents| == |old(queue.Contents)| + 1
                && queue.Contents == old(queue.Contents) + [queue.Contents[|queue.Contents| - 1]]
                && accepted == old(accepted) + [queue.Contents[|queue.Contents| - 1]]
                && IsEntryFor(queue.Contents[|queue.Contents| - 1], now, severityText, severityNumber,
                              message, attrs, render)
    {
      var entry := MakeEntry(now, severityText, severityNumber, message, attrs, render);
      queued := queue.Enqueue(entry);
      if queued {
        accepted := accepted + [entry];
      }
    }

    /**
     * The receive case of the worker's `select`: take the oldest queued record,
     * if there is one, and let the accumulator take it; a batch flushed on
     * reaching the threshold is sent at once. An empty queue means the case is
     * not ready, and nothing happens.
     */
    method Receive(io: Transport) returns (attempt: Option<Attempt>)
      requires Valid()
      modifies queue, assembler
      ensures Valid()
      ensures accepted == old(accepted)
      ensures old(queue.Contents) == [] ==>
                queue.Contents == [] && assembler.Snapshot() == old(assembler.Snapshot()) && attempt == None
      ensures old(queue.Contents) != [] ==>
                && queue.Contents == old(queue.Contents)[1..]
                && assembler.Snapshot()
                   == Step(assembler.batchSize as int, old(assembler.Snapshot()), Arrival(old(queue.Contents)[0]))
      ensures attempt == if |assembler.flushed| > |old(assembler.flushed)|
                         then Some(SendBatch(endpoint, assembler.flushed[|assembler.flushed| - 1], io))
                         else None
      ensures Flatten(assembler.flushed) + assembler.batch + queue.Contents == accepted
    {
      var next := queue.TryDequeue();
      attempt := None;
      if next.Some? {
        var batch := assembler.OnRecord(next.value);
        if batch.Some? {
          attempt := Some(SendBatch(endpoint, batch.value, io));
        }
      }
    }

    /** The timer case of the worker's `select`: send the accumulator if it is non-empty. */
    method Tick(io: Transport) returns (attempt: Option<Attempt>)
      requires Valid()
      modifies assembler
      ensures Valid()
      ensures accepted == old(accepted) && queue.Contents == old(queue.Contents)
      ensures assembler.Snapshot() == Step(assembler.batchSize as int, old(assembler.Snapshot()), Event.Tick)
      ensures attempt == if |assembler.flushed| > |old(assembler.flushed)|
                         then Some(SendBatch(endpoint, assembler.flushed[|assembler.flushed| - 1], io))
                         else None
      ensures Flatten(assembler.flushed) + assembler.batch + queue.Contents == accepted
    {
      var batch := assembler.OnTick();
      attempt := None;
      if batch.Some? {
        attempt := Some(SendBatch(endpoint, batch.value, io));
      }
    }
  }
}
