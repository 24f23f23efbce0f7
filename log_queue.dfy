/**
 * The sender's ingest queue: the buffered channel `make(chan LogRecord, 1000)`
 * (main.go:115). Producers put records in without blocking and a record that
 * finds the buffer full is dropped (main.go:143-147); the batching worker takes
 * them out in arrival order (main.go:176). The channel's buffer is a ring of
 * fixed size, kept here as an array.
 */
module LogQueue {
  import opened Otlp

  /** The channel's buffer size. */
  const Capacity: nat := 1000

  /** Position of the `i`-th queued record in a ring whose oldest record is at `head`. */
  function Slot(head: nat, i: nat): (k: nat)
    requires head < Capacity && i < Capacity
    ensures k < Capacity
    ensures k == (head + i) % Capacity
  {
    if head + i < Capacity then head + i else head + i - Capacity
  }

  class BoundedQueue {
    const data: array<LogRecord>
    var head: nat
    var count: nat
    /** The queued records, oldest first. */
    ghost var Contents: seq<LogRecord>

    ghost predicate Valid()
      reads this, data
    {
      && data.Length == Capacity
      && head < Capacity
      && count <= Capacity
      && |Contents| == count
      && forall i :: 0 <= i < count ==> Contents[i] == data[Slot(head, i)]
    }

    constructor ()
      ensures Valid() && fresh(data)
      ensures Contents == []
    {
      data := new LogRecord[Capacity];
      head, count := 0, 0;
      Contents := [];
    }

    /**
     * The non-blocking send. A record is accepted exactly when fewer than
     * `Capacity` records are queued; it then joins the tail. A dropped record
     * leaves the queue as it was: no queued record is evicted for it.
     */
    method Enqueue(r: LogRecord) returns (accepted: bool)
      requires Valid()
      modifies this, data
      ensures Valid()
      ensures accepted <==> |old(Contents)| < Capacity
      ensures Contents == if accepted then old(Contents) + [r] else old(Contents)
    {
      if count == Capacity {
        return false;
      }
      data[Slot(head, count)] := r;
      count := count + 1;
      Contents := Contents + [r];
      accepted := true;
    }

    /**
     * The worker's receive. On an empty queue nothing is ready and nothing
     * changes; otherwise the oldest record is removed and returned.
     */
    method TryDequeue() returns (r: Option<LogRecord>)
      requires Valid()
      modifies this
      ensures Valid()
      ensures old(Contents) == [] ==> r == None && Contents == []
      ensures old(Contents) != [] ==> r == Some(old(Contents)[0]) && Contents == old(Contents)[1..]
    {
      if count == 0 {
        return None;
      }
      r := Some(data[head]);
      head := Slot(head, 1);
      count := count - 1;
      Contents := Contents[1..];
    }
  }

  /** A producer's records, offered one after another to a queue that starts with
      `queued` and is never drained meanwhile, end up queued in submission order
      up to the capacity; the rest are dropped. */
  function AfterOffers(queued: seq<LogRecord>, offered: seq<LogRecord>): (q: seq<LogRecord>)
    requires |queued| <= Capacity
    ensures |q| <= Capacity
    ensures q == queued + offered[..Min(|offered|, Capacity - |queued|)]
    decreases |offered|
  {
    if offered == [] then queued
    else if |queued| < Capacity then AfterOffers(queued + [offered[0]], offered[1..])
    else queued
  }

  function Min(a: int, b: int): int { if a < b then a else b }

  /** A producer logging `offered` one record after another while the worker
      takes nothing out: each record goes through `Enqueue`, and the queue ends
      as `AfterOffers` says. */
  method OfferAll(q: BoundedQueue, offered: seq<LogRecord>)
    requires q.Valid()
    modifies q, q.data
    ensures q.Valid()
    ensures q.Contents == AfterOffers(old(q.Contents), offered)
  {
    var i := 0;
    while i < |offered|
      invariant 0 <= i <= |offered|
      invariant q.Valid()
      invariant q.Contents == AfterOffers(old(q.Contents), offered[..i])
    {
      var _ := q.Enqueue(offered[i]);
      i := i + 1;
    }
    assert offered[..i] == offered;
  }
}
