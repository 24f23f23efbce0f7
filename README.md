# otel-log-sender, modelled in Dafny

A model of the Go program `main.go`, an in-process client that sends
OpenTelemetry logs. Producers call `Log`. `Log` builds a `LogRecord` and puts
it in a bounded queue of 1000 records without blocking; when the queue is full
the record is dropped. One worker drains the queue into batches. It flushes a
batch when the batch reaches `batchSize` records, or on a timer tick when the
batch is not empty. Each batch is wrapped in the OTLP envelope (one resource,
one scope), serialised, posted once to `<endpoint>/v1/logs`, and the outcome is
classified. Nothing is retried.

Files, one module per component:

- `otlp.dfy` (`Otlp`): the wire types of `main.go`. It also holds Go's
  fixed-width integers, and `AttributeValue` as the Go struct of seven optional
  fields with the `ExactlyOne` predicate. `ToAttributeValue` is
  `convertToAttributeValue`.
- `log_entry.dfy` (`LogEntry`): `MakeEntry`, the record building in `Log`. It
  loops over the map's keys in an arbitrary order, as Go's map iteration does.
  Lemmas state what the attribute list holds, independent of that order.
- `log_queue.dfy` (`LogQueue`): `BoundedQueue`, the channel buffer. It is a
  ring over an array of 1000 records, with a non-blocking `Enqueue` that drops
  on full, and the worker's receive.
- `batching.dfy` (`Batching`): `processQueue`. `Step` and `Run` state its
  behaviour on values, with lemmas about them. The class `BatchAssembler` holds
  the accumulator `batch` and a ghost history `flushed`, and its two event
  methods are proved to follow `Step`.
- `exporter.dfy` (`Exporter`): `sendBatch`. It builds the envelope, sends one
  request, and classifies the outcome. JSON marshalling, request construction
  and the HTTP round trip are the abstract `Transport` collaborators.
- `log_sender.dfy` (`Sender`): `LogSender`, which wires the queue, the worker
  and the exporter together. Its invariant says nothing is lost or reordered
  after the queue accepts a record: the batches flushed so far, then the
  accumulator, then the queue hold exactly the accepted records, in order.

Modelling decisions about `main.go`:

- Every status below 400, 1xx included, counts as delivered (main.go:270-280).
- `AttributeValue` keeps Go's struct of seven optional fields, so "exactly one
  field is set" is a proved property (main.go:37-45).
- A nil map and an empty map both give no attributes. Go builds a nil slice for
  the first and an empty slice for the second, and `omitempty` emits neither
  (main.go:98, 133-141).

## Model

| member | source | states |
|---|---|---|
| `Otlp.ToAttributeValue` | main.go:150-167 | Exactly one field is set. A string becomes `stringValue`; `int` (widened unchanged) and `int64` become `intValue`; `float64` becomes `doubleValue`; `bool` becomes `boolValue`; any other kind becomes `stringValue` of its `%v` rendering. Each field is set if and only if the input has the matching kind. |
| `Otlp.StringAttribute` | main.go:124 | The body built from a message has only `stringValue` set, and it holds the message. |
| `Otlp.ScalarRoundTrip` | main.go:150-167 | Reading the value back out of the converted result gives the input. The only losses are `int` turning into `int64` and an other-kind value turning into the string of its rendering. |
| `Otlp.ConversionInjective` | main.go:152-162 | String, `int64`, `float64` and `bool` inputs that convert to the same attribute value are the same input. |
| `LogEntry.MakeEntry` | main.go:123-141 | The record has the given timestamp, severity text and number. Its body has exactly one field set, `stringValue`, holding the message. With a nil map it has no attributes. Otherwise it has exactly the map's keys, each once, each with the converted value of its entry. |
| `LogEntry.EncodingSize` | main.go:133-141 | A non-nil map gives exactly one attribute per key. |
| `LogEntry.EncodingContents` | main.go:135-140 | The set of attributes equals the set of the map's entries, each converted. |
| `LogEntry.EncodingsArePermutations` | main.go:135-140 | Whatever order the map is iterated in, any two attribute lists built from one map are permutations of each other. |
| `LogEntry.RetryAttemptAttributes` | main.go:293-298 | The example call with `retry.count`, `timeout`, `enabled` and `user` gives four attributes: an integer 3, the double, `true` and the string `john_doe`. |
| `LogQueue.BoundedQueue.constructor` | main.go:115 | The queue starts empty, over a buffer of `Capacity` (1000) records. |
| `LogQueue.BoundedQueue.Enqueue` | main.go:143-147 | The record is accepted if and only if fewer than 1000 records are queued, and it then goes to the tail. A dropped record leaves the queue unchanged; no queued record is evicted. The ring invariant is kept. |
| `LogQueue.BoundedQueue.TryDequeue` | main.go:176 | An empty queue gives nothing and stays empty. Otherwise the oldest record is removed and returned (FIFO). |
| `LogQueue.AfterOffers` | main.go:143-147 | Records offered one after another to a queue that is not drained end up queued in submission order, up to the capacity. The rest are dropped, and the queue never holds more than 1000. |
| `LogQueue.OfferAll` | main.go:143-147 | Offering records one after another through `Enqueue`, with nothing taken out, leaves the queue exactly as `AfterOffers` says: in submission order up to the capacity, the rest dropped. |
| `Batching.Step` | main.go:175-186 | An arrival flushes if and only if the accumulator then holds at least `batchSize` records. A tick flushes if and only if the accumulator is not empty. A flush hands over everything accumulated, never an empty batch, and leaves the accumulator empty. Without a flush the accumulator just gains the arriving record. The history of flushes only grows, by at most one per event. |
| `Batching.Run` | main.go:174-188 | The worker's state after a sequence of events: `Step` applied to each event in order. Earlier flushes are never changed, and each event adds at most one. |
| `Batching.IdleTick` | main.go:182-186 | A tick on an empty accumulator changes nothing and flushes nothing. |
| `Batching.StepConserves` | main.go:176-186 | One event neither loses nor reorders a record: the flushed batches plus the accumulator grow by exactly the arriving record. |
| `Batching.RunConserves` | main.go:169-188 | After any sequence of events, the flushed batches concatenated, then the accumulator, equal the records received, in order. |
| `Batching.RunBounded` | main.go:176-181 | With `batchSize >= 1`, the accumulator stays strictly below `batchSize` after every event. |
| `Batching.FlushSizes` | main.go:176-186 | With `batchSize >= 1`, a flush caused by an arrival holds exactly `batchSize` records. A flush caused by a tick holds between 1 and `batchSize - 1` records. |
| `Batching.RunFlushesNonEmpty` | main.go:183-185 | No flushed batch is ever empty. |
| `Batching.ArrivalsBelowThreshold` | main.go:177-178 | Arrivals that keep the accumulator below the threshold only accumulate, in order, and flush nothing. |
| `Batching.TenRecordsFlush` | main.go:177-181 | With `batchSize` 10, ten records from an empty accumulator give exactly one flush, holding all ten in order, and leave the accumulator empty. |
| `Batching.FifteenRecordsThenTick` | main.go:174-188 | With `batchSize` 10, fifteen records give one flush of records 1-10. A following tick flushes records 11-15, and nothing more happens. |
| `Batching.FewRecordsThenTick` | main.go:174-188 | With `batchSize` 10 and fewer than ten records, nothing is flushed until the tick. The tick then flushes all of them in one batch. |
| `Batching.BatchAssembler.constructor` | main.go:170 | The accumulator starts empty, with no flushes and nothing received. |
| `Batching.BatchAssembler.OnRecord` | main.go:176-181 | The new state is `Step` of the old state on the arrival. It records the arrival, returns the flushed batch if there was one, and keeps the invariant: nothing lost, accumulator below threshold, no empty flush. |
| `Batching.BatchAssembler.OnTick` | main.go:182-186 | The new state is `Step` of the old state on a tick. It returns the flushed batch if there was one and keeps the same invariant. |
| `Exporter.ServiceResourceWellFormed` | main.go:192-213 | The resource carries exactly `service.name`, `service.version` and `telemetry.sdk.language`, under distinct keys, each a string value with exactly one field set. |
| `Exporter.Envelope` | main.go:214-231 | The payload has exactly one `ResourceLogs` with the fixed resource. That holds exactly one `ScopeLogs` with scope `custom-logger`/`1.0`, whose records are the batch unchanged; reading the records back gives the batch. |
| `Exporter.EnvelopeInjective` | main.go:218-231 | Different batches give different payloads. |
| `Exporter.SendBatch` | main.go:250-280 | At most one request is sent. One is sent if and only if marshalling and request construction both succeed, and it is a JSON POST of the serialised envelope to `<endpoint>/v1/logs`. A marshal or request error ends the call without a send. A failed round trip is a transport failure. A status of 400 or more is rejected and one below 400 is delivered, carrying that status. |
| `Exporter.UnprocessableIsRejectedOnce` | main.go:270-277 | A 422 response is a rejection, and the batch is sent exactly once. |
| `Sender.LogSender.constructor` | main.go:108-117 | A new sender has the endpoint and batch size it was given, an empty queue and an empty accumulator. |
| `Sender.LogSender.Log` | main.go:123-148 | The built record (as `MakeEntry` states) is queued if and only if the queue held fewer than 1000 records, and it joins the tail. Otherwise the record is dropped and nothing changes. |
| `Sender.LogSender.Receive` | main.go:176-181 | With an empty queue nothing happens. Otherwise the oldest record leaves the queue and the accumulator takes one `Step` on it. A batch flushed by that step is sent with `SendBatch`. Flushed batches, then the accumulator, then the queue equal all accepted records, in order. |
| `Sender.LogSender.Tick` | main.go:182-186 | The queue is untouched, and the accumulator takes one `Step` on a tick. A batch flushed by that step is sent with `SendBatch`. The same nothing-lost invariant holds. |

## Left out

- Goroutine, channel and `select` machinery (main.go:119-121, 143, 174-176): the queue is a sequential bounded FIFO and the two `select` cases are methods the caller invokes. Interleavings of several producers are not modelled.
- `time.Now` and the 3-second ticker (main.go:127, 171): the timestamp is a parameter, already a `uint64`, and a tick is an explicit event. Real time, and the fact that a size-triggered flush does not reset the ticker, are not modelled.
- `net/http` (main.go:110-112, 256-277): the request error, the round trip and its status are the abstract `Transport` inputs. The 10-second client timeout is not modelled. Decoding the error response body is not modelled either, so `Rejected` carries only the status.
- `encoding/json` (main.go:250): `Transport.marshal` is an abstract function of the payload. JSON field names and `omitempty` are not modelled.
- `fmt.Sprintf("%v")` (main.go:164): the function-valued parameter `render`.
- `float64`: carried as its 64-bit pattern, with no arithmetic.
- `log.Printf`/`log.Println` diagnostics (main.go:146, 252-279): not modelled. `LogSender.Log` returns whether the record was queued, where the Go code only logs the drop.
- `main()` and `Start` (main.go:119-121, 287-302): not modelled, apart from the attribute example in `RetryAttemptAttributes`.
- Go's `int`: taken at its 64-bit width, so `batchSize`, `severityNumber` and the status code are 64-bit signed integers.
- `ArrayValue`, `KvlistValue` and `BytesValue`: present in the data model, but the converter never produces them.
